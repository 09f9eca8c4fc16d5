/** `CirrusPayload.set_id`: the id of a payload that comes without one, and what that id tells about the payload. */
module PayloadNaming {
  import opened Wrappers
  import opened Strings
  import opened PayloadIds
  import opened IdValidation

  datatype Item = Item(id: string, collection: Option<string>)

  datatype Definition = Definition(workflow: Option<string>, collections: Option<string>)

  datatype IdError = NoFeatures | NoWorkflow

  // Sorting strings by code point.

  lemma {:induction false} LeqTotal(a: string, b: string)
    ensures Leq(a, b) || Leq(b, a)
  {
    if a != [] && b != [] && a[0] == b[0] {
      LeqTotal(a[1..], b[1..]);
    }
  }

  lemma {:induction false} LeqAntisymmetric(a: string, b: string)
    requires Leq(a, b) && Leq(b, a)
    ensures a == b
  {
    if a != [] && b != [] {
      LeqAntisymmetric(a[1..], b[1..]);
      assert a == [a[0]] + a[1..] && b == [b[0]] + b[1..];
    }
  }

  lemma {:induction false} LeqTransitive(a: string, b: string, c: string)
    requires Leq(a, b) && Leq(b, c)
    ensures Leq(a, c)
  {
    if a != [] && a[0] == b[0] && b[0] == c[0] {
      LeqTransitive(a[1..], b[1..], c[1..]);
    }
  }

  predicate Sorted(xs: seq<string>) {
    forall i, j | 0 <= i < j < |xs| :: Leq(xs[i], xs[j])
  }

  function Insert(x: string, xs: seq<string>): seq<string> {
    if xs == [] || Leq(x, xs[0]) then [x] + xs else [xs[0]] + Insert(x, xs[1..])
  }

  /** `sorted`. */
  function Sort(xs: seq<string>): seq<string> {
    if xs == [] then [] else Insert(xs[0], Sort(xs[1..]))
  }

  lemma {:induction false} InsertAdds(x: string, xs: seq<string>)
    ensures multiset(Insert(x, xs)) == multiset{x} + multiset(xs)
  {
    if xs != [] && !Leq(x, xs[0]) {
      InsertAdds(x, xs[1..]);
      assert xs == [xs[0]] + xs[1..];
      assert multiset(xs) == multiset{xs[0]} + multiset(xs[1..]);
    }
  }

  lemma {:induction false} FrontOfSorted(x: string, xs: seq<string>)
    requires Sorted(xs) && forall y | y in xs :: Leq(x, y)
    ensures Sorted([x] + xs)
  {
    assert forall j | 0 < j <= |xs| :: ([x] + xs)[j] == xs[j - 1] && xs[j - 1] in xs;
  }

  lemma TailOfSorted(xs: seq<string>)
    requires xs != [] && Sorted(xs)
    ensures Sorted(xs[1..]) && forall y | y in xs[1..] :: Leq(xs[0], y)
  {
  }

  lemma {:induction false} InsertSorts(x: string, xs: seq<string>)
    requires Sorted(xs)
    ensures Sorted(Insert(x, xs))
  {
    if xs == [] {
    } else if Leq(x, xs[0]) {
      TailOfSorted(xs);
      forall y | y in xs ensures Leq(x, y) {
        if y != xs[0] {
          assert y in xs[1..];
          LeqTransitive(x, xs[0], y);
        }
      }
      FrontOfSorted(x, xs);
    } else {
      LeqTotal(x, xs[0]);
      TailOfSorted(xs);
      InsertSorts(x, xs[1..]);
      InsertAdds(x, xs[1..]);
      forall y | y in Insert(x, xs[1..]) ensures Leq(xs[0], y) {
        assert y in multiset(Insert(x, xs[1..]));
      }
      FrontOfSorted(xs[0], Insert(x, xs[1..]));
    }
  }

  lemma {:induction false} SortSorts(xs: seq<string>)
    ensures Sorted(Sort(xs)) && multiset(Sort(xs)) == multiset(xs)
  {
    if xs != [] {
      SortSorts(xs[1..]);
      InsertSorts(xs[0], Sort(xs[1..]));
      InsertAdds(xs[0], Sort(xs[1..]));
      assert xs == [xs[0]] + xs[1..];
    }
  }

  lemma RestOfMultiset(a: seq<string>)
    requires a != []
    ensures a == [a[0]] + a[1..] && multiset(a[1..]) == multiset(a) - multiset{a[0]}
  {
    assert a == [a[0]] + a[1..];
  }

  /** Ascending by code point: a prefix first, otherwise the smaller character first. */
  ghost predicate Ascending(xs: seq<string>) {
    forall i, j | 0 <= i < j < |xs| :: InOrder(xs[i], xs[j])
  }

  lemma AscendingIsSorted(xs: seq<string>)
    ensures Ascending(xs) <==> Sorted(xs)
  {
    forall i, j | 0 <= i < j < |xs| ensures InOrder(xs[i], xs[j]) <==> Leq(xs[i], xs[j]) {
      LeqIff(xs[i], xs[j]);
    }
  }

  /** A multiset of strings has one ascending order. */
  lemma {:induction false} SortedIsUnique(a: seq<string>, b: seq<string>)
    requires Ascending(a) && Ascending(b) && multiset(a) == multiset(b)
    ensures a == b
  {
    AscendingIsSorted(a);
    AscendingIsSorted(b);
    SortedAgree(a, b);
  }

  lemma {:induction false} SortedAgree(a: seq<string>, b: seq<string>)
    requires Sorted(a) && Sorted(b) && multiset(a) == multiset(b)
    ensures a == b
  {
    assert |a| == |multiset(a)| && |b| == |multiset(b)|;
    if a != [] {
      TailOfSorted(a);
      TailOfSorted(b);
      assert a[0] in multiset(b) && b[0] in multiset(a);
      if a[0] != b[0] {
        assert a[0] in b[1..] && b[0] in a[1..];
        LeqAntisymmetric(a[0], b[0]);
      }
      RestOfMultiset(a);
      RestOfMultiset(b);
      SortedAgree(a[1..], b[1..]);
    }
  }

  lemma {:induction false} SortEqualIff(a: seq<string>, b: seq<string>)
    ensures Sort(a) == Sort(b) <==> multiset(a) == multiset(b)
  {
    SortSorts(a);
    SortSorts(b);
    if multiset(a) == multiset(b) {
      SortedAgree(Sort(a), Sort(b));
    }
  }

  // Joining with slashes.

  function Join(parts: seq<string>): string {
    if parts == [] then "" else if |parts| == 1 then parts[0] else parts[0] + "/" + Join(parts[1..])
  }

  predicate SlashFree(parts: seq<string>) {
    forall i | 0 <= i < |parts| :: '/' !in parts[i]
  }

  /** What `"/".join` makes of two lists, one behind the other. */
  lemma {:induction false} JoinConcat(a: seq<string>, b: seq<string>)
    requires a != [] && b != []
    ensures Join(a + b) == Join(a) + "/" + Join(b)
    ensures Join([a[0]]) == a[0]
  {
    assert (a + b)[0] == a[0] && (a + b)[1..] == a[1..] + b;
    if |a| > 1 {
      JoinConcat(a[1..], b);
      JoinStep(a[0], Join(a[1..]), Join(b));
    }
  }

  lemma JoinStep(x: string, s: string, t: string)
    ensures x + "/" + (s + "/" + t) == x + "/" + s + "/" + t
  {
  }

  lemma {:induction false} SlashInJoin(parts: seq<string>)
    requires parts != [] && SlashFree(parts)
    ensures First(Join(parts), '/') == if |parts| == 1 then -1 else |parts[0]|
  {
    if |parts| > 1 {
      FirstIs(Join(parts), '/', |parts[0]|);
    }
  }

  /** Slash-free parts can be read off their joint. */
  lemma {:induction false} JoinIsInjective(a: seq<string>, b: seq<string>)
    requires a != [] && b != [] && SlashFree(a) && SlashFree(b) && Join(a) == Join(b)
    ensures a == b
  {
    SlashInJoin(a);
    SlashInJoin(b);
    if |a| == 1 {
      assert a == [a[0]] && b == [b[0]];
    } else {
      SameHeadLength(a[0], Join(a[1..]), b[0], Join(b[1..]));
      JoinIsInjective(a[1..], b[1..]);
      assert a == [a[0]] + a[1..] && b == [b[0]] + b[1..];
    }
  }

  lemma SameHeadLength(a: string, s: string, b: string, t: string)
    requires |a| == |b| && a + "/" + s == b + "/" + t
    ensures a == b && s == t
  {
    assert (a + "/" + s)[..|a|] == a && (b + "/" + t)[..|b|] == b;
    SameHeadSameTail(a, s, t);
  }

  // The id.

  function Ids(items: seq<Item>): seq<string> {
    seq(|items|, i requires 0 <= i < |items| => items[i].id)
  }

  /** The collection names of the items, each once. */
  function Names(items: seq<Item>): seq<string> {
    if items == [] then [] else
      var names := Names(items[1..]);
      if items[0].collection.None? || items[0].collection.value in names then names
      else [items[0].collection.value] + names
  }

  ghost predicate Named(items: seq<Item>, name: string) {
    exists i | 0 <= i < |items| :: items[i].collection == Some(name)
  }

  lemma {:induction false} NamesOnce(items: seq<Item>, name: string)
    ensures multiset(Names(items))[name] == if Named(items, name) then 1 else 0
  {
    if items != [] {
      NamesOnce(items[1..], name);
      NamedStep(items, name);
      var names := Names(items[1..]);
      if items[0].collection.Some? {
        assert multiset([items[0].collection.value] + names) == multiset{items[0].collection.value} + multiset(names);
        NamesOnce(items[1..], items[0].collection.value);
      }
    }
  }

  lemma NamedStep(items: seq<Item>, name: string)
    requires items != []
    ensures Named(items, name) <==> items[0].collection == Some(name) || Named(items[1..], name)
  {
    assert items == [items[0]] + items[1..];
    if i :| 0 <= i < |items[1..]| && items[1..][i].collection == Some(name) {
      assert items[i + 1].collection == Some(name);
    }
  }

  function CollectionsText(items: seq<Item>, d: Definition): string {
    if d.collections.Some? then d.collections.value
    else if Names(items) == [] then "none"
    else Join(Sort(Names(items)))
  }

  function GeneratedId(items: seq<Item>, d: Definition): string
    requires d.workflow.Some?
  {
    CollectionsText(items, d) + SEP + (d.workflow.value + "/" + Join(Sort(Ids(items))))
  }

  /** What an id is made of: the names and the item ids in ascending order, unless the definition names collections. */
  ghost predicate IdText(items: seq<Item>, d: Definition, id: string, names: seq<string>, ids: seq<string>) {
    && Ascending(names) && (forall name :: multiset(names)[name] == if Named(items, name) then 1 else 0)
    && Ascending(ids) && multiset(ids) == multiset(Ids(items))
    && d.workflow.Some?
    && id == (if d.collections.Some? then d.collections.value else if names == [] then "none" else Join(names))
             + "/workflow-" + (d.workflow.value + "/" + Join(ids))
  }

  lemma {:induction false} GeneratedIdText(items: seq<Item>, d: Definition)
    requires d.workflow.Some?
    ensures IdText(items, d, GeneratedId(items, d), Sort(Names(items)), Sort(Ids(items)))
  {
    SortSorts(Names(items));
    SortSorts(Ids(items));
    AscendingIsSorted(Sort(Names(items)));
    AscendingIsSorted(Sort(Ids(items)));
    NoneSorted(Names(items));
    forall name ensures multiset(Sort(Names(items)))[name] == if Named(items, name) then 1 else 0 {
      NamesOnce(items, name);
    }
  }

  class CirrusPayload {
    const features: seq<Item>
    const definition: Definition
    var id: Option<string>

    method SetId() returns (r: Result<(), IdError>)
      modifies this`id
      ensures old(id).Some? ==> r.Success? && id == old(id)
      ensures old(id).None? && features == [] ==> r == Failure(NoFeatures) && id == None
      ensures old(id).None? && features != [] && definition.workflow.None? ==> r == Failure(NoWorkflow) && id == None
      ensures old(id).None? && features != [] && definition.workflow.Some? ==>
                && r.Success? && id == Some(GeneratedId(features, definition))
                && exists names, ids :: IdText(features, definition, id.value, names, ids)
    {
      if id.Some? {
        return Success(());
      }
      if features == [] {
        return Failure(NoFeatures);
      }
      if definition.workflow.None? {
        return Failure(NoWorkflow);
      }
      var collections: string;
      if definition.collections.Some? {
        collections := definition.collections.value;
      } else {
        var cols := Sort(Names(features));
        NoneSorted(Names(features));
        collections := if |cols| != 0 then Join(cols) else "none";
      }
      id := Some(collections + SEP + (definition.workflow.value + "/" + Join(Sort(Ids(features)))));
      GeneratedIdText(features, definition);
      r := Success(());
    }
  }

  lemma {:induction false} NoneSorted(xs: seq<string>)
    ensures |Sort(xs)| == |xs|
  {
    SortSorts(xs);
    assert |Sort(xs)| == |multiset(Sort(xs))| && |xs| == |multiset(xs)|;
  }

  ghost predicate SameNames(a: seq<Item>, b: seq<Item>) {
    forall name :: Named(a, name) <==> Named(b, name)
  }

  lemma SameCollections(a: seq<Item>, b: seq<Item>, d: Definition)
    requires SameNames(a, b)
    ensures CollectionsText(a, d) == CollectionsText(b, d)
  {
    forall name ensures multiset(Names(a))[name] == multiset(Names(b))[name] {
      NamesOnce(a, name);
      NamesOnce(b, name);
    }
    assert multiset(Names(a)) == multiset(Names(b));
    SortEqualIff(Names(a), Names(b));
    NoneSorted(Names(a));
    NoneSorted(Names(b));
  }

  /** The order of the features does not matter, nor how often a collection is named. */
  lemma IdIgnoresOrder(a: seq<Item>, b: seq<Item>, d: Definition)
    requires d.workflow.Some? && SameNames(a, b) && multiset(Ids(a)) == multiset(Ids(b))
    ensures GeneratedId(a, d) == GeneratedId(b, d)
  {
    SameCollections(a, b, d);
    SortEqualIff(Ids(a), Ids(b));
  }

  /** What names must keep to for the id to be read back: no separator in the collections, no slash in the others. */
  ghost predicate Plain(items: seq<Item>, d: Definition) {
    && items != [] && d.workflow.Some? && '/' !in d.workflow.value
    && !Contains(CollectionsText(items, d), SEP) && SlashFree(Ids(items))
  }

  lemma {:induction false} SortKeepsMembers(xs: seq<string>)
    ensures forall x :: x in Sort(xs) <==> x in xs
  {
    SortSorts(xs);
    forall x ensures x in Sort(xs) <==> x in xs {
      assert x in multiset(Sort(xs)) <==> x in multiset(xs);
    }
  }

  lemma SortedIdsAreSlashFree(items: seq<Item>)
    requires items != [] && SlashFree(Ids(items))
    ensures SlashFree(Sort(Ids(items))) && Sort(Ids(items)) != []
  {
    var ids := Ids(items);
    SortKeepsMembers(ids);
    NoneSorted(ids);
    forall i | 0 <= i < |Sort(ids)| ensures '/' !in Sort(ids)[i] {
      assert Sort(ids)[i] in ids;
    }
  }

  lemma SplitGenerated(c: string, w: string, items: string, c2: string, w2: string, items2: string)
    requires !Contains(c, SEP) && !Contains(c2, SEP) && '/' !in w && '/' !in w2
    requires c + SEP + (w + "/" + items) == c2 + SEP + (w2 + "/" + items2)
    ensures c == c2 && w == w2 && items == items2
  {
    var s, t := w + "/" + items, w2 + "/" + items2;
    FirstSeparator(c, s);
    FirstSeparator(c2, t);
    assert (c + SEP + s)[..|c|] == c && (c2 + SEP + t)[..|c2|] == c2;
    assert (c + SEP + s)[|c| + |SEP|..] == s && (c2 + SEP + t)[|c2| + |SEP|..] == t;
    FirstIs(s, '/', |w|);
    FirstIs(t, '/', |w2|);
    SameHeadLength(w, items, w2, items2);
  }

  /** Two plain payloads get the same id exactly when collections, workflow and the multiset of item ids agree. */
  lemma SameIdIff(a: seq<Item>, da: Definition, b: seq<Item>, db: Definition)
    requires Plain(a, da) && Plain(b, db)
    ensures GeneratedId(a, da) == GeneratedId(b, db) <==>
            CollectionsText(a, da) == CollectionsText(b, db) && da.workflow == db.workflow &&
            multiset(Ids(a)) == multiset(Ids(b))
  {
    var sa, sb := Sort(Ids(a)), Sort(Ids(b));
    SortEqualIff(Ids(a), Ids(b));
    if GeneratedId(a, da) == GeneratedId(b, db) {
      SplitGenerated(CollectionsText(a, da), da.workflow.value, Join(sa), CollectionsText(b, db), db.workflow.value,
                     Join(sb));
      SortedIdsAreSlashFree(a);
      SortedIdsAreSlashFree(b);
      JoinIsInjective(sa, sb);
    }
  }

  const WORKFLOW := "workflow-"

  lemma SeparatorAtFront(p: string)
    requires '/' !in p
    ensures Contains("/" + p, SEP) <==> WORKFLOW <= p
  {
    assert SEP == "/" + WORKFLOW;
    if WORKFLOW <= p {
      assert ("/" + p)[0..|SEP|] == "/" + p[..|WORKFLOW|];
      assert OccursAt("/" + p, SEP, 0);
    }
    if i :| OccursAt("/" + p, SEP, i) {
      SeparatorChars("/" + p, i);
      assert i == 0;
      assert ("/" + p)[0..|SEP|][1..] == p[..|WORKFLOW|];
      assert SEP[1..] == WORKFLOW;
    }
  }

  lemma SeparatorInEither(a: string, b: string)
    requires b != [] && b[0] == '/'
    ensures Contains(a + b, SEP) <==> Contains(a, SEP) || Contains(b, SEP)
  {
    OccursInside(a, b, SEP);
    if i :| OccursAt(a + b, SEP, i) {
      if i < |a| {
        NoStraddle(a, b, i);
      } else {
        assert OccursAt(b, SEP, i - |a|);
      }
    }
    if i :| OccursAt(b, SEP, i) {
      assert OccursAt(a + b, SEP, |a| + i);
    }
  }

  ghost predicate LooksLikeWorkflow(parts: seq<string>) {
    exists p :: p in parts && WORKFLOW <= p
  }

  lemma LooksStep(parts: seq<string>)
    requires parts != []
    ensures LooksLikeWorkflow(parts) <==> WORKFLOW <= parts[0] || LooksLikeWorkflow(parts[1..])
  {
    assert parts == [parts[0]] + parts[1..];
    if WORKFLOW <= parts[0] {
      assert parts[0] in parts;
    }
    if p :| p in parts[1..] && WORKFLOW <= p {
      assert p in parts;
    }
  }

  /** Joining item ids makes a separator exactly when one of them begins like a workflow. */
  lemma {:induction false} SeparatorInJoinIff(parts: seq<string>)
    requires parts != [] && SlashFree(parts)
    ensures Contains("/" + Join(parts), SEP) <==> LooksLikeWorkflow(parts)
  {
    SeparatorAtFront(parts[0]);
    LooksStep(parts);
    if |parts| > 1 {
      assert "/" + Join(parts) == ("/" + parts[0]) + ("/" + Join(parts[1..]));
      SeparatorInEither("/" + parts[0], "/" + Join(parts[1..]));
      SeparatorInJoinIff(parts[1..]);
    }
  }

  lemma GoodIdIff(c: string, w: string, items: string)
    requires !Contains(c, SEP) && '/' !in w
    ensures GoodId(c + SEP + (w + "/" + items)) <==> '_' !in w && !Contains("/" + items, SEP)
  {
    var rest := w + "/" + items;
    FirstSeparator(c, rest);
    assert (c + SEP + rest)[|c| + |SEP|..] == rest;
    assert rest == w + ("/" + items) && rest[|w|] == '/' && rest[..|w|] == w;
    SeparatorBelowSlash(w, "/" + items);
  }

  /** The generated id of a plain payload survives the table exactly on these two conditions. */
  lemma GeneratedIdComesBackIff(items: seq<Item>, d: Definition)
    requires Plain(items, d)
    ensures IdComesBack(GeneratedId(items, d)) <==> '_' !in d.workflow.value && !LooksLikeWorkflow(Ids(items))
  {
    var ids := Sort(Ids(items));
    SortedIdsAreSlashFree(items);
    SortKeepsMembers(Ids(items));
    SeparatorInJoinIff(ids);
    GoodIdIff(CollectionsText(items, d), d.workflow.value, Join(ids));
    IdRoundTripIff(GeneratedId(items, d));
  }

  /** A separator in `text` behind which the regex reads a workflow and item ids, with no newline in front of it. */
  ghost predicate Readable(text: string, i: int) {
    OccursAt(text, SEP, i) && '\n' !in text[..i] && RestMatches(text[i + |SEP|..])
  }

  /** Some item id begins like a workflow and is followed by others, so that the regex can take it for one. */
  predicate ReadsAsWorkflow(ids: seq<string>) {
    |ids| > 1 &&
    ((WORKFLOW <= ids[0] && |ids[0]| > |WORKFLOW| && Join(ids[1..]) != "" && Join(ids[1..])[0] != '\n')
     || ('\n' !in ids[0] && ReadsAsWorkflow(ids[1..])))
  }

  lemma FrontSeparator(p: string, i: int)
    requires '/' !in p && OccursAt("/" + p, SEP, i)
    ensures i == 0 && WORKFLOW <= p && ("/" + p)[|SEP|..] == p[|WORKFLOW|..]
  {
    SeparatorChars("/" + p, i);
    assert forall k | 0 < k < |"/" + p| :: ("/" + p)[k] == p[k - 1];
    SeparatorAtFront(p);
  }

  lemma ReadableAtFront(p: string, more: string)
    requires '/' !in p
    ensures Readable("/" + p + ("/" + more), 0) <==>
            WORKFLOW <= p && |p| > |WORKFLOW| && more != "" && more[0] != '\n'
  {
    var text := "/" + p + ("/" + more);
    if OccursAt(text, SEP, 0) {
      NoStraddle("/" + p, "/" + more, 0);
      FrontSeparator(p, 0);
      assert text[|SEP|..] == p[|WORKFLOW|..] + "/" + more;
      RestMatchesIff(p[|WORKFLOW|..], more);
    } else if WORKFLOW <= p {
      SeparatorAtFront(p);
      OccursInside("/" + p, "/" + more, SEP);
      var i :| OccursAt("/" + p, SEP, i);
      FrontSeparator(p, i);
      assert false;
    }
  }

  lemma ReadableBehind(head: string, tail: string, i: nat)
    requires i <= |tail|
    ensures Readable(head + tail, |head| + i) <==> '\n' !in head && Readable(tail, i)
  {
    OccursInside(head, tail, SEP);
    assert (head + tail)[..|head| + i] == head + tail[..i];
    if OccursAt(tail, SEP, i) {
      assert (head + tail)[|head| + i + |SEP|..] == tail[i + |SEP|..];
    }
  }

  lemma NotReadableAlone(p: string, i: int)
    requires '/' !in p
    ensures !Readable("/" + p, i)
  {
    if OccursAt("/" + p, SEP, i) {
      FrontSeparator(p, i);
      NotInRest(p, '/', |WORKFLOW|);
    }
  }

  /** What the regex can read in joined item ids. */
  lemma {:induction false} ReadableInJoinIff(ids: seq<string>)
    requires ids != [] && SlashFree(ids)
    ensures (exists i :: Readable("/" + Join(ids), i)) <==> ReadsAsWorkflow(ids)
  {
    var p := ids[0];
    if |ids| == 1 {
      forall i ensures !Readable("/" + Join(ids), i) {
        NotReadableAlone(p, i);
      }
    } else {
      var head, tail := "/" + p, "/" + Join(ids[1..]);
      assert "/" + Join(ids) == head + tail;
      ReadableInJoinIff(ids[1..]);
      ReadableAtFront(p, Join(ids[1..]));
      if i :| Readable(head + tail, i) {
        ReadableInParts(p, tail, i);
      }
      if i :| Readable(tail, i) {
        ReadableBehind(head, tail, i);
      }
    }
  }

  lemma ReadableInParts(p: string, tail: string, i: int)
    requires '/' !in p && tail != [] && tail[0] == '/' && Readable("/" + p + tail, i)
    ensures i == 0 || ('\n' !in p && Readable(tail, i - |"/" + p|))
  {
    if i < |"/" + p| {
      NoStraddle("/" + p, tail, i);
      FrontSeparator(p, i);
    } else {
      ReadableBehind("/" + p, tail, i - |"/" + p|);
      assert forall k | 0 <= k < |p| :: ("/" + p)[k + 1] == p[k];
    }
  }

  /** The regex matches an id exactly at the separators it can read; the very first character cannot be one. */
  lemma MatchesSomewhere(id: string)
    ensures RegexParse(id).Some? <==> exists i :: i >= 1 && Readable(id, i)
  {
    var r := LastMatch(id, |id|);
    if r >= 0 {
      assert MatchesAt(id, r) && Readable(id, r);
    }
    if i :| i >= 1 && Readable(id, i) {
      assert MatchesAt(id, i);
    }
  }

  lemma ReadableAtJointIff(c: string, w: string, items: string)
    requires '/' !in w
    ensures Readable(c + SEP + (w + "/" + items), |c|) <==>
            '\n' !in c && w != "" && items != "" && items[0] != '\n'
  {
    var rest := w + "/" + items;
    CutBack(c, rest);
    assert (c + SEP + rest)[|c|..|c| + |SEP|] == SEP;
    RestMatchesIff(w, items);
  }

  lemma NoSlashInside(id: string, p: nat, w: string, i: nat)
    requires p + |w| <= |id| && id[p..p + |w|] == w && '/' !in w && p <= i < p + |w|
    ensures id[i] != '/'
  {
    assert id[i] == w[i - p];
  }

  lemma MiddlePart(a: string, sep: string, w: string, tail: string)
    ensures var id := a + sep + w + tail;
            id == a + sep + (w + tail) && id[|a| + |sep|..|a| + |sep| + |w|] == w && |a + sep + w| <= |id|
  {
  }

  /** Behind the first separator and before the tail, only the separator itself can begin one. */
  lemma NoSecondSeparator(id: string, w: string, i: int)
    requires Find(id, SEP) >= 0 && OccursAt(id, SEP, i) && '/' !in w
    requires var rest := Find(id, SEP) + |SEP|; rest + |w| <= |id| && id[rest..rest + |w|] == w
    ensures i == Find(id, SEP) || i >= Find(id, SEP) + |SEP| + |w|
  {
    var f := Find(id, SEP);
    SeparatorChars(id, i);
    SeparatorChars(id, f);
    if f + |SEP| <= i < f + |SEP| + |w| {
      NoSlashInside(id, f + |SEP|, w, i);
    }
  }

  lemma SeparatorPlaces(c: string, w: string, tail: string, i: int)
    requires !Contains(c, SEP) && '/' !in w && OccursAt(c + SEP + w + tail, SEP, i)
    ensures i == |c| || i >= |c + SEP + w|
  {
    MiddlePart(c, SEP, w, tail);
    FirstSeparator(c, w + tail);
    NoSecondSeparator(c + SEP + w + tail, w, i);
  }

  lemma NewlineInHead(c: string, w: string)
    ensures '\n' !in c + SEP + w <==> '\n' !in c && '\n' !in w
  {
    assert '\n' !in SEP;
  }

  /** The separators the regex can read in an id are the one it was built with and those among the item ids. */
  lemma ReadableInId(c: string, w: string, tail: string, i: int)
    requires !Contains(c, SEP) && '/' !in w && Readable(c + SEP + w + tail, i)
    ensures i == |c| || ('\n' !in c && '\n' !in w && Readable(tail, i - |c + SEP + w|))
  {
    SeparatorPlaces(c, w, tail, i);
    if i != |c| {
      ReadableBehind(c + SEP + w, tail, i - |c + SEP + w|);
      NewlineInHead(c, w);
    }
  }

  lemma ReadableInItems(c: string, w: string, tail: string, i: int)
    requires '\n' !in c && '\n' !in w && Readable(tail, i)
    ensures Readable(c + SEP + w + tail, |c + SEP + w| + i)
  {
    NewlineInHead(c, w);
    ReadableBehind(c + SEP + w, tail, i);
  }

  lemma ReadableInIdIff(c: string, w: string, tail: string)
    requires !Contains(c, SEP) && '/' !in w
    ensures (exists i :: i >= 1 && Readable(c + SEP + w + tail, i)) <==>
            (c != "" && Readable(c + SEP + w + tail, |c|))
            || ('\n' !in c && '\n' !in w && exists i :: Readable(tail, i))
  {
    if i :| i >= 1 && Readable(c + SEP + w + tail, i) {
      ReadableInId(c, w, tail, i);
    }
    if '\n' !in c && '\n' !in w {
      if i :| Readable(tail, i) {
        ReadableInItems(c, w, tail, i);
      }
    }
  }

  lemma {:induction false} JointValidatesIff(c: string, w: string, ids: seq<string>)
    requires !Contains(c, SEP) && '/' !in w && ids != [] && SlashFree(ids)
    ensures RegexParse(c + SEP + (w + "/" + Join(ids))).Some? <==>
              '\n' !in c &&
              ((c != "" && w != "" && Join(ids) != "" && Join(ids)[0] != '\n')
               || ('\n' !in w && ReadsAsWorkflow(ids)))
  {
    var items := Join(ids);
    var tail := "/" + items;
    Regroup(c, SEP, w, "/", items);
    assert c + SEP + w + tail == c + SEP + (w + "/" + items);
    MatchesSomewhere(c + SEP + (w + "/" + items));
    ReadableInIdIff(c, w, tail);
    ReadableInJoinIff(ids);
    ReadableAtJointIff(c, w, items);
  }

  /**
   Which generated ids pass validation: those whose separator the regex can read, and those with an item id that it can
   take for another workflow.
   */
  lemma GeneratedIdValidatesIff(items: seq<Item>, d: Definition)
    requires Plain(items, d)
    ensures var c, w, ids := CollectionsText(items, d), d.workflow.value, Sort(Ids(items));
            RegexParse(GeneratedId(items, d)).Some? <==>
              '\n' !in c &&
              ((c != "" && w != "" && Join(ids) != "" && Join(ids)[0] != '\n')
               || ('\n' !in w && ReadsAsWorkflow(ids)))
  {
    SortedIdsAreSlashFree(items);
    JointValidatesIff(CollectionsText(items, d), d.workflow.value, Sort(Ids(items)));
  }
}
