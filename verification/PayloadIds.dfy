/**
 Payload ids `<collections>/workflow-<workflow>/<itemids>` and the table keys made from them.  Neither function is
 the inverse of the other on all strings; the two if-and-only-ifs say on which ones it is.
 */
module PayloadIds {
  import opened Wrappers
  import opened Strings

  const SEP := "/workflow-"

  datatype Key = Key(collectionsWorkflow: string, itemids: string)

  datatype Parts = Parts(collections: string, workflow: string, itemids: string)

  datatype CodecError = IndexError | ValueError

  function JoinCollectionsWorkflow(collections: string, workflow: string): string {
    collections + "_" + workflow
  }

  /** Splits at the last underscore; without one the unpacking raises. */
  function SplitCollectionsWorkflow(s: string): Result<(string, string), CodecError> {
    var i := Last(s, '_');
    if i == -1 then Failure(ValueError) else Success((s[..i], s[i + 1..]))
  }

  function UpToSeparator(s: string): string {
    var j := Find(s, SEP);
    if j == -1 then s else s[..j]
  }

  function AtFirstSlash(s: string): (string, string) {
    var k := First(s, '/');
    if k == -1 then (s, "") else (s[..k], s[k + 1..])
  }

  /** The workflow and the item ids after the first separator, up to a second separator if there is one. */
  function SplitRest(rest: string): (string, string) {
    AtFirstSlash(UpToSeparator(rest))
  }

  function SplitPayloadId(id: string): Result<Parts, CodecError> {
    var i := Find(id, SEP);
    if i == -1 then Failure(IndexError)
    else
      var (workflow, itemids) := SplitRest(id[i + |SEP|..]);
      Success(Parts(id[..i], workflow, itemids))
  }

  function PayloadIdToKey(id: string): Result<Key, CodecError> {
    match SplitPayloadId(id)
    case Failure(e) => Failure(e)
    case Success(p) => Success(Key(JoinCollectionsWorkflow(p.collections, p.workflow), p.itemids))
  }

  function KeyToPayloadId(key: Key): Result<string, CodecError> {
    match SplitCollectionsWorkflow(key.collectionsWorkflow)
    case Failure(e) => Failure(e)
    case Success((c, w)) => Success(c + SEP + w + "/" + key.itemids)
  }

  lemma SeparatorChars(s: string, i: int)
    requires OccursAt(s, SEP, i)
    ensures s[i] == '/' && forall k | i < k < i + |SEP| :: s[k] != '/'
  {
    assert forall k {:trigger s[k]} | i <= k < i + |SEP| :: s[i..i + |SEP|][k - i] == s[k];
    assert forall n | 0 < n < |SEP| :: SEP[n] != '/';
  }

  /** The separator has its only slash in front, so no occurrence straddles a slash. */
  lemma NoStraddle(a: string, b: string, i: int)
    requires OccursAt(a + b, SEP, i) && i < |a| && b != [] && b[0] == '/'
    ensures OccursAt(a, SEP, i)
  {
    SeparatorChars(a + b, i);
    assert (a + b)[|a|] == '/';
    assert (a + b)[i..i + |SEP|] == a[i..i + |SEP|];
  }

  /** Where `c + "/workflow-" + rest` has its first separator. */
  lemma FirstSeparator(c: string, rest: string)
    ensures var f := Find(c + SEP + rest, SEP);
            0 <= f <= |c| && (f == |c| <==> !Contains(c, SEP)) && (f < |c| ==> c[f] == '/')
  {
    var id := c + SEP + rest;
    assert id == c + (SEP + rest);
    assert OccursAt(id, SEP, |c|);
    OccursInside(c, SEP + rest, SEP);
    var f := Find(id, SEP);
    if f < |c| {
      NoStraddle(c, SEP + rest, f);
      SeparatorChars(c, f);
    } else {
      assert forall i | OccursAt(c, SEP, i) :: OccursAt(id, SEP, i) && i < |c|;
    }
  }

  /** Below a slash-free head, separators can only come from the tail. */
  lemma SeparatorBelowSlash(w: string, tail: string)
    requires '/' !in w && tail != [] && tail[0] == '/'
    ensures Contains(w + tail, SEP) <==> Contains(tail, SEP)
    ensures First(w + tail, '/') == |w|
    ensures Contains(w + tail, SEP) ==> Find(w + tail, SEP) >= |w|
  {
    OccursInside(w, tail, SEP);
    var s := w + tail;
    assert s[..|w|] == w;
    FirstIs(s, '/', |w|);
    forall i | OccursAt(s, SEP, i) ensures i >= |w| && OccursAt(tail, SEP, i - |w|) {
      SeparatorChars(s, i);
      assert i >= |w|;
    }
  }

  /** Cutting at the first slash loses nothing when there is one. */
  lemma AtFirstSlashParts(s: string)
    ensures var (w, items) := AtFirstSlash(s);
            && '/' !in w && |w| + |items| <= |s|
            && (if '/' in s then s == w + "/" + items && w == s[..First(s, '/')] else w == s && items == "")
  {
    if '/' in s {
      CutAt(s, First(s, '/'));
    }
  }

  lemma UpToSeparatorParts(s: string)
    ensures if Contains(s, SEP) then |UpToSeparator(s)| + |SEP| <= |s| else UpToSeparator(s) == s
  {
  }

  /** No occurrence of a pattern lies wholly before its first one. */
  lemma NothingBeforeFirst(s: string, pat: string)
    requires pat != [] && Contains(s, pat)
    ensures !Contains(s[..Find(s, pat)], pat)
  {
    var f := Find(s, pat);
    assert s == s[..f] + s[f..];
    OccursInside(s[..f], s[f..], pat);
  }

  /** The split gives a workflow without slash, and is lossless exactly on one slash and no second separator. */
  lemma SplitRestIsLosslessIff(rest: string)
    ensures var (w, items) := SplitRest(rest);
            && '/' !in w
            && (rest == w + "/" + items <==> '/' in rest && !Contains(rest, SEP))
            && ('/' in rest && !Contains(rest, SEP) ==> w == rest[..First(rest, '/')])
  {
    UpToSeparatorParts(rest);
    AtFirstSlashParts(UpToSeparator(rest));
    var (w, items) := SplitRest(rest);
    if rest == w + "/" + items {
      assert rest[|w|] == '/';
    }
  }

  lemma SlashAtEnd(w: string, tail: string)
    requires tail != [] && tail[0] == '/'
    ensures '/' in w + tail && (w + tail)[|w|] == '/' && (w + tail)[..|w|] == w
  {
  }

  lemma TailsCancel(a: string, x: string, y: string)
    requires a + x == a + y
    ensures x == y
  {
    assert (a + x)[|a|..] == x && (a + y)[|a|..] == y;
  }

  /** Splitting what was joined. */
  lemma SplitRestIff(w: string, items: string)
    ensures SplitRest(w + "/" + items) == (w, items) <==> '/' !in w && !Contains("/" + items, SEP)
  {
    var tail := "/" + items;
    assert w + "/" + items == w + tail;
    SplitRestIsLosslessIff(w + tail);
    if '/' !in w {
      SeparatorBelowSlash(w, tail);
      SlashAtEnd(w, tail);
      if !Contains(tail, SEP) {
        TailsCancel(w + "/", SplitRest(w + tail).1, items);
      }
    }
  }

  /** Table keys that come back: no separator in the collections, no slash in the workflow, no separator below it. */
  ghost predicate GoodKey(key: Key) {
    match SplitCollectionsWorkflow(key.collectionsWorkflow)
    case Failure(_) => false
    case Success((c, w)) => !Contains(c, SEP) && '/' !in w && !Contains("/" + key.itemids, SEP)
  }

  predicate KeyComesBack(key: Key) {
    match KeyToPayloadId(key)
    case Failure(_) => false
    case Success(id) => PayloadIdToKey(id) == Success(key)
  }

  /** Every id with a separator, cut at the first one. */
  lemma Cut(id: string) returns (c: string, rest: string)
    requires Find(id, SEP) >= 0
    ensures id == c + SEP + rest && !Contains(c, SEP) && |c| == Find(id, SEP)
    ensures c == id[..Find(id, SEP)] && rest == id[Find(id, SEP) + |SEP|..]
  {
    var f := Find(id, SEP);
    c, rest := id[..f], id[f + |SEP|..];
    NothingBeforeFirst(id, SEP);
    assert id[f..f + |SEP|] == SEP;
    assert id == id[..f] + id[f..f + |SEP|] + id[f + |SEP|..];
  }

  lemma CutBack(c: string, rest: string)
    ensures (c + SEP + rest)[..|c|] == c && (c + SEP + rest)[|c| + |SEP|..] == rest
  {
  }

  lemma SplitAtFirst(c: string, rest: string)
    requires !Contains(c, SEP)
    ensures Find(c + SEP + rest, SEP) == |c|
    ensures SplitPayloadId(c + SEP + rest) == Success(Parts(c, SplitRest(rest).0, SplitRest(rest).1))
  {
    FirstSeparator(c, rest);
    CutBack(c, rest);
  }

  lemma KeyAtFirst(c: string, rest: string)
    requires !Contains(c, SEP)
    ensures PayloadIdToKey(c + SEP + rest) == Success(Key(c + "_" + SplitRest(rest).0, SplitRest(rest).1))
  {
    SplitAtFirst(c, rest);
  }

  lemma JoinCancels(c: string, a: string, b: string)
    requires c + "_" + a == c + "_" + b
    ensures a == b
  {
    assert (c + "_" + a)[|c| + 1..] == a && (c + "_" + b)[|c| + 1..] == b;
  }

  lemma SplitsEarly(id: string, k: string)
    requires PayloadIdToKey(id).Success? && PayloadIdToKey(id).value.collectionsWorkflow == k
    ensures 0 <= Find(id, SEP) < |k| && k[Find(id, SEP)] == '_'
  {
    assert k == id[..Find(id, SEP)] + "_" + SplitRest(id[Find(id, SEP) + |SEP|..]).0;
  }

  lemma SeparatorInCollectionsIsLost(c: string, w: string, items: string)
    requires Contains(c, SEP)
    ensures PayloadIdToKey(c + SEP + w + "/" + items) != Success(Key(c + "_" + w, items))
  {
    var rest := w + "/" + items;
    var id, k := c + SEP + rest, c + "_" + w;
    assert c + SEP + w + "/" + items == id;
    FirstSeparator(c, rest);
    assert k[Find(id, SEP)] == '/';
    if PayloadIdToKey(id) == Success(Key(k, items)) {
      SplitsEarly(id, k);
    }
  }

  /** Table key to payload id and back. */
  lemma KeyRoundTripIff(key: Key)
    ensures KeyComesBack(key) <==> GoodKey(key)
  {
    if '_' in key.collectionsWorkflow {
      var (c, w) := SplitCollectionsWorkflow(key.collectionsWorkflow).value;
      assert key.collectionsWorkflow == c + "_" + w;
      assert c + SEP + w + "/" + key.itemids == c + SEP + (w + "/" + key.itemids);
      if Contains(c, SEP) {
        SeparatorInCollectionsIsLost(c, w, key.itemids);
      } else {
        SplitAtFirst(c, w + "/" + key.itemids);
        SplitRestIff(w, key.itemids);
        var (w1, items1) := SplitRest(w + "/" + key.itemids);
        if c + "_" + w1 == c + "_" + w {
          JoinCancels(c, w1, w);
        }
      }
    }
  }

  /** One separator is enough, a slash follows it, and there is no underscore in between. */
  ghost predicate GoodRest(rest: string) {
    !Contains(rest, SEP) && '/' in rest && '_' !in rest[..First(rest, '/')]
  }

  /** Payload ids that come back: one separator, a slash after it, and no underscore in the workflow. */
  ghost predicate GoodId(id: string) {
    Find(id, SEP) != -1 && GoodRest(id[Find(id, SEP) + |SEP|..])
  }

  predicate IdComesBack(id: string) {
    match PayloadIdToKey(id)
    case Failure(_) => false
    case Success(key) => KeyToPayloadId(key) == Success(id)
  }

  /** An underscore in the workflow moves the split of the stored key. */
  lemma UnderscoreInWorkflowIsLost(c: string, w: string, items: string, rest: string)
    requires '_' in w
    ensures KeyToPayloadId(Key(c + "_" + w, items)) != Success(c + SEP + rest)
  {
    var start := c + "_" + w[..Last(w, '_')];
    SplitInWorkflow(c, w);
    var back := start + SEP + w[Last(w, '_') + 1..] + "/" + items;
    assert back[|c|] == '_' && (c + SEP + rest)[|c|] == '/';
  }

  lemma PlainWorkflowKey(c: string, w: string, items: string)
    requires '_' !in w
    ensures KeyToPayloadId(Key(c + "_" + w, items)) == Success(c + SEP + (w + "/" + items))
  {
    SplitAtJoint(c, w);
    assert c + SEP + w + "/" + items == c + SEP + (w + "/" + items);
  }

  lemma SeparatorCancels(c: string, a: string, b: string)
    ensures c + SEP + a == c + SEP + b <==> a == b
  {
    if c + SEP + a == c + SEP + b {
      CutBack(c, a);
      CutBack(c, b);
    }
  }

  lemma CutIdComesBackIff(c: string, rest: string)
    requires !Contains(c, SEP)
    ensures IdComesBack(c + SEP + rest) <==> GoodRest(rest)
  {
    var (w, items) := SplitRest(rest);
    KeyAtFirst(c, rest);
    SplitRestIsLosslessIff(rest);
    if '_' in w {
      UnderscoreInWorkflowIsLost(c, w, items, rest);
    } else {
      PlainWorkflowKey(c, w, items);
      SeparatorCancels(c, w + "/" + items, rest);
    }
  }

  /** Payload id to table key and back. */
  lemma IdRoundTripIff(id: string)
    ensures IdComesBack(id) <==> GoodId(id)
  {
    if Find(id, SEP) != -1 {
      var c, rest := Cut(id);
      CutIdComesBackIff(c, rest);
    }
  }

  /** An underscore never lies inside a separator. */
  lemma NoSeparatorAcrossUnderscore(c: string, w: string)
    requires !Contains(c, SEP) && '/' !in w
    ensures !Contains(c + "_" + w, SEP)
  {
    forall i ensures !OccursAt(c + "_" + w, SEP, i) {
      if OccursAt(c + "_" + w, SEP, i) { SeparatorBeforeUnderscore(c, w, i); }
    }
  }

  lemma SeparatorBeforeUnderscore(c: string, w: string, i: int)
    requires '/' !in w && OccursAt(c + "_" + w, SEP, i)
    ensures OccursAt(c, SEP, i)
  {
    var s := c + "_" + w;
    assert forall k {:trigger s[k]} | i <= k < i + |SEP| :: s[i..i + |SEP|][k - i] == s[k];
    assert forall n | 0 <= n < |SEP| :: SEP[n] != '_';
    assert s[i] == '/' && s[|c|] == '_';
    assert forall k {:trigger s[k]} | |c| < k < |s| :: s[k] == w[k - |c| - 1];
    assert s[i..i + |SEP|] == c[i..i + |SEP|];
  }

  lemma UpToSeparatorHasNone(s: string)
    ensures !Contains(UpToSeparator(s), SEP)
  {
    if Contains(s, SEP) {
      NothingBeforeFirst(s, SEP);
    }
  }

  lemma SplitRestHasNoSeparator(rest: string)
    ensures var (w, items) := SplitRest(rest); '/' !in w && !Contains("/" + items, SEP)
  {
    var middle := UpToSeparator(rest);
    UpToSeparatorHasNone(rest);
    AtFirstSlashParts(middle);
    var (w, items) := AtFirstSlash(middle);
    if '/' in middle {
      assert middle == w + ("/" + items);
      OccursInside(w, "/" + items, SEP);
    }
  }

  /** Exactly the keys that come back can be written by the table's own methods. */
  lemma WrittenKeyIff(key: Key)
    ensures (exists id :: PayloadIdToKey(id) == Success(key)) <==> GoodKey(key)
  {
    KeyRoundTripIff(key);
    if id :| PayloadIdToKey(id) == Success(key) {
      WrittenKeyIsGood(id);
    }
  }

  /** Splitting a stored key may move part of the workflow to the collections, never a separator or a slash. */
  lemma SplitOfJoin(c: string, w: string)
    requires !Contains(c, SEP) && '/' !in w
    ensures var split := SplitCollectionsWorkflow(c + "_" + w);
            split.Success? && !Contains(split.value.0, SEP) && '/' !in split.value.1
  {
    if '_' in w {
      SplitInWorkflow(c, w);
      NoSeparatorAcrossUnderscore(c, w[..Last(w, '_')]);
      NotInRest(w, '/', Last(w, '_') + 1);
    } else {
      SplitAtJoint(c, w);
    }
  }

  lemma SplitAtJoint(c: string, w: string)
    requires '_' !in w
    ensures SplitCollectionsWorkflow(c + "_" + w) == Success((c, w))
  {
    var cw := c + "_" + w;
    assert cw[|c| + 1..] == w && cw[..|c|] == c;
    LastIs(cw, '_', |c|);
  }

  lemma SplitInWorkflow(c: string, w: string)
    requires '_' in w
    ensures SplitCollectionsWorkflow(c + "_" + w) == Success((c + "_" + w[..Last(w, '_')], w[Last(w, '_') + 1..]))
  {
    LastInTail(c + "_", w, '_');
    SlicesOfConcat(c + "_", w, Last(w, '_'));
  }

  lemma SlicesOfConcat(a: string, b: string, k: nat)
    requires k < |b|
    ensures (a + b)[..|a| + k] == a + b[..k] && (a + b)[|a| + k + 1..] == b[k + 1..]
  {
  }

  lemma WrittenKeyIsGood(id: string)
    requires PayloadIdToKey(id).Success?
    ensures GoodKey(PayloadIdToKey(id).value)
  {
    var f := Find(id, SEP);
    var c := id[..f];
    SplitRestHasNoSeparator(id[f + |SEP|..]);
    NothingBeforeFirst(id, SEP);
    SplitOfJoin(c, SplitRest(id[f + |SEP|..]).0);
  }

  /** A key that was written has an id of its own, and that id leads back to it. */
  lemma WrittenKeyComesBack(id: string)
    requires PayloadIdToKey(id).Success?
    ensures var key := PayloadIdToKey(id).value;
            KeyToPayloadId(key).Success? && PayloadIdToKey(KeyToPayloadId(key).value) == Success(key)
  {
    WrittenKeyIsGood(id);
    KeyRoundTripIff(PayloadIdToKey(id).value);
  }

  /** Two ids that come back never share a table row. */
  lemma GoodIdsDoNotCollide(a: string, b: string)
    requires GoodId(a) && GoodId(b) && PayloadIdToKey(a) == PayloadIdToKey(b)
    ensures a == b
  {
    IdRoundTripIff(a);
    IdRoundTripIff(b);
  }

  /** An id that does not come back shares its row with one that does. */
  lemma LostIdSharesRow(id: string)
    requires PayloadIdToKey(id).Success? && !GoodId(id)
    ensures var key := PayloadIdToKey(id).value;
            && KeyToPayloadId(key).Success? && KeyToPayloadId(key).value != id && GoodId(KeyToPayloadId(key).value)
            && PayloadIdToKey(KeyToPayloadId(key).value) == Success(key)
  {
    WrittenKeyComesBack(id);
    IdRoundTripIff(id);
    IdRoundTripIff(KeyToPayloadId(PayloadIdToKey(id).value).value);
  }

  /** A part of the one workflow, up to an underscore, is the end of the other's collections. */
  ghost predicate Shifted(a: Parts, b: Parts) {
    exists x :: a.collections == b.collections + "_" + x && b.workflow == x + "_" + a.workflow
  }

  lemma LongerJoint(c1: string, w1: string, c2: string, w2: string)
    requires c1 + "_" + w1 == c2 + "_" + w2 && |c1| > |c2|
    ensures var x := c1[|c2| + 1..]; c1 == c2 + "_" + x && w2 == x + "_" + w1
  {
    var joint := c1 + "_" + w1;
    assert joint[..|c2|] == c2 == c1[..|c2|] && joint[|c2|] == '_' == c1[|c2|];
    assert c1 == c1[..|c2|] + [c1[|c2|]] + c1[|c2| + 1..];
    assert joint[|c2| + 1..] == w2;
    assert joint[|c2| + 1..] == c1[|c2| + 1..] + "_" + w1;
  }

  lemma ShiftedJoint(c: string, x: string, w: string)
    ensures (c + "_" + x) + "_" + w == c + "_" + (x + "_" + w)
  {
  }

  function JointOf(p: Parts): string {
    JoinCollectionsWorkflow(p.collections, p.workflow)
  }

  lemma JointsAgreeIff(a: Parts, b: Parts)
    ensures JointOf(a) == JointOf(b) <==>
            (a.collections == b.collections && a.workflow == b.workflow) || Shifted(a, b) || Shifted(b, a)
  {
    var c1, w1, c2, w2 := a.collections, a.workflow, b.collections, b.workflow;
    if c1 + "_" + w1 == c2 + "_" + w2 {
      if |c1| == |c2| {
        assert (c1 + "_" + w1)[..|c1|] == c1 && (c2 + "_" + w2)[..|c1|] == c2;
        JoinCancels(c1, w1, w2);
      } else if |c1| > |c2| {
        LongerJoint(c1, w1, c2, w2);
      } else {
        LongerJoint(c2, w2, c1, w1);
      }
    }
    if x :| c1 == c2 + "_" + x && w2 == x + "_" + w1 {
      ShiftedJoint(c2, x, w1);
    }
    if x :| c2 == c1 + "_" + x && w1 == x + "_" + w2 {
      ShiftedJoint(c1, x, w2);
    }
  }

  /**
   Which ids share a row: those with the same item ids whose collections and workflow are the same, or differ by a part
   that has moved across the underscore between them.
   */
  lemma SameRowIff(a: string, b: string)
    requires SplitPayloadId(a).Success? && SplitPayloadId(b).Success?
    ensures PayloadIdToKey(a) == PayloadIdToKey(b) <==>
            var p, q := SplitPayloadId(a).value, SplitPayloadId(b).value;
            p.itemids == q.itemids &&
            ((p.collections == q.collections && p.workflow == q.workflow) || Shifted(p, q) || Shifted(q, p))
  {
    JointsAgreeIff(SplitPayloadId(a).value, SplitPayloadId(b).value);
  }

  lemma OccursEarlier(s: string, more: string, pat: string, i: int, f: nat)
    requires OccursAt(s + more, pat, i) && i <= f <= |s| - |pat|
    ensures OccursAt(s, pat, i)
  {
    assert (s + more)[i..i + |pat|] == s[i..i + |pat|];
  }

  lemma UpToSeparatorStops(s: string, tail: string)
    ensures UpToSeparator(s + SEP + tail) == UpToSeparator(s)
  {
    var more := SEP + tail;
    assert s + SEP + tail == s + more;
    if Contains(s, SEP) {
      var f := Find(s, SEP);
      OccursInside(s, more, SEP);
      OccursEarlier(s, more, SEP, Find(s + more, SEP), f);
      assert (s + more)[..f] == s[..f];
    } else {
      FirstSeparator(s, tail);
      assert (s + more)[..|s|] == s;
    }
  }

  lemma CutSecondSeparatorCuts(c: string, rest: string, tail: string)
    requires !Contains(c, SEP)
    ensures PayloadIdToKey(c + SEP + (rest + SEP + tail)) == PayloadIdToKey(c + SEP + rest)
  {
    UpToSeparatorStops(rest, tail);
    KeyAtFirst(c, rest);
    KeyAtFirst(c, rest + SEP + tail);
  }

  /** Nothing that is appended behind a further separator reaches the row, so every row has many ids. */
  lemma SecondSeparatorCuts(id: string, tail: string)
    requires PayloadIdToKey(id).Success?
    ensures PayloadIdToKey(id + SEP + tail) == PayloadIdToKey(id)
  {
    var c, rest := Cut(id);
    CutSecondSeparatorCuts(c, rest, tail);
    Regroup(c, SEP, rest, SEP, tail);
  }

  /** Moving a part of the workflow to the collections makes another id of the same row. */
  lemma UnderscoreMoves(c: string, x: string, w: string, items: string)
    requires !Contains(c, SEP) && '/' !in x && '/' !in w && !Contains("/" + items, SEP)
    ensures PayloadIdToKey(c + SEP + (x + "_" + w + "/" + items))
         == PayloadIdToKey((c + "_" + x) + SEP + (w + "/" + items))
  {
    NoSeparatorAcrossUnderscore(c, x);
    SplitRestIff(x + "_" + w, items);
    SplitRestIff(w, items);
    KeyAtFirst(c, x + "_" + w + "/" + items);
    KeyAtFirst(c + "_" + x, w + "/" + items);
    ShiftedJoint(c, x, w);
  }

  lemma CutAtUnderscore(c: string, w: string)
    requires '_' !in w
    ensures SplitCollectionsWorkflow(c + "_" + w) == Success((c, w))
  {
    LastIs(c + "_" + w, '_', |c|);
    assert (c + "_" + w)[..|c|] == c && (c + "_" + w)[|c| + 1..] == w;
  }

  /** What is stored where, spelled out. */
  lemma KeyOfId(c: string, w: string, items: string)
    requires !Contains(c, "/workflow-") && '/' !in w && !Contains("/" + items, "/workflow-")
    ensures PayloadIdToKey(c + "/workflow-" + (w + "/" + items)) == Success(Key(c + "_" + w, items))
    ensures '_' !in w ==> KeyToPayloadId(Key(c + "_" + w, items)) == Success(c + "/workflow-" + w + "/" + items)
  {
    KeyAtFirst(c, w + "/" + items);
    SplitRestIff(w, items);
    if '_' !in w {
      CutAtUnderscore(c, w);
    }
  }
}
