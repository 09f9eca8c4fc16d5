/** The check of payload ids in `CirrusPayload.validate`, against the split that makes the table key. */
module IdValidation {
  import opened Wrappers
  import opened Strings
  import opened PayloadIds

  /** What `.+` takes: it stops at a newline. */
  function FirstLine(s: string): string {
    if First(s, '\n') == -1 then s else s[..First(s, '\n')]
  }

  /** What the regex wants of the workflow and item ids: neither is empty. */
  predicate RestMatches(rest: string) {
    var j := First(rest, '/');
    j >= 1 && j + 1 < |rest| && rest[j + 1] != '\n'
  }

  /** The regex can end its collections group at `i`. */
  predicate MatchesAt(id: string, i: nat) {
    OccursAt(id, SEP, i) && i >= 1 && '\n' !in id[..i] && RestMatches(id[i + |SEP|..])
  }

  /** The greedy group ends at the last position that lets the rest match. */
  function LastMatch(id: string, i: nat): (r: int)
    ensures -1 <= r <= i
    ensures r >= 0 ==> MatchesAt(id, r)
    ensures forall k: nat | r < k <= i :: !MatchesAt(id, k)
  {
    if MatchesAt(id, i) then i else if i == 0 then -1 else LastMatch(id, i - 1)
  }

  function RegexRest(rest: string): (string, string)
    requires First(rest, '/') >= 0
  {
    var j := First(rest, '/');
    (rest[..j], FirstLine(rest[j + 1..]))
  }

  /** `PAYLOAD_ID_REGEX.match`, the check of `CirrusPayload.validate`. */
  function RegexParse(id: string): Option<Parts> {
    var i := LastMatch(id, |id|);
    if i == -1 then None
    else
      var (workflow, itemids) := RegexRest(id[i + |SEP|..]);
      Some(Parts(id[..i], workflow, itemids))
  }

  /** Separators do not overlap. */
  lemma SecondSeparator(id: string, i: int)
    requires OccursAt(id, SEP, i) && i != Find(id, SEP)
    ensures Find(id, SEP) >= 0 && Contains(id[Find(id, SEP) + |SEP|..], SEP)
  {
    var f := Find(id, SEP);
    SeparatorChars(id, f);
    SeparatorChars(id, i);
    var head, tail := id[..f + |SEP|], id[f + |SEP|..];
    assert id == head + tail;
    OccursInside(head, tail, SEP);
    assert OccursAt(tail, SEP, i - |head|);
  }

  lemma SameHeadSameTail(w: string, a: string, b: string)
    requires w + "/" + a == w + "/" + b
    ensures a == b
  {
    assert (w + "/" + a)[|w| + 1..] == a && (w + "/" + b)[|w| + 1..] == b;
  }

  lemma FirstLineIff(s: string)
    ensures FirstLine(s) == s <==> '\n' !in s
    ensures |FirstLine(s)| < |s| ==> s[|FirstLine(s)|] == '\n'
    ensures s != "" && s[0] != '\n' ==> FirstLine(s) != ""
  {
  }

  /** The text around its first slash. */
  lemma AroundSlash(rest: string) returns (w: string, t: string)
    requires '/' in rest
    ensures '/' !in w && rest == w + "/" + t && First(rest, '/') == |w|
    ensures w == rest[..First(rest, '/')] && t == rest[First(rest, '/') + 1..]
  {
    w, t := rest[..First(rest, '/')], rest[First(rest, '/') + 1..];
    CutAt(rest, First(rest, '/'));
  }

  lemma SlashInPrefix(w: string, t: string, n: nat)
    requires '/' !in w && |w| < n <= |w| + 1 + |t|
    ensures AtFirstSlash((w + "/" + t)[..n]) == (w, t[..n - |w| - 1])
  {
    var u := t[..n - |w| - 1];
    var middle := w + "/" + u;
    assert (w + "/" + t)[..n] == middle;
    FirstIs(middle, '/', |w|);
    assert middle[..|w|] == w && middle[|w| + 1..] == u;
  }

  /** What the split for the key makes of the item ids when a second separator cuts them. */
  lemma SplitRestIsShort(w: string, t: string)
    requires '/' !in w && Contains(w + "/" + t, SEP)
    ensures var items := SplitRest(w + "/" + t).1; |items| < |t| && (items == "" || t[|items|] == '/')
  {
    var rest := w + "/" + t;
    var s := Find(rest, SEP);
    assert rest == w + ("/" + t);
    SeparatorBelowSlash(w, "/" + t);
    SeparatorChars(rest, s);
    if s > |w| {
      SlashInPrefix(w, t, s);
      assert t[s - |w| - 1] == rest[s];
    } else {
      assert rest[..s] == w;
    }
  }

  lemma RestsAgreeIff(rest: string)
    requires RestMatches(rest)
    ensures SplitRest(rest) == RegexRest(rest) <==> !Contains(rest, SEP) && '\n' !in SplitRest(rest).1
  {
    var w, t := AroundSlash(rest);
    FirstLineIff(t);
    if Contains(rest, SEP) {
      SplitRestIsShort(w, t);
    } else {
      SplitRestIsLosslessIff(rest);
      SameHeadSameTail(w, SplitRest(rest).1, t);
    }
  }

  lemma {:induction false} ParsedAt(c: string, rest: string)
    requires LastMatch(c + SEP + rest, |c + SEP + rest|) == |c|
    ensures RestMatches(rest) && RegexParse(c + SEP + rest) == Some(Parts(c, RegexRest(rest).0, RegexRest(rest).1))
  {
    CutBack(c, rest);
    assert MatchesAt(c + SEP + rest, |c|);
  }

  /** A greedy match behind the first separator is at a second one. */
  lemma {:induction false} ParsedElsewhere(c: string, rest: string)
    requires !Contains(c, SEP) && RegexParse(c + SEP + rest).Some?
    requires LastMatch(c + SEP + rest, |c + SEP + rest|) != |c|
    ensures Contains(rest, SEP) && RegexParse(c + SEP + rest).value.collections != c
  {
    var id := c + SEP + rest;
    SplitAtFirst(c, rest);
    SecondSeparator(id, LastMatch(id, |id|));
    CutBack(c, rest);
  }

  lemma CutParsersAgreeIff(c: string, rest: string)
    requires !Contains(c, SEP) && RegexParse(c + SEP + rest).Some?
    ensures SplitPayloadId(c + SEP + rest) == Success(RegexParse(c + SEP + rest).value) <==>
            !Contains(rest, SEP) && '\n' !in SplitRest(rest).1
  {
    var id := c + SEP + rest;
    SplitAtFirst(c, rest);
    if LastMatch(id, |id|) == |c| {
      ParsedAt(c, rest);
      RestsAgreeIff(rest);
    } else {
      ParsedElsewhere(c, rest);
    }
  }

  /**
   The first-separator split of the table key and the greedy parse of validation give the same parts exactly on ids
   with one separator and no newline among the item ids.
   */
  lemma ParsersAgreeIff(id: string)
    requires RegexParse(id).Some?
    ensures Find(id, SEP) >= 0 && SplitPayloadId(id).Success?
    ensures SplitPayloadId(id) == Success(RegexParse(id).value) <==>
            !Contains(id[Find(id, SEP) + |SEP|..], SEP) && '\n' !in SplitPayloadId(id).value.itemids
  {
    assert OccursAt(id, SEP, LastMatch(id, |id|));
    var c, rest := Cut(id);
    SplitAtFirst(c, rest);
    CutParsersAgreeIff(c, rest);
  }

  lemma CutValidatedComesBackIff(c: string, rest: string)
    requires !Contains(c, SEP) && RegexParse(c + SEP + rest).Some?
    ensures IdComesBack(c + SEP + rest) <==>
            !Contains(rest, SEP) && '_' !in RegexParse(c + SEP + rest).value.workflow
  {
    var id := c + SEP + rest;
    CutIdComesBackIff(c, rest);
    if LastMatch(id, |id|) == |c| {
      ParsedAt(c, rest);
    } else {
      ParsedElsewhere(c, rest);
    }
  }

  /** A validated id survives the table exactly when it has one separator and no underscore in its workflow. */
  lemma ValidatedIdComesBackIff(id: string)
    requires RegexParse(id).Some?
    ensures Find(id, SEP) >= 0
    ensures IdComesBack(id) <==>
            !Contains(id[Find(id, SEP) + |SEP|..], SEP) && '_' !in RegexParse(id).value.workflow
  {
    assert OccursAt(id, SEP, LastMatch(id, |id|));
    var c, rest := Cut(id);
    CutValidatedComesBackIff(c, rest);
  }

  lemma RestMatching(c: string, rest: string)
    requires c != [] && '\n' !in c && RestMatches(rest)
    ensures RegexParse(c + SEP + rest).Some?
  {
    var id := c + SEP + rest;
    CutBack(c, rest);
    assert id[|c|..|c| + |SEP|] == SEP;
    assert MatchesAt(id, |c|);
  }

  lemma RestMatchesIff(w: string, items: string)
    requires '/' !in w
    ensures RestMatches(w + "/" + items) <==> w != "" && items != "" && items[0] != '\n'
  {
    FirstIs(w + "/" + items, '/', |w|);
  }

  lemma LongerRestMatches(rest: string, more: string)
    requires RestMatches(rest)
    ensures RestMatches(rest + more)
  {
    var w, t := AroundSlash(rest);
    assert rest + more == w + "/" + (t + more);
    RestMatchesIff(w, t);
    RestMatchesIff(w, t + more);
  }

  lemma AppendedValidates(c: string, rest: string, tail: string)
    requires c != [] && '\n' !in c && RestMatches(rest)
    ensures RegexParse(c + SEP + rest + SEP + tail).Some?
  {
    LongerRestMatches(rest, SEP + tail);
    RestMatching(c, rest + (SEP + tail));
    Regroup(c, SEP, rest, SEP, tail);
  }

  /** Every id that validates at its first separator shares its row with the validated ids that append a second one. */
  lemma ValidatedIdsCollide(c: string, rest: string, tail: string)
    requires c != [] && '\n' !in c && !Contains(c, SEP) && RestMatches(rest)
    ensures var a, b := c + SEP + rest, c + SEP + rest + SEP + tail;
            RegexParse(a).Some? && RegexParse(b).Some? && a != b && PayloadIdToKey(a) == PayloadIdToKey(b)
  {
    RestMatching(c, rest);
    AppendedValidates(c, rest, tail);
    AppendedSharesRow(c, rest, tail);
  }

  lemma AppendedSharesRow(c: string, rest: string, tail: string)
    requires !Contains(c, SEP)
    ensures var a, b := c + SEP + rest, c + SEP + rest + SEP + tail; a != b && PayloadIdToKey(a) == PayloadIdToKey(b)
  {
    var a := c + SEP + rest;
    KeyAtFirst(c, rest);
    SecondSeparatorCuts(a, tail);
    assert |a| < |a + SEP + tail|;
  }

  /** With one separator each, validated ids share a row when a part of the workflow has moved to the collections. */
  lemma ValidatedIdsCollideByUnderscore(c: string, x: string, w: string, items: string)
    requires c != [] && '\n' !in c && '\n' !in x && '/' !in x && w != [] && '/' !in w
    requires items != [] && items[0] != '\n' && !Contains(c, SEP) && !Contains("/" + items, SEP)
    ensures var a, b := c + SEP + (x + "_" + w + "/" + items), (c + "_" + x) + SEP + (w + "/" + items);
            RegexParse(a).Some? && RegexParse(b).Some? && a != b && PayloadIdToKey(a) == PayloadIdToKey(b)
  {
    var a, b := c + SEP + (x + "_" + w + "/" + items), (c + "_" + x) + SEP + (w + "/" + items);
    RestMatchesIff(x + "_" + w, items);
    RestMatchesIff(w, items);
    RestMatching(c, x + "_" + w + "/" + items);
    RestMatching(c + "_" + x, w + "/" + items);
    UnderscoreMoves(c, x, w, items);
    assert a[|c|] == '/' && b[|c|] == '_';
  }

  /** Concrete validated pairs: `a/workflow-w/x` with `a/workflow-w/x/workflow-y`. */
  lemma ValidatedIdsCanCollide() returns (a: string, b: string)
    ensures RegexParse(a).Some? && RegexParse(b).Some? && a != b && PayloadIdToKey(a) == PayloadIdToKey(b)
  {
    var c, rest := "a", "w/x";
    TooShort(c, SEP);
    FirstIs(rest, '/', 1);
    a, b := c + SEP + rest, c + SEP + rest + SEP + "y";
    ValidatedIdsCollide(c, rest, "y");
  }

  /** And `a/workflow-b_c/x` with `a_b/workflow-c/x`, both of which have one separator. */
  lemma OneSeparatorIdsCanCollide() returns (a: string, b: string)
    ensures RegexParse(a).Some? && RegexParse(b).Some? && a != b && PayloadIdToKey(a) == PayloadIdToKey(b)
    ensures a == "a" + SEP + ("b" + "_" + "c" + "/" + "x") && b == ("a" + "_" + "b") + SEP + ("c" + "/" + "x")
  {
    var c, x, w, items := "a", "b", "c", "x";
    TooShort(c, SEP);
    TooShort("/" + items, SEP);
    a, b := c + SEP + (x + "_" + w + "/" + items), (c + "_" + x) + SEP + (w + "/" + items);
    ValidatedIdsCollideByUnderscore(c, x, w, items);
  }

  /** What the regex makes of an id with one separator, spelled out. */
  lemma RegexReadsParts(c: string, w: string, items: string)
    requires c != "" && '\n' !in c && !Contains(c, "/workflow-") && w != "" && '/' !in w
    requires items != "" && '\n' !in items && !Contains("/" + items, "/workflow-")
    ensures RegexParse(c + "/workflow-" + (w + "/" + items)) == Some(Parts(c, w, items))
  {
    var rest := w + "/" + items;
    RestMatchesIff(w, items);
    RestMatching(c, rest);
    SplitAtFirst(c, rest);
    SplitRestIff(w, items);
    SplitRestIsLosslessIff(rest);
    CutParsersAgreeIff(c, rest);
  }
}
