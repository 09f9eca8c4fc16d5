/** The string operations of the code: first and last index of a character, substring search, ordering. */
module Strings {

  /** The first `c` at or after `i`: -1 when there is none. */
  function FirstFrom(s: string, c: char, i: nat): (j: int)
    requires i <= |s|
    ensures j == -1 || i <= j < |s|
    ensures j == -1 ==> forall k | i <= k < |s| :: s[k] != c
    ensures j >= 0 ==> s[j] == c && forall k | i <= k < j :: s[k] != c
    decreases |s| - i
  {
    if i == |s| then -1 else if s[i] == c then i else FirstFrom(s, c, i + 1)
  }

  /** `s.find(c)` for one character: -1 when it does not occur. */
  function First(s: string, c: char): (i: int)
    ensures -1 <= i < |s|
    ensures i == -1 <==> c !in s
    ensures i >= 0 ==> s[i] == c && forall k | 0 <= k < i :: s[k] != c
  {
    FirstFrom(s, c, 0)
  }

  /** The last `c` before `n`: -1 when there is none. */
  function LastBefore(s: string, c: char, n: nat): (j: int)
    requires n <= |s|
    ensures -1 <= j < n
    ensures j == -1 ==> forall k | 0 <= k < n :: s[k] != c
    ensures j >= 0 ==> s[j] == c && forall k | j < k < n :: s[k] != c
  {
    if n == 0 then -1 else if s[n - 1] == c then n - 1 else LastBefore(s, c, n - 1)
  }

  /** `s.rfind(c)` for one character: -1 when it does not occur. */
  function Last(s: string, c: char): (i: int)
    ensures -1 <= i < |s|
    ensures i == -1 <==> c !in s
    ensures i >= 0 ==> s[i] == c && forall k | i < k < |s| :: s[k] != c
  {
    LastBefore(s, c, |s|)
  }

  /** The only place where a character can be the first of its kind. */
  lemma FirstIs(s: string, c: char, i: nat)
    requires i < |s| && s[i] == c && forall k | 0 <= k < i :: s[k] != c
    ensures First(s, c) == i
  {
    var j := First(s, c);
    assert j >= 0;
  }

  lemma LastIs(s: string, c: char, i: nat)
    requires i < |s| && s[i] == c && forall k | i < k < |s| :: s[k] != c
    ensures Last(s, c) == i
  {
    var j := Last(s, c);
    assert j >= 0;
  }

  /** A last occurrence does not depend on what stands before it. */
  lemma LastInTail(a: string, s: string, c: char)
    requires c in s
    ensures Last(a + s, c) == |a| + Last(s, c)
  {
    var i := Last(s, c);
    assert (a + s)[|a| + i] == c;
    LastIs(a + s, c, |a| + i);
  }

  lemma Regroup(a: string, p: string, b: string, q: string, c: string)
    ensures a + p + b + q + c == a + p + (b + q + c) && b + q + c == b + (q + c)
  {
  }

  lemma CutAt(s: string, i: nat)
    requires i < |s|
    ensures s == s[..i] + [s[i]] + s[i + 1..]
  {
  }

  lemma NotInRest(s: string, c: char, i: nat)
    requires i <= |s| && c !in s
    ensures c !in s[i..]
  {
    assert forall k | 0 <= k < |s[i..]| :: s[i..][k] == s[i + k];
  }

  /** A text shorter than the pattern. */
  lemma TooShort(s: string, pat: string)
    requires |s| < |pat|
    ensures !Contains(s, pat)
  {
  }

  predicate OccursAt(s: string, pat: string, i: int) {
    0 <= i <= |s| - |pat| && s[i..i + |pat|] == pat
  }

  ghost predicate Contains(s: string, pat: string) {
    exists i :: OccursAt(s, pat, i)
  }

  /** The first occurrence at or after `i`: -1 when there is none. */
  function FindFrom(s: string, pat: string, i: nat): (j: int)
    ensures -1 <= j
    ensures j == -1 ==> forall k | i <= k :: !OccursAt(s, pat, k)
    ensures j >= 0 ==> i <= j && OccursAt(s, pat, j) && forall k | i <= k < j :: !OccursAt(s, pat, k)
    decreases |s| - i
  {
    if i + |pat| > |s| then -1 else if OccursAt(s, pat, i) then i else FindFrom(s, pat, i + 1)
  }

  /** `s.find(pat)`: the first occurrence, -1 when there is none. */
  function Find(s: string, pat: string): (i: int)
    ensures -1 <= i
    ensures i == -1 <==> !Contains(s, pat)
    ensures i >= 0 ==> OccursAt(s, pat, i) && forall j | OccursAt(s, pat, j) :: i <= j
  {
    FindFrom(s, pat, 0)
  }

  /** An occurrence in a prefix or in a suffix is one in the whole. */
  lemma OccursInside(a: string, b: string, pat: string)
    ensures forall i :: OccursAt(a, pat, i) ==> OccursAt(a + b, pat, i)
    ensures forall i :: OccursAt(b, pat, i) <==> 0 <= i && OccursAt(a + b, pat, |a| + i)
  {
    forall i | OccursAt(a, pat, i) ensures OccursAt(a + b, pat, i) {
      assert (a + b)[i..i + |pat|] == a[i..i + |pat|];
    }
    forall i ensures OccursAt(b, pat, i) <==> 0 <= i && OccursAt(a + b, pat, |a| + i) {
      if 0 <= i <= |b| - |pat| {
        assert (a + b)[|a| + i..|a| + i + |pat|] == b[i..i + |pat|];
      }
    }
  }

  /** Code-point order, the order DynamoDB gives to string keys. */
  predicate Leq(a: string, b: string) {
    a == [] || (b != [] && (a[0] < b[0] || (a[0] == b[0] && Leq(a[1..], b[1..]))))
  }

  lemma {:induction false} CommonPrefixCancels(p: string, a: string, b: string)
    ensures Leq(p + a, p + b) <==> Leq(a, b)
  {
    if p == [] {
      assert p + a == a && p + b == b;
    } else {
      assert (p + a)[1..] == p[1..] + a && (p + b)[1..] == p[1..] + b;
      CommonPrefixCancels(p[1..], a, b);
    }
  }

  /** The texts agree up to `i`, and there `a` has the smaller character. */
  predicate FirstDifference(a: string, b: string, i: int) {
    0 <= i < |a| && i < |b| && a[..i] == b[..i] && a[i] < b[i]
  }

  /** The order of code points in its own words: a prefix, or a smaller character where the two first differ. */
  ghost predicate InOrder(a: string, b: string) {
    a <= b || exists i :: FirstDifference(a, b, i)
  }

  lemma ShiftDifference(x: char, a: string, b: string, i: int)
    ensures FirstDifference([x] + a, [x] + b, i) <==> FirstDifference(a, b, i - 1)
  {
    if 0 < i <= |a| && i <= |b| {
      assert ([x] + a)[..i] == [x] + a[..i - 1] && ([x] + b)[..i] == [x] + b[..i - 1];
      assert ([x] + a)[..i][1..] == a[..i - 1] && ([x] + b)[..i][1..] == b[..i - 1];
    }
  }

  lemma InOrderStep(x: char, a: string, b: string)
    ensures InOrder([x] + a, [x] + b) <==> InOrder(a, b)
  {
    assert [x] + a <= [x] + b <==> a <= b by {
      assert ([x] + a)[1..] == a && ([x] + b)[1..] == b;
    }
    if i :| FirstDifference([x] + a, [x] + b, i) {
      ShiftDifference(x, a, b, i);
    }
    if i :| FirstDifference(a, b, i) {
      ShiftDifference(x, a, b, i + 1);
    }
  }

  lemma DifferentHeads(a: string, b: string)
    requires a != [] && b != [] && a[0] != b[0]
    ensures InOrder(a, b) <==> a[0] < b[0]
  {
    if a[0] < b[0] {
      assert FirstDifference(a, b, 0);
    }
    if i :| FirstDifference(a, b, i) {
      assert i > 0 ==> a[..i][0] == b[..i][0];
    }
  }

  lemma {:induction false} LeqIff(a: string, b: string)
    ensures Leq(a, b) <==> InOrder(a, b)
  {
    if a != [] && b != [] {
      if a[0] == b[0] {
        assert a == [a[0]] + a[1..] && b == [b[0]] + b[1..];
        InOrderStep(a[0], a[1..], b[1..]);
        LeqIff(a[1..], b[1..]);
      } else {
        DifferentHeads(a, b);
      }
    }
  }

  /** Behind a common beginning, the first differing characters decide. */
  lemma {:induction false} InOrderAt(p: string, x: char, a: string, y: char, b: string)
    requires x != y
    ensures InOrder(p + [x] + a, p + [y] + b) <==> x < y
  {
    if p == [] {
      assert p + [x] + a == [x] + a && p + [y] + b == [y] + b;
      DifferentHeads([x] + a, [y] + b);
    } else {
      InOrderAt(p[1..], x, a, y, b);
      InOrderStep(p[0], p[1..] + [x] + a, p[1..] + [y] + b);
      assert p + [x] + a == [p[0]] + (p[1..] + [x] + a) && p + [y] + b == [p[0]] + (p[1..] + [y] + b);
    }
  }
}
