/** Workflow chaining: `next_payloads` hands a finished payload to the next entry of its process list, or its forks. */
module Chaining {
  import opened Wrappers

  datatype Feature = Feature(id: string, properties: map<string, string>)

  /** A chain filter is a predicate on features. */
  datatype Process = Process(workflow: string, chainFilter: Option<Feature -> bool>)

  datatype Entry = One(process: Process) | Fork(processes: seq<Process>)

  datatype Payload = Payload(id: Option<string>, features: seq<Feature>, process: seq<Entry>)

  datatype ChainError = KeyError

  function Heads(e: Entry): seq<Process> {
    match e
    case One(p) => [p]
    case Fork(ps) => ps
  }

  predicate Passes(h: Process, f: Feature) {
    h.chainFilter.Some? ==> h.chainFilter.value(f)
  }

  predicate PassesAll(path: seq<Process>, f: Feature) {
    forall i | 0 <= i < |path| :: Passes(path[i], f)
  }

  /** The features that pass every filter of a path, in order. */
  function Keep(features: seq<Feature>, path: seq<Process>): seq<Feature> {
    if features == [] then []
    else (if PassesAll(path, features[0]) then [features[0]] else []) + Keep(features[1..], path)
  }

  lemma {:induction false} KeepConcat(a: seq<Feature>, b: seq<Feature>, path: seq<Process>)
    ensures Keep(a + b, path) == Keep(a, path) + Keep(b, path)
  {
    if a == [] {
      assert a + b == b;
    } else {
      assert a == [a[0]] + a[1..] && a + b == [a[0]] + (a[1..] + b);
      KeepStep(a[0], a[1..], path);
      KeepStep(a[0], a[1..] + b, path);
      KeepConcat(a[1..], b, path);
    }
  }

  lemma {:induction false} KeepStep(f: Feature, rest: seq<Feature>, path: seq<Process>)
    ensures Keep([f] + rest, path) == (if PassesAll(path, f) then [f] else []) + Keep(rest, path)
  {
    assert ([f] + rest)[1..] == rest;
  }

  /** At every place of a list exactly the features stay that all chain filters of the path let through. */
  lemma {:induction false} KeepSelects(before: seq<Feature>, f: Feature, after: seq<Feature>, path: seq<Process>)
    ensures Keep([], path) == []
    ensures var stays := forall i | 0 <= i < |path| :: path[i].chainFilter.Some? ==> path[i].chainFilter.value(f);
            Keep(before + [f] + after, path) == Keep(before, path) + (if stays then [f] else []) + Keep(after, path)
  {
    KeepConcat(before + [f], after, path);
    KeepConcat(before, [f], path);
    assert [f] + [] == [f];
    KeepStep(f, [], path);
    assert PassesAll(path, f) <==>
           forall i | 0 <= i < |path| :: path[i].chainFilter.Some? ==> path[i].chainFilter.value(f) by {
      assert forall i | 0 <= i < |path| ::
               Passes(path[i], f) <==> (path[i].chainFilter.Some? ==> path[i].chainFilter.value(f));
    }
  }

  /** One fork arm: no id, the arm in front of what follows the next entry, its own filter applied. */
  function Step(p: Payload, h: Process): Payload
    requires |p.process| > 1
  {
    Payload(None, Keep(p.features, [h]), [One(h)] + p.process[2..])
  }

  function Steps(p: Payload, hs: seq<Process>): seq<Payload>
    requires |p.process| > 1
  {
    if hs == [] then [] else [Step(p, hs[0])] + Steps(p, hs[1..])
  }

  function Successors(p: Payload): seq<Payload> {
    if |p.process| <= 1 then [] else Steps(p, Heads(p.process[1]))
  }

  lemma {:induction false} StepsAppend(p: Payload, hs: seq<Process>, h: Process)
    requires |p.process| > 1
    ensures Steps(p, hs + [h]) == Steps(p, hs) + [Step(p, h)]
  {
    if hs == [] {
      assert [] + [h] == [h] && [h][1..] == [];
    } else {
      assert (hs + [h])[1..] == hs[1..] + [h];
      StepsAppend(p, hs[1..], h);
    }
  }

  lemma {:induction false} StepsAreSteps(p: Payload, hs: seq<Process>)
    requires |p.process| > 1
    ensures |Steps(p, hs)| == |hs| && forall i | 0 <= i < |hs| :: Steps(p, hs)[i] == Step(p, hs[i])
  {
    if hs != [] {
      StepsAreSteps(p, hs[1..]);
    }
  }

  lemma {:induction false} KeepWithoutFilter(features: seq<Feature>, h: Process)
    requires h.chainFilter.None?
    ensures Keep(features, [h]) == features
  {
    if features != [] {
      KeepWithoutFilter(features[1..], h);
      assert Passes([h][0], features[0]);
    }
  }

  /** The generator: each copy loses its id, which raises when there is none to lose. */
  method NextPayloads(p: Payload) returns (r: Result<seq<Payload>, ChainError>)
    ensures r == if p.id.None? && Successors(p) != [] then Failure(KeyError) else Success(Successors(p))
    ensures |p.process| <= 1 ==> r == Success([])
    ensures |p.process| > 1 ==>
              var heads := match p.process[1] case One(h) => [h] case Fork(hs) => hs;
              && (r.Failure? <==> p.id.None? && heads != [])
              && (r.Success? ==>
                    && |r.value| == |heads|
                    && forall i | 0 <= i < |heads| ::
                         r.value[i] == Payload(None, Keep(p.features, [heads[i]]), [One(heads[i])] + p.process[2..]))
  {
    if |p.process| > 1 {
      StepsAreSteps(p, Heads(p.process[1]));
    }
    if |p.process| <= 1 {
      return Success([]);
    }
    var nextProcesses := Heads(p.process[1]);
    var payloads: seq<Payload> := [];
    for i := 0 to |nextProcesses|
      invariant payloads == Steps(p, nextProcesses[..i])
      invariant i > 0 ==> p.id.Some?
    {
      var process := nextProcesses[i];
      if p.id.None? {
        return Failure(KeyError);
      }
      var copy := p.(id := None, process := [One(process)] + p.process[2..]);
      if process.chainFilter.Some? {
        copy := copy.(features := Keep(copy.features, [process]));
      } else {
        KeepWithoutFilter(p.features, process);
      }
      assert nextProcesses[..i + 1] == nextProcesses[..i] + [process];
      StepsAppend(p, nextProcesses[..i], process);
      payloads := payloads + [copy];
    }
    assert nextProcesses[..|nextProcesses|] == nextProcesses;
    r := Success(payloads);
  }

  /** All payloads `k` workflows further on, every workflow passing its features through. */
  function Unroll(p: Payload, k: nat): seq<Payload>
    decreases k, 0, 0
  {
    if k == 0 then [p] else UnrollAll(Successors(p), k - 1)
  }

  function UnrollAll(ps: seq<Payload>, k: nat): seq<Payload>
    decreases k, 1, |ps|
  {
    if ps == [] then [] else Unroll(ps[0], k) + UnrollAll(ps[1..], k)
  }

  /** All choices of one process from each of the first `k` entries. */
  function Paths(entries: seq<Entry>, k: nat): seq<seq<Process>> {
    if k == 0 then [[]] else if entries == [] then [] else Through(Heads(entries[0]), Paths(entries[1..], k - 1))
  }

  function Through(hs: seq<Process>, tails: seq<seq<Process>>): seq<seq<Process>> {
    if hs == [] then [] else Prefixed(hs[0], tails) + Through(hs[1..], tails)
  }

  function Prefixed(h: Process, tails: seq<seq<Process>>): seq<seq<Process>> {
    if tails == [] then [] else [[h] + tails[0]] + Prefixed(h, tails[1..])
  }

  /** Where a path leads, in one step: the last choice in front, the features that pass all filters on the way. */
  function Follow(p: Payload, path: seq<Process>): Payload
    requires |path| < |p.process| || path == []
  {
    if path == [] then p
    else Payload(None, Keep(p.features, path), [One(path[|path| - 1])] + p.process[|path| + 1..])
  }

  predicate Followable(p: Payload, paths: seq<seq<Process>>) {
    forall i | 0 <= i < |paths| :: |paths[i]| < |p.process| || paths[i] == []
  }

  function FollowAll(p: Payload, paths: seq<seq<Process>>): seq<Payload>
    requires Followable(p, paths)
  {
    if paths == [] then [] else [Follow(p, paths[0])] + FollowAll(p, paths[1..])
  }

  function Product(entries: seq<Entry>, k: nat): nat {
    if k == 0 then 1 else if entries == [] then 0 else |Heads(entries[0])| * Product(entries[1..], k - 1)
  }

  lemma {:induction false} KeepTwice(features: seq<Feature>, h: Process, path: seq<Process>)
    ensures Keep(Keep(features, [h]), path) == Keep(features, [h] + path)
  {
    if features != [] {
      KeepTwice(features[1..], h, path);
      PassesStep(h, path, features[0]);
      var rest := Keep(features[1..], [h]);
      if Passes(h, features[0]) {
        assert Keep(features, [h]) == [features[0]] + rest;
        assert ([features[0]] + rest)[1..] == rest;
      } else {
        assert Keep(features, [h]) == [] + rest == rest;
        assert Keep(features, [h] + path) == [] + Keep(features[1..], [h] + path);
      }
    }
  }

  lemma PassesStep(h: Process, path: seq<Process>, f: Feature)
    ensures PassesAll([h] + path, f) <==> Passes(h, f) && PassesAll(path, f)
    ensures PassesAll([h], f) <==> Passes(h, f)
  {
    assert [h][0] == h && ([h] + path)[0] == h;
    assert forall i | 0 <= i < |path| :: ([h] + path)[i + 1] == path[i];
    if Passes(h, f) && PassesAll(path, f) {
      forall i | 0 <= i < |path| + 1 ensures Passes(([h] + path)[i], f) {
        if i > 0 { assert ([h] + path)[i] == path[i - 1]; }
      }
    }
  }

  /** Following a path arm by arm. */
  lemma FollowStep(p: Payload, h: Process, path: seq<Process>)
    requires |path| + 1 < |p.process|
    ensures Follow(Step(p, h), path) == Follow(p, [h] + path)
  {
    if path == [] {
      assert [h] + path == [h];
    } else {
      KeepTwice(p.features, h, path);
      assert ([h] + path)[|path|] == path[|path| - 1];
      assert ([One(h)] + p.process[2..])[|path| + 1..] == p.process[|path| + 2..];
    }
  }

  predicate AllOfLength(paths: seq<seq<Process>>, k: nat) {
    forall i | 0 <= i < |paths| :: |paths[i]| == k
  }

  lemma {:induction false} PrefixedPaths(h: Process, tails: seq<seq<Process>>, k: nat)
    requires AllOfLength(tails, k)
    ensures AllOfLength(Prefixed(h, tails), k + 1) && |Prefixed(h, tails)| == |tails|
  {
    if tails != [] {
      PrefixedPaths(h, tails[1..], k);
    }
  }

  lemma {:induction false} ThroughPaths(hs: seq<Process>, tails: seq<seq<Process>>, k: nat)
    requires AllOfLength(tails, k)
    ensures AllOfLength(Through(hs, tails), k + 1) && |Through(hs, tails)| == |hs| * |tails|
  {
    if hs != [] {
      PrefixedPaths(hs[0], tails, k);
      ThroughPaths(hs[1..], tails, k);
      assert |hs| * |tails| == |tails| + |hs[1..]| * |tails|;
    }
  }

  /** There are as many paths as the product of the fork widths, none beyond the end or through an empty fork. */
  lemma {:induction false} PathsCount(entries: seq<Entry>, k: nat)
    ensures AllOfLength(Paths(entries, k), k) && |Paths(entries, k)| == Product(entries, k)
    decreases k
  {
    if k > 0 && entries != [] {
      PathsCount(entries[1..], k - 1);
      ThroughPaths(Heads(entries[0]), Paths(entries[1..], k - 1), k - 1);
    }
  }

  lemma {:induction false} NothingBeyondTheEnd(entries: seq<Entry>, k: nat)
    requires k > |entries|
    ensures Product(entries, k) == 0
    decreases k
  {
    if entries != [] {
      NothingBeyondTheEnd(entries[1..], k - 1);
    }
  }

  lemma {:induction false} FollowPrefixed(p: Payload, h: Process, tails: seq<seq<Process>>, k: nat)
    requires AllOfLength(tails, k) && (tails != [] ==> k + 1 < |p.process|) && |p.process| > 1
    requires AllOfLength(Prefixed(h, tails), k + 1)
    ensures FollowAll(Step(p, h), tails) == FollowAll(p, Prefixed(h, tails))
  {
    if tails != [] {
      FollowStep(p, h, tails[0]);
      PrefixedPaths(h, tails[1..], k);
      assert Prefixed(h, tails)[1..] == Prefixed(h, tails[1..]);
      FollowPrefixed(p, h, tails[1..], k);
    }
  }

  lemma {:induction false} FollowConcat(p: Payload, a: seq<seq<Process>>, b: seq<seq<Process>>)
    requires Followable(p, a) && Followable(p, b)
    ensures FollowAll(p, a + b) == FollowAll(p, a) + FollowAll(p, b)
  {
    if a == [] {
      assert a + b == b;
    } else {
      assert (a + b)[1..] == a[1..] + b;
      FollowConcat(p, a[1..], b);
    }
  }

  /** What still follows the workflow in front. */
  function Ahead(p: Payload): seq<Entry> {
    if p.process == [] then [] else p.process[1..]
  }

  lemma {:induction false} PathsAreFollowable(p: Payload, k: nat)
    ensures Followable(p, Paths(Ahead(p), k))
  {
    PathsCount(Ahead(p), k);
    if k > |Ahead(p)| {
      NothingBeyondTheEnd(Ahead(p), k);
    }
  }

  /**
   Unrolling the chain step by step gives exactly one payload per path of fork choices, in order, and each is the
   original with the path's last process in front and only the features that pass every filter on the path.
   */
  lemma {:induction false} UnrollFollowsPaths(p: Payload, k: nat)
    ensures Followable(p, Paths(Ahead(p), k))
    ensures Unroll(p, k) == FollowAll(p, Paths(Ahead(p), k))
    decreases k, 0, 0
  {
    PathsAreFollowable(p, k);
    if k == 0 {
      var paths: seq<seq<Process>> := [[]];
      assert paths[1..] == [];
    } else if |p.process| > 1 {
      UnrollSteps(p, Heads(p.process[1]), k - 1);
    }
  }

  lemma {:induction false} UnrollSteps(p: Payload, hs: seq<Process>, k: nat)
    requires |p.process| > 1
    ensures Followable(p, Through(hs, Paths(p.process[2..], k)))
    ensures UnrollAll(Steps(p, hs), k) == FollowAll(p, Through(hs, Paths(p.process[2..], k)))
    decreases k, 1, |hs|
  {
    var tails := Paths(p.process[2..], k);
    PathsCount(p.process[2..], k);
    ThroughPaths(hs, tails, k);
    if k > |p.process[2..]| {
      NothingBeyondTheEnd(p.process[2..], k);
    }
    if hs != [] {
      UnrollFollowsPaths(Step(p, hs[0]), k);
      assert Ahead(Step(p, hs[0])) == p.process[2..];
      PrefixedPaths(hs[0], tails, k);
      ThroughPaths(hs[1..], tails, k);
      FollowPrefixed(p, hs[0], tails, k);
      UnrollSteps(p, hs[1..], k);
      FollowConcat(p, Prefixed(hs[0], tails), Through(hs[1..], tails));
      assert Steps(p, hs)[1..] == Steps(p, hs[1..]);
    }
  }

  lemma {:induction false} FollowAllLength(p: Payload, paths: seq<seq<Process>>)
    requires Followable(p, paths)
    ensures |FollowAll(p, paths)| == |paths|
  {
    if paths != [] {
      FollowAllLength(p, paths[1..]);
    }
  }

  /** Chaining ends, and `k` workflows on there are as many payloads as the product of the fork widths. */
  lemma {:induction false} ChainingTerminatesAndCounts(p: Payload, k: nat)
    ensures |Unroll(p, k)| == Product(Ahead(p), k)
    ensures k >= |p.process| && k > 0 ==> Unroll(p, k) == []
  {
    UnrollFollowsPaths(p, k);
    PathsCount(Ahead(p), k);
    FollowAllLength(p, Paths(Ahead(p), k));
    if k > |Ahead(p)| {
      NothingBeyondTheEnd(Ahead(p), k);
    }
  }
}
