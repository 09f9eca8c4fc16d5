/**
 What every run keeps, failure writes included: the execution list is an append-only log of the claims that won,
 and everything Step Functions ever began is in it with its input already uploaded.
 */
module ProtocolHistory {
  import opened Wrappers
  import opened Records
  import opened Protocol
  import opened ProtocolSafety

  predicate WinsClaim(s: Site, l: Label) {
    l.Claim? && InPhase(s, l.w, Planned) && ClaimAllowed(s.record)
  }

  function ClaimsWon(s: Site, ls: seq<Label>): nat
    decreases |ls|
  {
    if ls == [] then 0 else (if WinsClaim(s, ls[0]) then 1 else 0) + ClaimsWon(Next(s, ls[0]), ls[1..])
  }

  /** A name derived from a prefix of the list below it, for this payload. */
  ghost predicate DerivedBelow(s: Site, a: Arn, xs: seq<Arn>) {
    && a.name.payload == s.payload
    && a.name.history <= xs
    && (a.workflow == s.workflow || a.name.history == [])
  }

  ghost predicate WorkerInv(s: Site, x: Worker) {
    && x.seen <= Executions(s)
    && (x.phase.Planned? ==>
          if x.prev == Some(Claimed) then x.seen != [] && x.arn == Last(x.seen)
          else x.arn.name == Name(s.payload, x.seen) && (x.arn.workflow == s.workflow || x.seen == []))
    && (!x.phase.Planned? ==> x.arn in Executions(s))
    && (x.phase.Uploaded? || x.phase.Launched? ==> x.arn.name in s.uploads)
    && (x.phase.Launched? ==> x.arn in s.begun)
  }

  ghost predicate HistoryInv(s: Site) {
    && (forall w | w in s.workers :: WorkerInv(s, s.workers[w]))
    && (forall a | a in s.begun :: a in Executions(s) && a.name in s.uploads)
    && s.reported <= s.begun
    && (Claiming(s) ==> Executions(s) != [])
    && (s.record.Some? ==> (s.record.value.claimedAt.Some? <==> Executions(s) != []))
    && (forall i | 0 <= i < |Executions(s)| :: DerivedBelow(s, Executions(s)[i], Executions(s)[..i]))
  }

  /** A longer list, and more uploads and executions, leave a worker's facts in place. */
  lemma WorkerPersists(s: Site, t: Site, x: Worker)
    requires WorkerInv(s, x)
    requires t.payload == s.payload && t.workflow == s.workflow
    requires Executions(s) <= Executions(t) && s.uploads <= t.uploads && s.begun <= t.begun
    ensures WorkerInv(t, x)
  {
    assert forall a | a in Executions(s) :: a in Executions(t);
  }

  lemma ListGrows(s: Site, t: Site, a: Arn)
    requires forall i | 0 <= i < |Executions(s)| :: DerivedBelow(s, Executions(s)[i], Executions(s)[..i])
    requires t.payload == s.payload && t.workflow == s.workflow
    requires Executions(t) == Executions(s) + [a] && DerivedBelow(t, a, Executions(s))
    ensures forall i | 0 <= i < |Executions(t)| :: DerivedBelow(t, Executions(t)[i], Executions(t)[..i])
  {
    forall i | 0 <= i < |Executions(t)| ensures DerivedBelow(t, Executions(t)[i], Executions(t)[..i]) {
      assert Executions(t)[..i] == Executions(s)[..i];
    }
  }

  /** What a worker plans is derived from a prefix of the list. */
  lemma PlanIsDerived(s: Site, x: Worker)
    requires HistoryInv(s) && WorkerInv(s, x) && x.phase.Planned?
    ensures DerivedBelow(s, x.arn, Executions(s))
  {
    if x.prev == Some(Claimed) {
      var k := |x.seen| - 1;
      assert x.arn == Executions(s)[k] && DerivedBelow(s, Executions(s)[k], Executions(s)[..k]);
    }
  }

  lemma WinKeepsHistory(s: Site, l: Label)
    requires HistoryInv(s) && WinsClaim(s, l)
    ensures HistoryInv(Next(s, l)) && Executions(Next(s, l)) == Executions(s) + [s.workers[l.w].arn]
  {
    var t := Next(s, l);
    assert WorkerInv(s, s.workers[l.w]);
    PlanIsDerived(s, s.workers[l.w]);
    ListGrows(s, t, s.workers[l.w].arn);
    forall w | w in s.workers ensures WorkerInv(t, s.workers[w]) {
      WorkerPersists(s, t, s.workers[w]);
    }
  }

  /** A step that wins no claim: the list stays, and at most worker `w` is new or different. */
  lemma QuietKeepsHistory(s: Site, t: Site, w: WorkerId)
    requires HistoryInv(s)
    requires t.payload == s.payload && t.workflow == s.workflow && Executions(t) == Executions(s)
    requires s.uploads <= t.uploads && s.begun <= t.begun && t.reported <= t.begun
    requires forall v | v in t.workers && v != w :: v in s.workers && t.workers[v] == s.workers[v]
    requires w in t.workers ==> WorkerInv(t, t.workers[w])
    requires forall a | a in t.begun :: a in Executions(t) && a.name in t.uploads
    requires Claiming(t) ==> Executions(t) != []
    requires t.record.Some? ==> (t.record.value.claimedAt.Some? <==> Executions(t) != [])
    ensures HistoryInv(t)
  {
    forall i | 0 <= i < |Executions(t)| ensures DerivedBelow(t, Executions(t)[i], Executions(t)[..i]) {
      assert DerivedBelow(s, Executions(s)[i], Executions(s)[..i]);
    }
    forall v | v in t.workers ensures WorkerInv(t, t.workers[v]) {
      if v != w { WorkerPersists(s, t, s.workers[v]); }
    }
  }

  lemma QuietSnapshot(s: Site, w: WorkerId, replace: bool, workflow: string)
    requires HistoryInv(s)
    ensures var t := Next(s, Snapshot(w, replace, workflow)); HistoryInv(t) && Executions(t) == Executions(s)
  {
    var t := Next(s, Snapshot(w, replace, workflow));
    if t != s {
      QuietKeepsHistory(s, t, w);
    }
  }

  lemma QuietClaim(s: Site, w: WorkerId, now: string, acked: bool)
    requires HistoryInv(s) && !WinsClaim(s, Claim(w, now, acked))
    ensures var t := Next(s, Claim(w, now, acked)); HistoryInv(t) && Executions(t) == Executions(s)
  {
    var t := Next(s, Claim(w, now, acked));
    if t != s {
      assert WorkerInv(s, s.workers[w]);
      QuietKeepsHistory(s, t, w);
    }
  }

  lemma QuietUpload(s: Site, w: WorkerId)
    requires HistoryInv(s)
    ensures var t := Next(s, Upload(w)); HistoryInv(t) && Executions(t) == Executions(s)
  {
    var t := Next(s, Upload(w));
    if t != s {
      assert WorkerInv(s, s.workers[w]);
      QuietKeepsHistory(s, t, w);
    }
  }

  lemma QuietStart(s: Site, w: WorkerId, acked: bool)
    requires HistoryInv(s)
    ensures var t := Next(s, Start(w, acked)); HistoryInv(t) && Executions(t) == Executions(s)
  {
    var t := Next(s, Start(w, acked));
    if t != s {
      assert WorkerInv(s, s.workers[w]);
      QuietKeepsHistory(s, t, w);
    }
  }

  lemma QuietSetProcessing(s: Site, w: WorkerId, now: string, acked: bool)
    requires HistoryInv(s)
    ensures var t := Next(s, SetProcessing(w, now, acked)); HistoryInv(t) && Executions(t) == Executions(s)
  {
    var t := Next(s, SetProcessing(w, now, acked));
    if t != s {
      assert WorkerInv(s, s.workers[w]);
      QuietKeepsHistory(s, t, w);
    }
  }

  lemma QuietReport(s: Site, arn: Arn, outcome: Outcome, now: string)
    requires HistoryInv(s) && Active(s, arn)
    ensures var t := Next(s, Report(arn, outcome, now)); HistoryInv(t) && Executions(t) == Executions(s)
  {
    var t := Next(s, Report(arn, outcome, now));
    assert Executions(t) == Executions(s);
    forall v | v in s.workers ensures WorkerInv(t, s.workers[v]) {
      WorkerPersists(s, t, s.workers[v]);
    }
    if w :| w in t.workers {
      QuietKeepsHistory(s, t, w);
    } else {
      QuietKeepsHistory(s, t, 0);
    }
  }

  lemma OtherKeepsHistory(s: Site, l: Label)
    requires HistoryInv(s) && !WinsClaim(s, l)
    ensures HistoryInv(Next(s, l)) && Executions(Next(s, l)) == Executions(s)
  {
    match l
    case Snapshot(w, replace, workflow) => QuietSnapshot(s, w, replace, workflow);
    case Claim(w, now, acked) => QuietClaim(s, w, now, acked);
    case Upload(w) => QuietUpload(s, w);
    case Start(w, acked) => QuietStart(s, w, acked);
    case SetProcessing(w, now, acked) => QuietSetProcessing(s, w, now, acked);
    case FailWrite(w, msg, now) => QuietKeepsHistory(s, Next(s, l), w);
    case Crash(w) => QuietKeepsHistory(s, Next(s, l), w);
    case Report(arn, outcome, now) => if Active(s, arn) { QuietReport(s, arn, outcome, now); }
  }

  /** One step appends one entry if it wins a claim and nothing otherwise; nothing recorded is ever taken back. */
  lemma StepKeepsHistory(s: Site, l: Label)
    requires HistoryInv(s)
    ensures HistoryInv(Next(s, l))
    ensures Executions(s) <= Executions(Next(s, l))
    ensures |Executions(Next(s, l))| == |Executions(s)| + if WinsClaim(s, l) then 1 else 0
  {
    if WinsClaim(s, l) {
      WinKeepsHistory(s, l);
    } else {
      OtherKeepsHistory(s, l);
    }
  }

  lemma {:induction false} RunKeepsHistory(s: Site, ls: seq<Label>)
    requires HistoryInv(s)
    ensures HistoryInv(Exec(s, ls))
    ensures Executions(s) <= Executions(Exec(s, ls))
    ensures |Executions(Exec(s, ls))| == |Executions(s)| + ClaimsWon(s, ls)
    decreases |ls|
  {
    if ls != [] {
      StepKeepsHistory(s, ls[0]);
      RunKeepsHistory(Next(s, ls[0]), ls[1..]);
    }
  }

  lemma {:induction false} ElementsFit(xs: seq<Arn>, elements: set<Arn>)
    requires forall a | a in elements :: a in xs
    ensures |elements| <= |xs|
    decreases |xs|
  {
    if xs == [] {
      assert elements == {};
    } else {
      var rest := elements - {xs[0]};
      assert forall a | a in rest :: a in xs[1..];
      ElementsFit(xs[1..], rest);
      assert elements <= rest + {xs[0]};
      if xs[0] in elements { assert elements == rest + {xs[0]}; } else { assert elements == rest; }
    }
  }

  /**
   In every run the list is a log of the claims that won, each entry named after a prefix of the entries below it;
   whatever Step Functions began is in the log with its input uploaded; so begun runs never outnumber claims.
   */
  lemma {:induction false} ExecutionsLogTheClaims(payload: string, workflow: string, ls: seq<Label>)
    ensures var s := Exec(Init(payload, workflow), ls);
            && |Executions(s)| == ClaimsWon(Init(payload, workflow), ls)
            && (forall i | 0 <= i < |Executions(s)| ::
                  && Executions(s)[i].name.payload == payload
                  && Executions(s)[i].name.history <= Executions(s)[..i])
            && (forall a | a in s.begun :: a in Executions(s) && a.name in s.uploads)
            && |s.begun| <= ClaimsWon(Init(payload, workflow), ls)
  {
    var s := Exec(Init(payload, workflow), ls);
    RunKeepsHistory(Init(payload, workflow), ls);
    RunKeepsPlace(Init(payload, workflow), ls);
    forall i | 0 <= i < |Executions(s)|
      ensures Executions(s)[i].name.payload == payload && Executions(s)[i].name.history <= Executions(s)[..i] {
      assert DerivedBelow(s, Executions(s)[i], Executions(s)[..i]);
    }
    ElementsFit(Executions(s), s.begun);
  }

  lemma {:induction false} RunKeepsPlace(s: Site, ls: seq<Label>)
    ensures Exec(s, ls).payload == s.payload && Exec(s, ls).workflow == s.workflow
    decreases |ls|
  {
    if ls != [] {
      RunKeepsPlace(Next(s, ls[0]), ls[1..]);
    }
  }

  ghost predicate Grows(s: Site, t: Site) {
    && s.begun <= t.begun && s.reported <= t.reported && s.uploads <= t.uploads
    && (s.record.Some? ==> t.record.Some? && t.record.value.created == s.record.value.created)
  }

  lemma StepGrows(s: Site, l: Label)
    ensures Grows(s, Next(s, l))
  {
  }

  /** Going on from any point of a run only appends, and never moves the creation time. */
  lemma {:induction false} RunOnlyAppends(s: Site, ls: seq<Label>)
    requires HistoryInv(s)
    ensures Executions(s) <= Executions(Exec(s, ls))
    ensures Grows(s, Exec(s, ls))
    decreases |ls|
  {
    if ls != [] {
      StepKeepsHistory(s, ls[0]);
      StepGrows(s, ls[0]);
      RunOnlyAppends(Next(s, ls[0]), ls[1..]);
    }
  }

  /** Whatever happens between a lookup and the claim, the list a worker saw is a prefix of the current one. */
  lemma {:induction false} LookupsArePrefixes(payload: string, workflow: string, ls: seq<Label>, w: WorkerId)
    requires w in Exec(Init(payload, workflow), ls).workers
    ensures var s := Exec(Init(payload, workflow), ls); s.workers[w].seen <= Executions(s)
  {
    RunKeepsHistory(Init(payload, workflow), ls);
    assert WorkerInv(Exec(Init(payload, workflow), ls), Exec(Init(payload, workflow), ls).workers[w]);
  }

  /** With no claim since its lookup, a winning worker records a new execution unless it had found the row CLAIMED. */
  lemma ClaimIsFreshIff(s: Site, l: Label)
    requires HistoryInv(s) && WinsClaim(s, l) && s.workers[l.w].seen == Executions(s)
    ensures s.workers[l.w].arn !in Executions(s) <==> s.workers[l.w].prev != Some(Claimed)
  {
    assert WorkerInv(s, s.workers[l.w]);
    NotInItsHistory(s.workers[l.w].arn);
  }

  predicate NoDuplicates(xs: seq<Arn>) {
    forall i, j | 0 <= i < j < |xs| :: xs[i] != xs[j]
  }

  /** Every winning claim still sees the list it looked up. */
  predicate Uninterrupted(s: Site, ls: seq<Label>)
    decreases |ls|
  {
    ls != [] ==>
      && (WinsClaim(s, ls[0]) ==> s.workers[ls[0].w].seen == Executions(s))
      && Uninterrupted(Next(s, ls[0]), ls[1..])
  }

  /** Some winning claim was planned from a CLAIMED row that has closed since. */
  predicate ReclaimsClosed(s: Site, ls: seq<Label>)
    decreases |ls|
  {
    ls != [] &&
    ((WinsClaim(s, ls[0]) && s.workers[ls[0].w].prev == Some(Claimed)) || ReclaimsClosed(Next(s, ls[0]), ls[1..]))
  }

  lemma {:induction false} DuplicateFreeFrom(s: Site, ls: seq<Label>)
    requires HistoryInv(s) && NoDuplicates(Executions(s)) && Uninterrupted(s, ls)
    ensures NoDuplicates(Executions(Exec(s, ls))) <==> !ReclaimsClosed(s, ls)
    decreases |ls|
  {
    if ls != [] {
      var t := Next(s, ls[0]);
      StepKeepsHistory(s, ls[0]);
      if WinsClaim(s, ls[0]) {
        var a := s.workers[ls[0].w].arn;
        WinKeepsHistory(s, ls[0]);
        ClaimIsFreshIff(s, ls[0]);
        if a in Executions(s) {
          var i :| 0 <= i < |Executions(s)| && Executions(s)[i] == a;
          RunOnlyAppends(t, ls[1..]);
          assert Executions(t)[i] == Executions(t)[|Executions(s)|];
        } else {
          DuplicateFreeFrom(t, ls[1..]);
        }
      } else {
        OtherKeepsHistory(s, ls[0]);
        DuplicateFreeFrom(t, ls[1..]);
      }
    }
  }

  /**
   In runs where no claim comes between a worker's lookup and its own claim, the list is duplicate-free exactly when
   no worker re-claims a row it had found CLAIMED.
   */
  lemma {:induction false} DuplicateFreeIff(payload: string, workflow: string, ls: seq<Label>)
    requires Uninterrupted(Init(payload, workflow), ls)
    ensures NoDuplicates(Executions(Exec(Init(payload, workflow), ls))) <==>
            !ReclaimsClosed(Init(payload, workflow), ls)
  {
    DuplicateFreeFrom(Init(payload, workflow), ls);
  }

  /** The workers whose claims won, as they were when they claimed. */
  function Winners(s: Site, ls: seq<Label>): seq<Worker>
    decreases |ls|
  {
    if ls == [] then []
    else (if WinsClaim(s, ls[0]) then [s.workers[ls[0].w]] else []) + Winners(Next(s, ls[0]), ls[1..])
  }

  function Arns(ws: seq<Worker>): (xs: seq<Arn>)
    ensures |xs| == |ws| && forall i | 0 <= i < |ws| :: xs[i] == ws[i].arn
  {
    if ws == [] then [] else [ws[0].arn] + Arns(ws[1..])
  }

  /** A winner planned the last execution it saw, or a name made from what it saw. */
  predicate WellPlanned(payload: string, x: Worker, before: seq<Arn>) {
    if x.prev == Some(Claimed) then x.arn in before else x.arn.name == Name(payload, x.seen)
  }

  lemma WinnerIsWellPlanned(s: Site, l: Label)
    requires HistoryInv(s) && WinsClaim(s, l)
    ensures WellPlanned(s.payload, s.workers[l.w], Executions(s))
  {
    assert WorkerInv(s, s.workers[l.w]);
  }

  lemma PrefixShift(xs: seq<Arn>, a: Arn, ys: seq<Arn>, i: nat)
    requires 0 < i <= |ys| + 1
    ensures xs + ([a] + ys)[..i] == xs + [a] + ys[..i - 1]
  {
    assert ([a] + ys)[..i] == [a] + ys[..i - 1];
  }

  lemma {:induction false} ArnsOfMore(x: Worker, ws: seq<Worker>)
    ensures Arns([x] + ws) == [x.arn] + Arns(ws)
  {
    assert ([x] + ws)[1..] == ws;
  }

  lemma {:induction false} LaterWinner(payload: string, xs: seq<Arn>, x: Worker, rest: seq<Worker>, i: nat)
    requires 0 < i <= |rest| && WellPlanned(payload, rest[i - 1], xs + [x.arn] + Arns(rest)[..i - 1])
    ensures WellPlanned(payload, ([x] + rest)[i], xs + Arns([x] + rest)[..i])
  {
    ArnsOfMore(x, rest);
    PrefixShift(xs, x.arn, Arns(rest), i);
  }

  lemma {:induction false} FirstWinner(payload: string, xs: seq<Arn>, x: Worker, rest: seq<Worker>)
    requires WellPlanned(payload, x, xs)
    ensures WellPlanned(payload, ([x] + rest)[0], xs + Arns([x] + rest)[..0])
  {
    assert xs + Arns([x] + rest)[..0] == xs;
  }

  lemma {:induction false} WinnersStep(s: Site, ls: seq<Label>)
    requires HistoryInv(s) && ls != []
    ensures var t := Next(s, ls[0]);
            && HistoryInv(t) && t.payload == s.payload
            && (if WinsClaim(s, ls[0])
                then var x := s.workers[ls[0].w];
                     && WellPlanned(s.payload, x, Executions(s)) && Executions(t) == Executions(s) + [x.arn]
                     && Winners(s, ls) == [x] + Winners(t, ls[1..])
                else Executions(t) == Executions(s) && Winners(s, ls) == Winners(t, ls[1..]))
  {
    StepKeepsHistory(s, ls[0]);
    if WinsClaim(s, ls[0]) {
      WinKeepsHistory(s, ls[0]);
      WinnerIsWellPlanned(s, ls[0]);
    } else {
      OtherKeepsHistory(s, ls[0]);
    }
  }

  lemma AppendInOrder(xs: seq<Arn>, a: Arn, ys: seq<Arn>)
    ensures xs + [a] + ys == xs + ([a] + ys)
  {
  }

  lemma {:induction false} ListIsWinners(s: Site, ls: seq<Label>)
    requires HistoryInv(s)
    ensures Executions(Exec(s, ls)) == Executions(s) + Arns(Winners(s, ls))
    decreases |ls|
  {
    if ls != [] {
      var t := Next(s, ls[0]);
      var rest := Winners(t, ls[1..]);
      WinnersStep(s, ls);
      ListIsWinners(t, ls[1..]);
      if WinsClaim(s, ls[0]) {
        ArnsOfMore(s.workers[ls[0].w], rest);
        AppendInOrder(Executions(s), s.workers[ls[0].w].arn, Arns(rest));
      }
    }
  }

  lemma {:induction false} WinnersAreWellPlanned(s: Site, ls: seq<Label>, i: nat)
    requires HistoryInv(s) && i < |Winners(s, ls)|
    ensures WellPlanned(s.payload, Winners(s, ls)[i], Executions(s) + Arns(Winners(s, ls))[..i])
    decreases |ls|
  {
    WinnersStep(s, ls);
    var t := Next(s, ls[0]);
    var rest := Winners(t, ls[1..]);
    if !WinsClaim(s, ls[0]) {
      WinnersAreWellPlanned(t, ls[1..], i);
    } else if i == 0 {
      FirstWinner(s.payload, Executions(s), s.workers[ls[0].w], rest);
    } else {
      WinnersAreWellPlanned(t, ls[1..], i - 1);
      LaterWinner(s.payload, Executions(s), s.workers[ls[0].w], rest, i);
    }
  }

  /** No winner had found the row CLAIMED, and no two planned for one workflow from the same list. */
  predicate PlansApart(ws: seq<Worker>) {
    && (forall i | 0 <= i < |ws| :: ws[i].prev != Some(Claimed))
    && (forall i, j | 0 <= i < j < |ws| :: ws[i].seen != ws[j].seen || ws[i].arn.workflow != ws[j].arn.workflow)
  }

  lemma {:induction false} ReclaimRepeats(payload: string, ws: seq<Worker>, i: nat)
    requires i < |ws| && WellPlanned(payload, ws[i], Arns(ws)[..i]) && ws[i].prev == Some(Claimed)
    ensures !NoDuplicates(Arns(ws))
  {
    var j :| 0 <= j < i && Arns(ws)[..i][j] == ws[i].arn;
    assert Arns(ws)[j] == Arns(ws)[i];
  }

  lemma {:induction false} ApartIff(payload: string, ws: seq<Worker>)
    requires forall i | 0 <= i < |ws| :: WellPlanned(payload, ws[i], Arns(ws)[..i])
    ensures NoDuplicates(Arns(ws)) <==> PlansApart(ws)
  {
    if i :| 0 <= i < |ws| && ws[i].prev == Some(Claimed) {
      ReclaimRepeats(payload, ws, i);
    } else {
      forall i, j | 0 <= i < j < |ws|
        ensures Arns(ws)[i] == Arns(ws)[j] <==> ws[i].seen == ws[j].seen && ws[i].arn.workflow == ws[j].arn.workflow
      {
        assert WellPlanned(payload, ws[i], Arns(ws)[..i]) && WellPlanned(payload, ws[j], Arns(ws)[..j]);
      }
    }
  }

  lemma {:induction false} WinnersFromInit(payload: string, workflow: string, ls: seq<Label>)
    ensures var ws := Winners(Init(payload, workflow), ls);
            && Executions(Exec(Init(payload, workflow), ls)) == Arns(ws)
            && forall i | 0 <= i < |ws| :: WellPlanned(payload, ws[i], Arns(ws)[..i])
  {
    var s := Init(payload, workflow);
    var ws := Winners(s, ls);
    ListIsWinners(s, ls);
    assert [] + Arns(ws) == Arns(ws);
    forall i | 0 <= i < |ws| ensures WellPlanned(payload, ws[i], Arns(ws)[..i]) {
      WinnersAreWellPlanned(s, ls, i);
      assert [] + Arns(ws)[..i] == Arns(ws)[..i];
    }
  }

  /** In every run the list is duplicate-free exactly when the winning claims were planned apart. */
  lemma {:induction false} DuplicateFreeInEveryRunIff(payload: string, workflow: string, ls: seq<Label>)
    ensures NoDuplicates(Executions(Exec(Init(payload, workflow), ls))) <==>
            PlansApart(Winners(Init(payload, workflow), ls))
  {
    WinnersFromInit(payload, workflow, ls);
    ApartIff(payload, Winners(Init(payload, workflow), ls));
  }

  /** A PROCESSING row of which every recorded execution has reported, or was never begun and is held by nobody. */
  ghost predicate Stuck(s: Site) {
    && StateOf(s) == Some(Processing)
    && (forall a | a in s.begun :: a in Executions(s))
    && (forall w | w in s.workers && !s.workers[w].phase.Planned? :: s.workers[w].arn in Executions(s))
    && (forall a | a in Executions(s) :: a in s.reported || (a !in s.begun && forall w :: !Holds(s, w, a)))
  }

  /** A PROCESSING row hands out no execution: nobody comes to hold one who did not. */
  lemma NobodyTakesHold(s: Site, l: Label, w: WorkerId, a: Arn)
    requires StateOf(s) == Some(Processing) && !l.FailWrite? && Holds(Next(s, l), w, a)
    ensures Holds(s, w, a)
  {
  }

  lemma StuckStays(s: Site, l: Label)
    requires Stuck(s) && !l.FailWrite?
    ensures Stuck(Next(s, l)) && Next(s, l).record == s.record
  {
    var t := Next(s, l);
    if l.Start? && InPhase(s, l.w, Uploaded) {
      assert Holds(s, l.w, s.workers[l.w].arn);
    }
    forall a, w | a in Executions(s) && Holds(t, w, a) ensures Holds(s, w, a) {
      NobodyTakesHold(s, l, w, a);
    }
  }

  /** Such a row never moves again by itself: no execution is left to report, to start or to claim. */
  lemma {:induction false} StuckRowNeverMoves(s: Site, ls: seq<Label>)
    requires Stuck(s) && NoFailWrite(ls)
    ensures Exec(s, ls).record == s.record
    decreases |ls|
  {
    if ls != [] {
      StuckStays(s, ls[0]);
      StuckRowNeverMoves(Next(s, ls[0]), ls[1..]);
    }
  }

  lemma {:induction false} ExecTwoThen(s: Site, a: Label, b: Label, rest: seq<Label>)
    ensures Exec(s, [a, b] + rest) == Exec(Next(Next(s, a), b), rest)
  {
    ExecTwo(s, a, b);
    ExecConcat(s, [a, b], rest);
  }

  /** The row after `state` was last written, with every time stamp empty. */
  function Row(state: State, executions: seq<Arn>): Option<Record> {
    Some(Record(state, "", "", Some(""), executions, None, None))
  }

  /** A PROCESSING row that is not stuck can be reported on, if need be after its holder starts the execution. */
  lemma UnstuckMoves(s: Site) returns (ls: seq<Label>)
    requires HistoryInv(s) && StateOf(s) == Some(Processing) && !Stuck(s)
    ensures NoFailWrite(ls) && Exec(s, ls).record != s.record
  {
    forall w | w in s.workers && !s.workers[w].phase.Planned? ensures s.workers[w].arn in Executions(s) {
      assert WorkerInv(s, s.workers[w]);
    }
    var a :| a in Executions(s) && a !in s.reported && (a in s.begun || exists w :: Holds(s, w, a));
    var report := [Report(a, RunSucceeded, "")];
    if a in s.begun {
      ls := report;
      ExecOne(s, report[0]);
    } else {
      var w :| Holds(s, w, a);
      var begin := [Upload(w), Start(w, true)];
      HolderBegins(s, w, a);
      ls := begin + report;
      ExecConcat(s, begin, report);
      ExecOne(Exec(s, begin), report[0]);
    }
  }

  /** In any reachable state: a PROCESSING row never moves again without a failure write if and only if it is stuck. */
  lemma {:induction false} StuckIff(s: Site)
    requires HistoryInv(s) && StateOf(s) == Some(Processing)
    ensures (forall ls | NoFailWrite(ls) :: Exec(s, ls).record == s.record) <==> Stuck(s)
  {
    if Stuck(s) {
      forall ls | NoFailWrite(ls) ensures Exec(s, ls).record == s.record {
        StuckRowNeverMoves(s, ls);
      }
    } else {
      var ls := UnstuckMoves(s);
      assert NoFailWrite(ls) && Exec(s, ls).record != s.record;
    }
  }

  /** Adoption resumes the execution claimed last exactly when it is also the first one recorded. */
  lemma AdoptionResumesIff(s: Site, w: WorkerId, now: string)
    requires InPhase(s, w, Planned) && StateOf(s) == Some(Claimed) && Executions(s) != []
    ensures Holds(Next(s, Claim(w, now, true)), w, Last(Executions(s))) <==> Executions(s)[0] == Last(Executions(s))
  {
  }

  /** Worker 1 claims the row again after the first execution has closed, and crashes before its start. */
  function Reclaims(workflow: string, first: Arn): seq<Label> {
    [Report(first, RunAborted, ""), Snapshot(1, false, workflow)] + [Claim(1, "", true), Crash(1)]
  }

  /** Worker 2 meets the claim nobody works on, adopts the first execution and finishes its call. */
  function Adopts(workflow: string): seq<Label> {
    [Snapshot(2, false, workflow), Claim(2, "", true)] + ([Upload(2), Start(2, true)] + [SetProcessing(2, "", true)])
  }

  lemma {:induction false} AfterReclaim(s: Site, first: Arn, done: Worker)
    requires first == Arn(s.workflow, Name(s.payload, []))
    requires s.record == Row(Claimed, [first]) && s.begun == {first} && s.reported == {} && s.workers == map[0 := done]
    ensures var second := Arn(s.workflow, Name(s.payload, [first]));
            Exec(s, Reclaims(s.workflow, first)) == s.(record := Row(Claimed, [first, second]), reported := {first})
  {
    var second := Arn(s.workflow, Name(s.payload, [first]));
    var s2 := Next(Next(s, Report(first, RunAborted, "")), Snapshot(1, false, s.workflow));
    assert s2.record == Row(Aborted, [first]);
    var planned := Worker(Planned, Some(Aborted), [first], second);
    assert s2.workers == map[0 := done, 1 := planned];
    var s3 := Next(s2, Claim(1, "", true));
    assert Executions(s3) == [first, second];
    assert s3.workers == map[0 := done, 1 := planned.(phase := Holding)];
    assert Next(s3, Crash(1)).workers == map[0 := done];
    ExecTwoThen(s, Report(first, RunAborted, ""), Snapshot(1, false, s.workflow), [Claim(1, "", true), Crash(1)]);
    ExecTwo(s2, Claim(1, "", true), Crash(1));
  }

  lemma AdoptsTheClaim(s: Site, first: Arn, second: Arn, done: Worker)
    requires s.record == Row(Claimed, [first, second]) && s.workers == map[0 := done]
    ensures Next(Next(s, Snapshot(2, false, s.workflow)), Claim(2, "", true)) ==
            s.(workers := map[0 := done, 2 := Worker(Holding, Some(Claimed), [first, second], first)])
  {
    var t := Next(s, Snapshot(2, false, s.workflow));
    assert t.workers == map[0 := done, 2 := Worker(Planned, Some(Claimed), [first, second], second)];
    assert Next(t, Claim(2, "", true)).workers ==
           map[0 := done, 2 := Worker(Holding, Some(Claimed), [first, second], first)];
  }

  lemma StartsNothing(s: Site, done: Worker, holder: Worker)
    requires s.workers == map[0 := done, 2 := holder] && holder.phase.Holding? && s.begun == {holder.arn}
    ensures Next(Next(s, Upload(2)), Start(2, true)) ==
            s.(uploads := s.uploads + {holder.arn.name}, workers := map[0 := done, 2 := holder.(phase := Launched)])
  {
    var t := Next(s, Upload(2));
    assert t.workers == map[0 := done, 2 := holder.(phase := Uploaded)];
    assert Next(t, Start(2, true)).workers == map[0 := done, 2 := holder.(phase := Launched)];
    assert s.begun + {holder.arn} == s.begun;
  }

  lemma {:induction false} AfterAdoption(s: Site, first: Arn, second: Arn, done: Worker)
    requires s.record == Row(Claimed, [first, second]) && s.begun == {first} && s.reported == {first}
    requires s.workers == map[0 := done]
    ensures var t := Exec(s, Adopts(s.workflow));
            && t.record == Row(Processing, [first, second]) && t.begun == {first} && t.reported == {first}
            && t.workers == map[0 := done]
  {
    var holder := Worker(Holding, Some(Claimed), [first, second], first);
    var s2 := Next(Next(s, Snapshot(2, false, s.workflow)), Claim(2, "", true));
    AdoptsTheClaim(s, first, second, done);
    var s4 := Next(Next(s2, Upload(2)), Start(2, true));
    StartsNothing(s2, done, holder);
    assert Next(s4, SetProcessing(2, "", true)).workers == map[0 := done];
    var end := [SetProcessing(2, "", true)];
    ExecTwoThen(s, Snapshot(2, false, s.workflow), Claim(2, "", true), [Upload(2), Start(2, true)] + end);
    ExecTwoThen(s2, Upload(2), Start(2, true), end);
    ExecOne(s4, end[0]);
  }

  lemma StuckOnSecond(t: Site, first: Arn, second: Arn, done: Worker)
    requires t.record == Row(Processing, [first, second]) && t.begun == {first} && t.reported == {first}
    requires t.workers == map[0 := done] && done.phase.Launched? && done.arn == first && first != second
    ensures Stuck(t) && Executions(t) == [first, second] && second !in t.begun
  {
    assert forall w :: !Holds(t, w, second);
  }

  lemma NoFailureIn(a: seq<Label>, b: seq<Label>)
    requires NoFailWrite(a) && NoFailWrite(b)
    ensures NoFailWrite(a + b)
  {
  }

  /** A concrete run without a failure write: the second claim's execution is never begun, and the row stays stuck. */
  lemma CrashedReclaimIsLost(payload: string, workflow: string)
    ensures var first := Arn(workflow, Name(payload, []));
            var second := Arn(workflow, Name(payload, [first]));
            var ls := FirstStart(workflow) + (Reclaims(workflow, first) + Adopts(workflow));
            var t := Exec(Init(payload, workflow), ls);
            NoFailWrite(ls) && Stuck(t) && Executions(t) == [first, second] && second !in t.begun
  {
    var first := Arn(workflow, Name(payload, []));
    var second := Arn(workflow, Name(payload, [first]));
    var s := Exec(Init(payload, workflow), FirstStart(workflow));
    var done := Worker(Launched, None, [], first);
    NoFailureIn(Reclaims(workflow, first), Adopts(workflow));
    NoFailureIn(FirstStart(workflow), Reclaims(workflow, first) + Adopts(workflow));
    AfterFirstStart(payload, workflow);
    AfterReclaim(s, first, done);
    AfterAdoption(Exec(s, Reclaims(workflow, first)), first, second, done);
    ExecConcat(Init(payload, workflow), FirstStart(workflow), Reclaims(workflow, first) + Adopts(workflow));
    ExecConcat(s, Reclaims(workflow, first), Adopts(workflow));
    StuckOnSecond(Exec(s, Reclaims(workflow, first) + Adopts(workflow)), first, second, done);
  }

  /** Worker 1 finds the row CLAIMED by worker 0, whose execution then closes before worker 1 claims. */
  function LateReclaim(workflow: string, first: Arn): seq<Label> {
    [Snapshot(0, false, workflow), Claim(0, "", true)] + ([Snapshot(1, false, workflow), Upload(0)]
    + ([Start(0, true), Report(first, RunAborted, "")] + ([Claim(1, "", true), Upload(1)]
    + [Start(1, true), SetProcessing(1, "", true)])))
  }

  lemma LateReclaimClaims(payload: string, workflow: string, first: Arn)
    requires first == Arn(workflow, Name(payload, []))
    ensures Next(Next(Init(payload, workflow), Snapshot(0, false, workflow)), Claim(0, "", true)) ==
            Site(payload, workflow, Row(Claimed, [first]), map[0 := Worker(Holding, None, [], first)], {}, {}, {})
  {
    var s := Next(Init(payload, workflow), Snapshot(0, false, workflow));
    var t := Next(s, Claim(0, "", true));
    assert s.workers == map[0 := Worker(Planned, None, [], first)];
    assert t.workers == map[0 := Worker(Holding, None, [], first)];
    assert Executions(t) == [first];
  }

  lemma LateReclaimLooksUp(s: Site, first: Arn)
    requires s.record == Row(Claimed, [first]) && s.workers == map[0 := Worker(Holding, None, [], first)]
    ensures Next(Next(s, Snapshot(1, false, s.workflow)), Upload(0)) ==
            s.(workers := map[0 := Worker(Uploaded, None, [], first),
                              1 := Worker(Planned, Some(Claimed), [first], first)],
               uploads := s.uploads + {first.name})
  {
    var t := Next(s, Snapshot(1, false, s.workflow));
    assert t.workers == map[0 := Worker(Holding, None, [], first), 1 := Worker(Planned, Some(Claimed), [first], first)];
    assert Next(t, Upload(0)).workers ==
           map[0 := Worker(Uploaded, None, [], first), 1 := Worker(Planned, Some(Claimed), [first], first)];
  }

  lemma LateReclaimCloses(s: Site, first: Arn, other: Worker)
    requires s.record == Row(Claimed, [first]) && s.begun == {} && s.reported == {}
    requires s.workers == map[0 := Worker(Uploaded, None, [], first), 1 := other]
    ensures Next(Next(s, Start(0, true)), Report(first, RunAborted, "")) ==
            s.(record := Row(Aborted, [first]), begun := {first}, reported := {first},
               workers := map[0 := Worker(Launched, None, [], first), 1 := other])
  {
    var t := Next(s, Start(0, true));
    assert t.workers == map[0 := Worker(Launched, None, [], first), 1 := other] && t.begun == {first};
    assert Next(t, Report(first, RunAborted, "")).reported == {first};
  }

  lemma LateReclaimReclaims(s: Site, first: Arn, other: Worker, late: Worker)
    requires s.record == Row(Aborted, [first]) && s.begun == {first} && s.reported == {first}
    requires other.phase.Launched? && other.arn == first && late.phase.Planned? && late.arn == first
    requires s.workers == map[0 := other, 1 := late]
    ensures var t := Next(Next(s, Claim(1, "", true)), Upload(1));
            && t.record == Row(Claimed, [first, first]) && t.begun == {first} && t.reported == {first}
            && t.workers == map[0 := other, 1 := late.(phase := Uploaded)]
  {
    var t := Next(s, Claim(1, "", true));
    assert t.workers == map[0 := other, 1 := late.(phase := Holding)];
    assert Executions(t) == [first, first];
    assert Next(t, Upload(1)).workers == map[0 := other, 1 := late.(phase := Uploaded)];
  }

  lemma LateReclaimIsStuck(s: Site, first: Arn, other: Worker, late: Worker)
    requires s.record == Row(Claimed, [first, first]) && s.begun == {first} && s.reported == {first}
    requires other.phase.Launched? && other.arn == first && late.phase.Uploaded? && late.arn == first
    requires s.workers == map[0 := other, 1 := late]
    ensures var t := Next(Next(s, Start(1, true)), SetProcessing(1, "", true));
            Stuck(t) && Executions(t) == [first, first]
  {
    var t := Next(s, Start(1, true));
    assert t.workers == map[0 := other, 1 := late.(phase := Launched)] && t.begun == {first};
    var u := Next(t, SetProcessing(1, "", true));
    assert u.record == Row(Processing, [first, first]) && u.workers == map[0 := other];
  }

  /** A concrete run with one claim per lookup that records a closed execution again and leaves the row stuck. */
  lemma LateReclaimSticks(payload: string, workflow: string)
    ensures var first := Arn(workflow, Name(payload, []));
            var t := Exec(Init(payload, workflow), LateReclaim(workflow, first));
            Stuck(t) && Executions(t) == [first, first]
  {
    var first := Arn(workflow, Name(payload, []));
    var other := Worker(Launched, None, [], first);
    var late := Worker(Planned, Some(Claimed), [first], first);
    var rest8 := [Start(1, true), SetProcessing(1, "", true)];
    var rest6 := [Claim(1, "", true), Upload(1)] + rest8;
    var rest4 := [Start(0, true), Report(first, RunAborted, "")] + rest6;
    var s0 := Init(payload, workflow);
    var s2 := Next(Next(s0, Snapshot(0, false, workflow)), Claim(0, "", true));
    LateReclaimClaims(payload, workflow, first);
    var s4 := Next(Next(s2, Snapshot(1, false, workflow)), Upload(0));
    LateReclaimLooksUp(s2, first);
    var s6 := Next(Next(s4, Start(0, true)), Report(first, RunAborted, ""));
    LateReclaimCloses(s4, first, late);
    var s8 := Next(Next(s6, Claim(1, "", true)), Upload(1));
    LateReclaimReclaims(s6, first, other, late);
    LateReclaimIsStuck(s8, first, other, late.(phase := Uploaded));
    ExecTwoThen(s0, Snapshot(0, false, workflow), Claim(0, "", true),
                [Snapshot(1, false, workflow), Upload(0)] + rest4);
    ExecTwoThen(s2, Snapshot(1, false, workflow), Upload(0), rest4);
    ExecTwoThen(s4, Start(0, true), Report(first, RunAborted, ""), rest6);
    ExecTwoThen(s6, Claim(1, "", true), Upload(1), rest8);
    ExecTwo(s8, Start(1, true), SetProcessing(1, "", true));
  }
}
