/** Claims that nobody works on any more: which of them a later worker can still bring to an end. */
module ProtocolRecovery {
  import opened Wrappers
  import opened Records
  import opened Protocol
  import opened ProtocolSafety
  import opened ProtocolHistory

  /** A claimed row none of whose executions can run any more. */
  ghost predicate DeadClaim(s: Site) {
    && Claiming(s) && Executions(s) != []
    && s.reported <= s.begun
    && (forall a | a in s.begun :: a in Executions(s))
    && (forall w | w in s.workers && !s.workers[w].phase.Planned? :: s.workers[w].arn in Executions(s))
    && (forall a | a in Executions(s) :: Dead(s, a))
  }

  /** What can still be started in a dead claim has been started and reported before. */
  lemma HeldIsReported(s: Site, w: WorkerId, a: Arn)
    requires DeadClaim(s) && Holds(s, w, a)
    ensures a in s.reported
  {
    assert Dead(s, a);
  }

  lemma FirstIsReported(s: Site)
    requires DeadClaim(s)
    ensures Executions(s)[0] in s.reported
  {
    assert Dead(s, Executions(s)[0]);
  }

  lemma NothingIsActive(s: Site, a: Arn)
    requires DeadClaim(s)
    ensures !Active(s, a)
  {
    if a in s.begun {
      assert Dead(s, a);
    }
  }

  /** Every step but a failure write leaves a dead claim claimed, with the same list and the same executions begun. */
  lemma DeadClaimMoves(s: Site, l: Label)
    requires DeadClaim(s) && !l.FailWrite?
    ensures var t := Next(s, l);
            Claiming(t) && Executions(t) == Executions(s) && t.begun == s.begun && t.reported == s.reported
  {
    if l.Start? && InPhase(s, l.w, Uploaded) {
      HeldIsReported(s, l.w, s.workers[l.w].arn);
    }
    if l.Report? {
      NothingIsActive(s, l.arn);
    }
  }

  /** Only reported executions come to be held. */
  lemma NewHoldIsReported(s: Site, l: Label, w: WorkerId, a: Arn)
    requires DeadClaim(s) && !l.FailWrite? && Holds(Next(s, l), w, a)
    ensures a in s.reported
  {
    FirstIsReported(s);
    if Holds(s, w, a) {
      HeldIsReported(s, w, a);
    }
  }

  lemma DeadClaimStays(s: Site, l: Label)
    requires DeadClaim(s) && !l.FailWrite?
    ensures DeadClaim(Next(s, l))
  {
    var t := Next(s, l);
    DeadClaimMoves(s, l);
    forall a | a in Executions(t) && a !in t.reported ensures Lost(t, a) {
      assert Lost(s, a);
      forall w | w in t.workers ensures !Holds(t, w, a) {
        if Holds(t, w, a) {
          NewHoldIsReported(s, l, w, a);
        }
      }
    }
  }

  lemma {:induction false} DeadClaimNeverEnds(s: Site, ls: seq<Label>)
    requires DeadClaim(s) && NoFailWrite(ls)
    ensures Claiming(Exec(s, ls)) && Exec(s, ls).begun == s.begun
    decreases |ls|
  {
    if ls != [] {
      DeadClaimMoves(s, ls[0]);
      DeadClaimStays(s, ls[0]);
      DeadClaimNeverEnds(Next(s, ls[0]), ls[1..]);
    }
  }

  lemma DeadLastIsDeadClaim(s: Site)
    requires Inv(s) && Claiming(s) && Dead(s, Last(Executions(s)))
    ensures DeadClaim(s)
  {
  }

  /** As long as the last execution of a CLAIMED row is not dead, an idle worker or its holder can begin it. */
  lemma BeginsLast(s: Site, w: WorkerId) returns (ls: seq<Label>)
    requires Inv(s) && StateOf(s) == Some(Claimed) && w !in s.workers && !Dead(s, Last(Executions(s)))
    ensures NoFailWrite(ls)
    ensures var t := Exec(s, ls); Last(Executions(s)) in t.begun && t.reported == s.reported
  {
    var last := Last(Executions(s));
    if last in s.begun {
      ls := [];
    } else if v :| v in s.workers && Holds(s, v, last) {
      ls := [Upload(v), Start(v, true)];
      HolderBegins(s, v, last);
    } else {
      ls := Attempt(w);
      AdoptionBeginsFirst(s, w);
    }
  }

  lemma {:induction false} ThenReports(s: Site, ls: seq<Label>, a: Arn) returns (more: seq<Label>)
    requires NoFailWrite(ls) && Active(Exec(s, ls), a)
    ensures NoFailWrite(more) && !Claiming(Exec(s, more))
  {
    more := ls + [Report(a, RunSucceeded, "")];
    ExecConcat(s, ls, [Report(a, RunSucceeded, "")]);
    ExecOne(Exec(s, ls), Report(a, RunSucceeded, ""));
  }

  /**
   A CLAIMED row can still be brought to an end, by an idle worker or by those already at work and without a failure
   write, if and only if its last execution is not dead: it runs, or somebody holds it, or it is the one adoption takes.
   */
  lemma {:induction false} ClaimEndsIff(s: Site, w: WorkerId)
    requires Inv(s) && StateOf(s) == Some(Claimed) && w !in s.workers
    ensures (exists ls :: NoFailWrite(ls) && !Claiming(Exec(s, ls))) <==> !Dead(s, Last(Executions(s)))
  {
    if Dead(s, Last(Executions(s))) {
      DeadLastIsDeadClaim(s);
      forall ls | NoFailWrite(ls) ensures Claiming(Exec(s, ls)) {
        DeadClaimNeverEnds(s, ls);
      }
    } else {
      var begin := BeginsLast(s, w);
      var ls := ThenReports(s, begin, Last(Executions(s)));
      assert NoFailWrite(ls) && !Claiming(Exec(s, ls));
    }
  }

  /** An execution that was claimed, but neither begun nor held, can still begin if and only if adoption takes it. */
  lemma {:induction false} AbandonedBeginsIff(s: Site, w: WorkerId)
    requires Inv(s) && StateOf(s) == Some(Claimed) && w !in s.workers
    requires var last := Last(Executions(s)); last !in s.begun && forall v | v in s.workers :: !Holds(s, v, last)
    ensures (exists ls :: NoFailWrite(ls) && Last(Executions(s)) in Exec(s, ls).begun) <==>
            Executions(s)[0] == Last(Executions(s))
  {
    var last := Last(Executions(s));
    if Executions(s)[0] == last {
      AdoptionBeginsFirst(s, w);
      assert NoFailWrite(Attempt(w)) && last in Exec(s, Attempt(w)).begun;
    } else {
      DeadLastIsDeadClaim(s);
      forall ls | NoFailWrite(ls) ensures last !in Exec(s, ls).begun {
        DeadClaimNeverEnds(s, ls);
      }
    }
  }

  /** Worker 1 looks the row up while worker 0 works on it, claims the closed execution again, and crashes. */
  function ReclaimsAndCrashes(workflow: string, first: Arn): seq<Label> {
    [Snapshot(0, false, workflow), Claim(0, "", true)] + ([Snapshot(1, false, workflow), Upload(0)]
    + ([Start(0, true), Report(first, RunAborted, "")] + [Claim(1, "", true), Crash(1)]))
  }

  lemma {:induction false} ReclaimCrashes(s: Site, first: Arn, done: Worker, late: Worker)
    requires s.record == Row(Aborted, [first]) && late.phase.Planned? && late.arn == first
    requires s.workers == map[0 := done, 1 := late]
    ensures var t := Exec(s, [Claim(1, "", true), Crash(1)]);
            t.record == Row(Claimed, [first, first]) && t.reported == s.reported && t.workers == map[0 := done]
  {
    var t := Next(s, Claim(1, "", true));
    assert Executions(t) == [first, first];
    assert t.workers == map[0 := done, 1 := late.(phase := Holding)];
    assert Next(t, Crash(1)).workers == map[0 := done];
    ExecTwo(s, Claim(1, "", true), Crash(1));
  }

  lemma {:induction false} AfterReclaimAndCrash(payload: string, workflow: string)
    ensures var first := Arn(workflow, Name(payload, []));
            var t := Exec(Init(payload, workflow), ReclaimsAndCrashes(workflow, first));
            t.record == Row(Claimed, [first, first]) && t.reported == {first}
            && t.workers == map[0 := Worker(Launched, None, [], first)]
  {
    var first := Arn(workflow, Name(payload, []));
    var late := Worker(Planned, Some(Claimed), [first], first);
    var end := [Claim(1, "", true), Crash(1)];
    var rest := [Start(0, true), Report(first, RunAborted, "")] + end;
    var s0 := Init(payload, workflow);
    var s2 := Next(Next(s0, Snapshot(0, false, workflow)), Claim(0, "", true));
    LateReclaimClaims(payload, workflow, first);
    var s4 := Next(Next(s2, Snapshot(1, false, workflow)), Upload(0));
    LateReclaimLooksUp(s2, first);
    var s6 := Next(Next(s4, Start(0, true)), Report(first, RunAborted, ""));
    LateReclaimCloses(s4, first, late);
    ReclaimCrashes(s6, first, Worker(Launched, None, [], first), late);
    ExecTwoThen(s0, Snapshot(0, false, workflow), Claim(0, "", true), [Snapshot(1, false, workflow), Upload(0)] + rest);
    ExecTwoThen(s2, Snapshot(1, false, workflow), Upload(0), rest);
    ExecTwoThen(s4, Start(0, true), Report(first, RunAborted, ""), end);
  }

  /** A concrete failure-free run to a CLAIMED row that no later run without a failure write brings to an end. */
  lemma {:induction false} RepeatedClaimNeverEnds(payload: string, workflow: string, more: seq<Label>)
    requires NoFailWrite(more)
    ensures var first := Arn(workflow, Name(payload, []));
            var ls := ReclaimsAndCrashes(workflow, first);
            var t := Exec(Init(payload, workflow), ls);
            && NoFailWrite(ls) && StateOf(t) == Some(Claimed)
            && Executions(t) == [first, first] && Executions(t)[0] == Last(Executions(t))
            && Claiming(Exec(t, more))
  {
    var first := Arn(workflow, Name(payload, []));
    var ls := ReclaimsAndCrashes(workflow, first);
    var t := Exec(Init(payload, workflow), ls);
    AfterReclaimAndCrash(payload, workflow);
    NoFailWriteIsGuarded(Init(payload, workflow), ls);
    RunKeepsInv(Init(payload, workflow), ls);
    DeadLastIsDeadClaim(t);
    DeadClaimNeverEnds(t, more);
  }

  /** Two lookups find no row; the second worker claims after the first one's execution has closed. */
  function SecondClaim(workflow: string, first: Arn): seq<Label> {
    [Snapshot(0, false, workflow), Snapshot(1, false, workflow)] + ([Claim(0, "", true), Upload(0)]
    + ([Start(0, true), Report(first, RunAborted, "")] + ([Claim(1, "", true), Upload(1)]
    + [Start(1, true), SetProcessing(1, "", true)])))
  }

  lemma TwoFindNothing(payload: string, workflow: string)
    ensures var first := Arn(workflow, Name(payload, []));
            var x := Worker(Planned, None, [], first);
            Next(Next(Init(payload, workflow), Snapshot(0, false, workflow)), Snapshot(1, false, workflow)) ==
            Init(payload, workflow).(workers := map[0 := x, 1 := x])
  {
    var x := Worker(Planned, None, [], Arn(workflow, Name(payload, [])));
    var s := Next(Init(payload, workflow), Snapshot(0, false, workflow));
    assert s.workers == map[0 := x];
    assert Next(s, Snapshot(1, false, workflow)).workers == map[0 := x, 1 := x];
  }

  lemma FirstOfTwoClaims(s: Site, x: Worker)
    requires x.phase.Planned? && s.workers == map[0 := x, 1 := x] && s.record == None
    ensures Next(Next(s, Claim(0, "", true)), Upload(0)) ==
            s.(record := Row(Claimed, [x.arn]), workers := map[0 := x.(phase := Uploaded), 1 := x],
               uploads := s.uploads + {x.arn.name})
  {
    var t := Next(s, Claim(0, "", true));
    assert Executions(t) == [x.arn] && t.workers == map[0 := x.(phase := Holding), 1 := x];
    assert Next(t, Upload(0)).workers == map[0 := x.(phase := Uploaded), 1 := x];
  }

  /**
   What a worker does whose lookup finds no row although there is one, because the id does not come back or the lookup
   is old: it claims the first name again, begins nothing, and leaves the row in PROCESSING.
   */
  lemma {:induction false} SecondClaimSticks(payload: string, workflow: string)
    ensures var first := Arn(workflow, Name(payload, []));
            var t := Exec(Init(payload, workflow), SecondClaim(workflow, first));
            Stuck(t) && Executions(t) == [first, first]
  {
    var first := Arn(workflow, Name(payload, []));
    var x := Worker(Planned, None, [], first);
    var done := x.(phase := Launched);
    var rest8 := [Start(1, true), SetProcessing(1, "", true)];
    var rest6 := [Claim(1, "", true), Upload(1)] + rest8;
    var rest4 := [Start(0, true), Report(first, RunAborted, "")] + rest6;
    var s0 := Init(payload, workflow);
    var s2 := Next(Next(s0, Snapshot(0, false, workflow)), Snapshot(1, false, workflow));
    TwoFindNothing(payload, workflow);
    var s4 := Next(Next(s2, Claim(0, "", true)), Upload(0));
    FirstOfTwoClaims(s2, x);
    var s6 := Next(Next(s4, Start(0, true)), Report(first, RunAborted, ""));
    LateReclaimCloses(s4, first, x);
    var s8 := Next(Next(s6, Claim(1, "", true)), Upload(1));
    LateReclaimReclaims(s6, first, done, x);
    LateReclaimIsStuck(s8, first, done, x.(phase := Uploaded));
    ExecTwoThen(s0, Snapshot(0, false, workflow), Snapshot(1, false, workflow),
                [Claim(0, "", true), Upload(0)] + rest4);
    ExecTwoThen(s2, Claim(0, "", true), Upload(0), rest4);
    ExecTwoThen(s4, Start(0, true), Report(first, RunAborted, ""), rest6);
    ExecTwoThen(s6, Claim(1, "", true), Upload(1), rest8);
    ExecTwo(s8, Start(1, true), SetProcessing(1, "", true));
  }
}
