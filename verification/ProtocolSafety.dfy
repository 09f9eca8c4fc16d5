/**
 Single execution.  A worker's FAILED write can end a claim whose execution is running or can still be started;
 `FailureIsHarmless` says exactly when it cannot, and every run whose failure writes are harmless keeps `Inv`.
 */
module ProtocolSafety {
  import opened Wrappers
  import opened Records
  import opened Protocol

  /** Never begun, nobody can start it, and it is not the entry that `_claim` adopts. */
  ghost predicate Lost(s: Site, a: Arn) {
    && a !in s.begun
    && (forall w | w in s.workers :: !Holds(s, w, a))
    && (Executions(s) != [] ==> a != Executions(s)[0])
  }

  ghost predicate Dead(s: Site, a: Arn) {
    a in s.reported || Lost(s, a)
  }

  function Last(xs: seq<Arn>): Arn
    requires xs != []
  {
    xs[|xs| - 1]
  }

  predicate Claiming(s: Site) {
    s.record.Some? && (s.record.value.state.Claimed? || s.record.value.state.Processing?)
  }

  ghost predicate Inv(s: Site) {
    && s.reported <= s.begun
    && (forall a | a in s.begun :: a in Executions(s))
    && (forall w | w in s.workers && !s.workers[w].phase.Planned? :: s.workers[w].arn in Executions(s))
    && (Claiming(s) ==> Executions(s) != [])
    && (forall a | a in Executions(s) :: a == Last(Executions(s)) || Dead(s, a))
    && (!Claiming(s) ==> forall a | a in Executions(s) :: Dead(s, a))
  }

  /** The stored error describes the stored state. */
  predicate ErrorMatchesState(s: Site) {
    s.record.Some? ==>
      (s.record.value.lastError.Some? <==> (s.record.value.state.Failed? || s.record.value.state.Invalid?))
  }

  /**
   After `w` gives up, nothing recorded is running or can still be started: there is no recorded execution, or
   the last one has reported, or it was never begun, no other worker holds it and it is not the first entry.
   */
  predicate FailureIsHarmless(s: Site, w: WorkerId) {
    var xs := Executions(s);
    w in s.workers && xs != [] && Last(xs) !in s.reported ==>
      && Last(xs) !in s.begun
      && (forall v | v in s.workers && v != w :: !Holds(s, v, Last(xs)))
      && Last(xs) != xs[0]
  }

  predicate Guarded(s: Site, ls: seq<Label>)
    decreases |ls|
  {
    ls != [] ==>
      && (ls[0].FailWrite? ==> FailureIsHarmless(s, ls[0].w))
      && Guarded(Next(s, ls[0]), ls[1..])
  }

  /** What is dead stays dead while nothing new is begun or held and the first entry stays. */
  lemma DeadPersists(s: Site, t: Site, a: Arn)
    requires Dead(s, a) && s.reported <= t.reported
    requires a in t.begun ==> a in s.begun || a in t.reported
    requires forall w | w in t.workers && Holds(t, w, a) :: Holds(s, w, a) || a in t.reported
    requires Executions(t) != [] && Executions(t)[0] == a ==>
               (Executions(s) != [] && Executions(s)[0] == a) || a in t.reported
    ensures Dead(t, a)
  {
  }

  lemma ClaimKeepsInv(s: Site, w: WorkerId, now: string, acked: bool)
    requires Inv(s) && InPhase(s, w, Planned)
    ensures Inv(ClaimStep(s, w, now, acked))
  {
    var t := ClaimStep(s, w, now, acked);
    var xs, ys := Executions(s), Executions(t);
    if ClaimAllowed(s.record) {
      var n := s.workers[w].arn;
      assert ys == xs + [n];
      forall a | a in ys ensures a == n || Dead(t, a) {
        if a != n { DeadPersists(s, t, a); }
      }
    } else {
      assert ys == xs;
      forall a | a in ys ensures a == Last(ys) || Dead(t, a) {
        if a != Last(ys) { DeadPersists(s, t, a); }
      }
    }
  }

  lemma StartKeepsInv(s: Site, w: WorkerId, acked: bool)
    requires Inv(s) && InPhase(s, w, Uploaded)
    ensures Inv(Next(s, Start(w, acked)))
  {
    var t := Next(s, Start(w, acked));
    var n := s.workers[w].arn;
    assert Holds(s, w, n);
    forall a | Dead(s, a) ensures Dead(t, a) {
      DeadPersists(s, t, a);
    }
  }

  lemma FailWriteKeepsInv(s: Site, w: WorkerId, msg: string, now: string)
    requires Inv(s) && w in s.workers && FailureIsHarmless(s, w)
    ensures Inv(Next(s, FailWrite(w, msg, now)))
  {
    var t := Next(s, FailWrite(w, msg, now));
    forall a | a in Executions(t) ensures Dead(t, a) {
      if a != Last(Executions(s)) { DeadPersists(s, t, a); }
    }
  }

  lemma ReportKeepsInv(s: Site, arn: Arn, outcome: Outcome, now: string)
    requires Inv(s) && Active(s, arn)
    ensures Inv(Next(s, Report(arn, outcome, now)))
    ensures Claiming(s) && arn == Last(Executions(s))
  {
    var t := Next(s, Report(arn, outcome, now));
    assert !Dead(s, arn);
    assert Executions(t) == Executions(s);
    forall a | a in Executions(t) ensures Dead(t, a) {
      if a != arn { DeadPersists(s, t, a); }
    }
  }

  lemma QuietKeepsInv(s: Site, l: Label)
    requires Inv(s) && (l.Snapshot? || l.Upload? || l.SetProcessing? || l.Crash?)
    ensures Inv(Next(s, l))
  {
    var t := Next(s, l);
    assert Executions(t) == Executions(s) && Claiming(t) == Claiming(s);
    forall a | Dead(s, a) ensures Dead(t, a) {
      DeadPersists(s, t, a);
    }
  }

  /** Every step of the code keeps the invariant, a failure write exactly when it is harmless. */
  lemma StepKeepsInv(s: Site, l: Label)
    requires Inv(s) && (l.FailWrite? ==> FailureIsHarmless(s, l.w))
    ensures Inv(Next(s, l))
  {
    match l
    case Claim(w, now, acked) => if InPhase(s, w, Planned) { ClaimKeepsInv(s, w, now, acked); }
    case Start(w, acked) => if InPhase(s, w, Uploaded) { StartKeepsInv(s, w, acked); }
    case FailWrite(w, msg, now) => if w in s.workers { FailWriteKeepsInv(s, w, msg, now); }
    case Report(arn, outcome, now) => if Active(s, arn) { ReportKeepsInv(s, arn, outcome, now); }
    case _ => QuietKeepsInv(s, l);
  }

  lemma {:induction false} RunKeepsInv(s: Site, ls: seq<Label>)
    requires Inv(s) && Guarded(s, ls)
    ensures Inv(Exec(s, ls))
    decreases |ls|
  {
    if ls != [] {
      StepKeepsInv(s, ls[0]);
      RunKeepsInv(Next(s, ls[0]), ls[1..]);
    }
  }

  /** No two executions run at once, and one that runs is the most recent entry of a claimed row. */
  ghost predicate SingleExecution(s: Site) {
    forall a | Active(s, a) :: Claiming(s) && Executions(s) != [] && a == Last(Executions(s))
  }

  lemma InvGivesSingleExecution(s: Site)
    requires Inv(s)
    ensures SingleExecution(s)
  {
    forall a | Active(s, a) ensures Claiming(s) && Executions(s) != [] && a == Last(Executions(s)) {
      assert !Dead(s, a);
    }
  }

  /** Safety over whole runs: any workers, interleavings, crashes, stale lookups, replays and adoptions. */
  lemma {:induction false} AtMostOneExecution(payload: string, workflow: string, ls: seq<Label>)
    requires Guarded(Init(payload, workflow), ls)
    ensures SingleExecution(Exec(Init(payload, workflow), ls))
  {
    RunKeepsInv(Init(payload, workflow), ls);
    InvGivesSingleExecution(Exec(Init(payload, workflow), ls));
  }

  predicate NoFailWrite(ls: seq<Label>) {
    forall i | 0 <= i < |ls| :: !ls[i].FailWrite?
  }

  lemma {:induction false} NoFailWriteIsGuarded(s: Site, ls: seq<Label>)
    requires NoFailWrite(ls)
    ensures Guarded(s, ls)
    decreases |ls|
  {
    if ls != [] {
      NoFailWriteIsGuarded(Next(s, ls[0]), ls[1..]);
    }
  }

  /** However the run goes on without further failure writes, executions stay exclusive. */
  ghost predicate SafeFromHere(s: Site) {
    forall ls | NoFailWrite(ls) :: SingleExecution(Exec(s, ls))
  }

  /** The labels by which an idle worker looks up, claims, uploads and starts. */
  function Attempt(w: WorkerId): seq<Label> {
    [Snapshot(w, false, ""), Claim(w, "", true), Upload(w), Start(w, true)]
  }

  lemma {:induction false} ExecFour(s: Site, a: Label, b: Label, c: Label, d: Label)
    ensures Exec(s, [a, b, c, d]) == Next(Next(Next(Next(s, a), b), c), d)
  {
    ExecTwo(Next(Next(s, a), b), c, d);
    ExecTwo(s, a, b);
    ExecConcat(s, [a, b], [c, d]);
    assert [a, b] + [c, d] == [a, b, c, d];
  }

  lemma NotInItsHistory(a: Arn)
    ensures a !in a.name.history
  {
    forall i | 0 <= i < |a.name.history| ensures a.name.history[i] != a {
      assert a.name.history[i] < a.name < a;
    }
  }

  /** Retrying a FAILED or ABORTED row, without replacing, begins an execution that was never recorded before. */
  lemma {:induction false} RetryBeginsFresh(s: Site, w: WorkerId)
    requires StateOf(s) in {Some(Failed), Some(Aborted)} && w !in s.workers
    requires forall a | a in s.begun :: a in Executions(s)
    ensures var t := Exec(s, Attempt(w));
            var n := Arn(s.workflow, Name(s.payload, Executions(s)));
            && n !in Executions(s) && n !in s.begun
            && StateOf(t) == Some(Claimed) && Executions(t) == Executions(s) + [n]
            && t.begun == s.begun + {n} && t.reported == s.reported
            && t.workers.Keys == s.workers.Keys + {w}
            && forall v | v in s.workers :: t.workers[v] == s.workers[v]
  {
    ExecFour(s, Snapshot(w, false, ""), Claim(w, "", true), Upload(w), Start(w, true));
    NotInItsHistory(Arn(s.workflow, Name(s.payload, Executions(s))));
  }

  /** A claimed row whose first execution was never begun lets an idle worker begin it. */
  lemma {:induction false} AdoptionBeginsFirst(s: Site, w: WorkerId)
    requires StateOf(s) == Some(Claimed) && Executions(s) != [] && w !in s.workers
    ensures var t := Exec(s, Attempt(w));
            t.begun == s.begun + {Executions(s)[0]} && t.reported == s.reported
  {
    ExecFour(s, Snapshot(w, false, ""), Claim(w, "", true), Upload(w), Start(w, true));
  }

  lemma {:induction false} HolderBegins(s: Site, v: WorkerId, a: Arn)
    requires Holds(s, v, a)
    ensures var t := Exec(s, [Upload(v), Start(v, true)]);
            t.begun == s.begun + {a} && t.reported == s.reported
  {
    ExecTwo(s, Upload(v), Start(v, true));
  }

  /** What goes on after a retry so that the formerly last execution is begun beside the new one. */
  lemma LastIsBegunToo(s: Site, t: Site, w: WorkerId) returns (rest: seq<Label>)
    requires Executions(s) != [] && Executions(t) != [] && Executions(t)[0] == Executions(s)[0]
    requires StateOf(t) == Some(Claimed) && t.workers.Keys == s.workers.Keys + {w}
    requires forall v | v in s.workers && v != w :: t.workers[v] == s.workers[v]
    requires s.begun <= t.begun
    requires var last := Last(Executions(s));
             last in s.begun || (exists v | v in s.workers && v != w :: Holds(s, v, last)) || last == Executions(s)[0]
    ensures NoFailWrite(rest)
    ensures Exec(t, rest).begun == t.begun + {Last(Executions(s))} && Exec(t, rest).reported == t.reported
  {
    var last := Last(Executions(s));
    if last in s.begun {
      rest := [];
    } else if v :| v in s.workers && v != w && Holds(s, v, last) {
      rest := [Upload(v), Start(v, true)];
      HolderBegins(t, v, last);
    } else {
      rest := [Crash(w)] + Attempt(w);
      assert rest[1..] == Attempt(w);
      AdoptionBeginsFirst(Next(t, Crash(w)), w);
    }
  }

  /** Giving up and retrying: a new execution runs, and whoever else held one still holds it. */
  lemma RetryAfterFailure(s: Site, w: WorkerId, msg: string, now: string)
    requires Inv(s) && w in s.workers
    ensures var s1 := Next(s, FailWrite(w, msg, now));
            var t, n := Exec(s1, Attempt(w)), Arn(s.workflow, Name(s.payload, Executions(s)));
            && n !in Executions(s) && Executions(t) == Executions(s) + [n] && StateOf(t) == Some(Claimed)
            && t.begun == s.begun + {n} && t.reported == s.reported && n !in s.begun
            && t.workers.Keys == s.workers.Keys
            && forall v | v in s.workers && v != w :: t.workers[v] == s.workers[v]
  {
    RetryBeginsFresh(Next(s, FailWrite(w, msg, now)), w);
  }

  /** The continuation that starts a second execution beside the one a harmful failure write left behind. */
  lemma HarmfulFailureContinues(s: Site, w: WorkerId, msg: string, now: string) returns (ls: seq<Label>)
    requires Inv(s) && w in s.workers && !FailureIsHarmless(s, w)
    ensures NoFailWrite(ls)
    ensures !SingleExecution(Exec(Next(s, FailWrite(w, msg, now)), ls))
  {
    var s1 := Next(s, FailWrite(w, msg, now));
    RetryAfterFailure(s, w, msg, now);
    var t := Exec(s1, Attempt(w));
    assert t.workers.Keys == s.workers.Keys + {w};
    var rest := LastIsBegunToo(s, t, w);
    ls := Attempt(w) + rest;
    ExecConcat(s1, Attempt(w), rest);
    TwoAreActive(Exec(t, rest), Arn(s.workflow, Name(s.payload, Executions(s))), Last(Executions(s)));
  }

  lemma TwoAreActive(u: Site, a: Arn, b: Arn)
    requires Active(u, a) && Active(u, b) && a != b
    ensures !SingleExecution(u)
  {
  }

  /** The exact condition: a failure write is safe if and only if it is harmless. */
  lemma FailWriteSafeIff(s: Site, w: WorkerId, msg: string, now: string)
    requires Inv(s) && w in s.workers
    ensures SafeFromHere(Next(s, FailWrite(w, msg, now))) <==> FailureIsHarmless(s, w)
  {
    var s1 := Next(s, FailWrite(w, msg, now));
    if FailureIsHarmless(s, w) {
      FailWriteKeepsInv(s, w, msg, now);
      forall ls | NoFailWrite(ls) ensures SingleExecution(Exec(s1, ls)) {
        NoFailWriteIsGuarded(s1, ls);
        RunKeepsInv(s1, ls);
        InvGivesSingleExecution(Exec(s1, ls));
      }
    } else {
      var ls := HarmfulFailureContinues(s, w, msg, now);
      assert NoFailWrite(ls) && !SingleExecution(Exec(s1, ls));
    }
  }

  lemma {:induction false} RunKeepsErrors(s: Site, ls: seq<Label>)
    requires Inv(s) && ErrorMatchesState(s) && Guarded(s, ls)
    ensures ErrorMatchesState(Exec(s, ls))
    decreases |ls|
  {
    if ls != [] {
      StepKeepsInv(s, ls[0]);
      if ls[0].Report? && Active(s, ls[0].arn) {
        ReportKeepsInv(s, ls[0].arn, ls[0].outcome, ls[0].now);
      }
      RunKeepsErrors(Next(s, ls[0]), ls[1..]);
    }
  }

  /**
   The terminal writes are unconditional, yet in a guarded run each lands on a CLAIMED or PROCESSING row, reports
   on its most recent entry, and leaves an error exactly on FAILED and INVALID.
   */
  lemma {:induction false} TerminalWritesLandOnTheClaim(payload: string, workflow: string, ls: seq<Label>,
                                                        arn: Arn, outcome: Outcome, now: string)
    requires Guarded(Init(payload, workflow), ls)
    requires Active(Exec(Init(payload, workflow), ls), arn)
    ensures var s := Exec(Init(payload, workflow), ls);
            var t := Next(s, Report(arn, outcome, now));
            && StateOf(s) in {Some(Claimed), Some(Processing)}
            && Executions(s) != [] && arn == Last(Executions(s))
            && ErrorMatchesState(s) && ErrorMatchesState(t)
            && forall a :: !Active(t, a)
  {
    var s := Exec(Init(payload, workflow), ls);
    RunKeepsInv(Init(payload, workflow), ls);
    RunKeepsErrors(Init(payload, workflow), ls);
    ReportKeepsInv(s, arn, outcome, now);
    InvGivesSingleExecution(s);
    InvGivesSingleExecution(Next(s, Report(arn, outcome, now)));
  }

  /** Which terminal writes keep the error in step with the state: all but a success or abort over an old error. */
  lemma ReportKeepsErrorIff(s: Site, arn: Arn, outcome: Outcome, now: string)
    requires ErrorMatchesState(s) && Active(s, arn)
    ensures ErrorMatchesState(Next(s, Report(arn, outcome, now))) <==>
            !((outcome.RunSucceeded? || outcome.RunAborted?) && StateOf(s) in {Some(Failed), Some(Invalid)})
  {
  }

  /** A first worker that claims and then gives up before starting anything. */
  function GivesUp(workflow: string): seq<Label> {
    [Snapshot(0, false, workflow), Claim(0, "", true)] + [FailWrite(0, "upload failed", "")]
  }

  lemma AfterGivingUp(payload: string, workflow: string)
    ensures Exec(Init(payload, workflow), GivesUp(workflow)) ==
            Init(payload, workflow).(record := Some(Record(
              Failed, "", "", Some(""), [Arn(workflow, Name(payload, []))], Some("upload failed"), None)))
  {
    var s := Init(payload, workflow);
    var s2 := Next(Next(s, Snapshot(0, false, workflow)), Claim(0, "", true));
    ExecTwo(s, Snapshot(0, false, workflow), Claim(0, "", true));
    ExecConcat(s, [Snapshot(0, false, workflow), Claim(0, "", true)], [FailWrite(0, "upload failed", "")]);
    assert Exec(s2, [FailWrite(0, "upload failed", "")]) == Exec(Next(s2, FailWrite(0, "upload failed", "")), []);
    assert Executions(s2) == [Arn(workflow, Name(payload, []))];
    assert Next(s2, FailWrite(0, "upload failed", "")).workers == map[];
  }

  /** The outcomes after which `skipping` has no event for the row. */
  predicate ClosesBadly(outcome: Outcome) {
    outcome.RunAborted? || outcome.RunTimedOut? || (outcome.RunFailed? && outcome.error !in INVALID_EXCEPTIONS)
  }

  /** Worker 0 looks an unknown payload up, claims it, uploads the input and starts the execution. */
  function FirstStart(workflow: string): seq<Label> {
    [Snapshot(0, false, workflow), Claim(0, "", true), Upload(0), Start(0, true)]
  }

  lemma AfterFirstStart(payload: string, workflow: string)
    ensures var first := Arn(workflow, Name(payload, []));
            Exec(Init(payload, workflow), FirstStart(workflow)) ==
            Site(payload, workflow, Some(Record(Claimed, "", "", Some(""), [first], None, None)),
                 map[0 := Worker(Launched, None, [], first)], {first}, {}, {first.name})
  {
    var s := Init(payload, workflow);
    var first := Arn(workflow, Name(payload, []));
    var s2 := Next(Next(s, Snapshot(0, false, workflow)), Claim(0, "", true));
    assert Executions(s2) == [first] && s2.workers == map[0 := Worker(Holding, None, [], first)];
    var s3 := Next(s2, Upload(0));
    assert s3.workers == map[0 := Worker(Uploaded, None, [], first)];
    ExecFour(s, Snapshot(0, false, workflow), Claim(0, "", true), Upload(0), Start(0, true));
  }

  /**
   An execution may close before its starter's second write.  The row that write then meets is FAILED or ABORTED, and
   announcing the skip raises, exactly for these outcomes.
   */
  lemma ClosesBeforeSecondWrite(payload: string, workflow: string, outcome: Outcome, now: string)
    ensures var first := Arn(workflow, Name(payload, []));
            var ls := FirstStart(workflow) + [Report(first, outcome, now)];
            var t := Exec(Init(payload, workflow), ls);
            && NoFailWrite(ls) && InPhase(t, 0, Launched) && t.record.Some?
            && (SkipRaises(t.record.value.state) <==> ClosesBadly(outcome))
  {
    var first := Arn(workflow, Name(payload, []));
    var s := Exec(Init(payload, workflow), FirstStart(workflow));
    AfterFirstStart(payload, workflow);
    ExecConcat(Init(payload, workflow), FirstStart(workflow), [Report(first, outcome, now)]);
    ExecOne(s, Report(first, outcome, now));
  }

  /** A concrete run: the name that failed before starting is adopted later and runs beside the second one. */
  lemma DeadFirstNameRunsBesideTheSecond(payload: string, workflow: string)
    ensures var t := Exec(Init(payload, workflow), GivesUp(workflow) + (Attempt(0) + ([Crash(0)] + Attempt(0))));
            var first := Arn(workflow, Name(payload, []));
            Active(t, first) && Active(t, Arn(workflow, Name(payload, [first])))
  {
    var s := Exec(Init(payload, workflow), GivesUp(workflow));
    var t := Exec(s, Attempt(0));
    AfterGivingUp(payload, workflow);
    RetryBeginsFresh(s, 0);
    AdoptionBeginsFirst(Next(t, Crash(0)), 0);
    assert ([Crash(0)] + Attempt(0))[1..] == Attempt(0);
    ExecConcat(Init(payload, workflow), GivesUp(workflow), Attempt(0) + ([Crash(0)] + Attempt(0)));
    ExecConcat(s, Attempt(0), [Crash(0)] + Attempt(0));
  }
}
