/**
 The claim / start / finish protocol around one state record.  Any number of `process` workers and the
 `update-state` function act on a `Site`; every shared-state access of the code is one label.  A label that
 does not apply in a state leaves it unchanged, so every sequence of labels is a run.
 */
module Protocol {
  import opened Wrappers
  import opened Records

  type WorkerId = nat

  datatype Phase = Planned | Holding | Uploaded | Launched

  /** A worker between its state lookup and the end of its call; `prev` and `seen` are what the lookup returned. */
  datatype Worker = Worker(phase: Phase, prev: Option<State>, seen: seq<Arn>, arn: Arn)

  /**
   Everything kept for one payload id: its table row, the workers acting on it, the executions Step Functions
   has begun, those whose closing event was handled, and the names under which an input was uploaded.
   `workflow` is the workflow part of the table key.
   */
  datatype Site = Site(
    payload: string,
    workflow: string,
    record: Option<Record>,
    workers: map<WorkerId, Worker>,
    begun: set<Arn>,
    reported: set<Arn>,
    uploads: set<Name>)

  /**
   `acked` is false when a write took effect, or was refused, but the worker never saw the reply and so stays
   where it was.  `FailWrite` is the FAILED write of `_fail_and_raise` and of a missing state machine.
   */
  datatype Label =
    | Snapshot(w: WorkerId, replace: bool, workflow: string)
    | Claim(w: WorkerId, now: string, acked: bool)
    | Upload(w: WorkerId)
    | Start(w: WorkerId, acked: bool)
    | SetProcessing(w: WorkerId, now: string, acked: bool)
    | FailWrite(w: WorkerId, msg: string, now: string)
    | Crash(w: WorkerId)
    | Report(arn: Arn, outcome: Outcome, now: string)

  function Init(payload: string, workflow: string): Site {
    Site(payload, workflow, None, map[], {}, {}, {})
  }

  function Executions(s: Site): seq<Arn> {
    if s.record.Some? then s.record.value.executions else []
  }

  function StateOf(s: Site): Option<State> {
    if s.record.Some? then Some(s.record.value.state) else None
  }

  /** Begun and not yet closed by a handled event. */
  predicate Active(s: Site, a: Arn) {
    a in s.begun && a !in s.reported
  }

  /** The worker may still call StartExecution for this arn. */
  predicate Holds(s: Site, w: WorkerId, a: Arn) {
    w in s.workers && s.workers[w].arn == a && (s.workers[w].phase.Holding? || s.workers[w].phase.Uploaded?)
  }

  predicate InPhase(s: Site, w: WorkerId, phase: Phase) {
    w in s.workers && s.workers[w].phase == phase
  }

  predicate Eligible(prev: Option<State>, replace: bool) {
    replace || prev.None? || prev.value.Failed? || prev.value.Aborted? || prev.value.Claimed?
  }

  /**
   The execution a lookup plans: the last recorded one for a CLAIMED row, otherwise a name derived from the
   row's list.  Without a row the workflow comes from the payload rather than from the table key.
   */
  function Plan(s: Site, workflow: string): Arn {
    if s.record.None? then Arn(workflow, Name(s.payload, []))
    else
      var r := s.record.value;
      if r.state.Claimed? && r.executions != [] then r.executions[|r.executions| - 1]
      else Arn(s.workflow, Name(s.payload, r.executions))
  }

  function Drop(s: Site, w: WorkerId): Site {
    s.(workers := s.workers - {w})
  }

  function Move(s: Site, w: WorkerId, phase: Phase): Site
    requires w in s.workers
  {
    s.(workers := s.workers[w := s.workers[w].(phase := phase)])
  }

  /** `_claim`: the conditional write, or adoption of the first recorded execution of a CLAIMED row. */
  function ClaimStep(s: Site, w: WorkerId, now: string, acked: bool): Site
    requires InPhase(s, w, Planned)
  {
    if ClaimAllowed(s.record) then
      var s1 := s.(record := Some(ClaimWrite(s.record, s.workers[w].arn, now)));
      if acked then Move(s1, w, Holding) else s1
    else if !acked then s
    else if StateOf(s) == Some(Claimed) && Executions(s) != [] then
      s.(workers := s.workers[w := s.workers[w].(phase := Holding, arn := Executions(s)[0])])
    else Drop(s, w)
  }

  function Next(s: Site, l: Label): Site {
    match l
    case Snapshot(w, replace, workflow) =>
      if w !in s.workers && Eligible(StateOf(s), replace)
      then s.(workers := s.workers[w := Worker(Planned, StateOf(s), Executions(s), Plan(s, workflow))])
      else s
    case Claim(w, now, acked) =>
      if InPhase(s, w, Planned) then ClaimStep(s, w, now, acked) else s
    case Upload(w) =>
      if InPhase(s, w, Holding)
      then Move(s, w, Uploaded).(uploads := s.uploads + {s.workers[w].arn.name})
      else s
    case Start(w, acked) =>
      if InPhase(s, w, Uploaded) then
        var s1 := s.(begun := s.begun + {s.workers[w].arn});
        if acked then Move(s1, w, Launched) else s1
      else s
    case SetProcessing(w, now, acked) =>
      if InPhase(s, w, Launched) then
        var s1 := if SetProcessingAllowed(s.record)
                  then s.(record := Some(ProcessingWrite(s.record.value, now))) else s;
        if acked then Drop(s1, w) else s1
      else s
    case FailWrite(w, msg, now) =>
      if w in s.workers then Drop(s, w).(record := Some(FailedWrite(s.record, msg, now))) else s
    case Crash(w) => Drop(s, w)
    case Report(arn, outcome, now) =>
      if Active(s, arn)
      then s.(record := Some(TerminalWrite(s.record, outcome, now)), reported := s.reported + {arn})
      else s
  }

  function Exec(s: Site, ls: seq<Label>): Site
    decreases |ls|
  {
    if ls == [] then s else Exec(Next(s, ls[0]), ls[1..])
  }

  lemma {:induction false} ExecConcat(s: Site, a: seq<Label>, b: seq<Label>)
    ensures Exec(s, a + b) == Exec(Exec(s, a), b)
    decreases |a|
  {
    if a == [] {
      assert a + b == b;
    } else {
      assert (a + b)[0] == a[0] && (a + b)[1..] == a[1..] + b;
      ExecConcat(Next(s, a[0]), a[1..], b);
    }
  }

  lemma {:induction false} ExecOne(s: Site, l: Label)
    ensures Exec(s, [l]) == Next(s, l)
  {
    assert Exec(s, [l]) == Exec(Next(s, l), [l][1..]);
  }

  lemma {:induction false} ExecTwo(s: Site, a: Label, b: Label)
    ensures Exec(s, [a, b]) == Next(Next(s, a), b)
  {
    assert [a, b][1..] == [b] && [b][1..] == [];
    assert Exec(s, [a, b]) == Exec(Next(s, a), [b]);
    assert Exec(Next(s, a), [b]) == Exec(Next(Next(s, a), b), []);
  }
}
