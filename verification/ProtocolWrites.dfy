/** What the row says about the run that led to it, and which rows are taken up again. */
module ProtocolWrites {
  import opened Wrappers
  import opened Records
  import opened Protocol
  import opened ProtocolSafety
  import opened ProtocolHistory

  /** The label writes the row: a conditional write only if it is accepted. */
  predicate Writes(s: Site, l: Label) {
    match l
    case Claim(w, _, _) => InPhase(s, w, Planned) && StateOf(s) !in {Some(Processing), Some(Claimed)}
    case SetProcessing(w, _, _) => InPhase(s, w, Launched) && StateOf(s) == Some(Claimed)
    case FailWrite(w, _, _) => w in s.workers
    case Report(arn, _, _) => arn in s.begun && arn !in s.reported
    case _ => false
  }

  /** The last label of a run that wrote the row. */
  function LastWrite(s: Site, ls: seq<Label>): (l: Option<Label>)
    ensures l.Some? ==> l.value.Claim? || l.value.SetProcessing? || l.value.FailWrite? || l.value.Report?
    decreases |ls|
  {
    if ls == [] then None else
      var later := LastWrite(Next(s, ls[0]), ls[1..]);
      if later.Some? then later else if Writes(s, ls[0]) then Some(ls[0]) else None
  }

  /** The last label of a run that won a claim. */
  function LastClaim(s: Site, ls: seq<Label>): (l: Option<Label>)
    ensures l.Some? ==> l.value.Claim?
    decreases |ls|
  {
    if ls == [] then None else
      var later := LastClaim(Next(s, ls[0]), ls[1..]);
      if later.Some? then later else if ls[0].Claim? && Writes(s, ls[0]) then Some(ls[0]) else None
  }

  /** What a row looks like when this was the last write, whatever it was before. */
  ghost predicate WrittenBy(row: Record, l: Label) {
    match l
    case Claim(_, now, _) =>
      && row.state == Claimed && row.updated == now && row.claimedAt == Some(now)
      && row.lastError == None && row.outputs == None && row.executions != []
    case SetProcessing(_, now, _) => row.state == Processing && row.updated == now
    case FailWrite(_, msg, now) => row.state == Failed && row.updated == now && row.lastError == Some(msg)
    case Report(_, outcome, now) =>
      && row.updated == now
      && (outcome.RunSucceeded? ==> row.state == Succeeded)
      && (outcome.RunAborted? ==> row.state == Aborted)
      && (outcome.RunTimedOut? ==>
            row.state == Failed && row.lastError == Some("TimedOutError: " + "The step function execution timed out."))
      && (outcome.RunFailed? ==>
            && row.lastError == Some(outcome.error + ": " + outcome.message)
            && (row.state == if outcome.error == "cirrus.lib.errors.InvalidInput" ||
                                outcome.error == "stactask.exceptions.InvalidInput" then Invalid else Failed))
    case _ => false
  }

  lemma StepWrites(s: Site, l: Label)
    ensures if Writes(s, l) then Next(s, l).record.Some? && WrittenBy(Next(s, l).record.value, l)
            else Next(s, l).record == s.record
  {
  }

  /** In every run the row is what its last accepted write made of it; without one it never moved. */
  lemma {:induction false} RowTellsLastWrite(s: Site, ls: seq<Label>)
    ensures var t, l := Exec(s, ls), LastWrite(s, ls);
            if l.Some? then t.record.Some? && WrittenBy(t.record.value, l.value) else t.record == s.record
    decreases |ls|
  {
    if ls != [] {
      StepWrites(s, ls[0]);
      RowTellsLastWrite(Next(s, ls[0]), ls[1..]);
    }
  }

  function ClaimedAtOf(s: Site): Option<string> {
    if s.record.Some? then s.record.value.claimedAt else None
  }

  lemma StepKeepsClaimedAt(s: Site, l: Label)
    ensures ClaimedAtOf(Next(s, l)) == if l.Claim? && Writes(s, l) then Some(l.now) else ClaimedAtOf(s)
  {
  }

  /** In every run the claim time is that of the last claim won; no other write touches it. */
  lemma {:induction false} ClaimedAtTellsLastClaim(s: Site, ls: seq<Label>)
    ensures ClaimedAtOf(Exec(s, ls)) ==
            if LastClaim(s, ls).Some? then Some(LastClaim(s, ls).value.now) else ClaimedAtOf(s)
    decreases |ls|
  {
    if ls != [] {
      StepKeepsClaimedAt(s, ls[0]);
      ClaimedAtTellsLastClaim(Next(s, ls[0]), ls[1..]);
    }
  }

  // Which rows are taken up.

  /**
   A lookup takes a row up exactly when it is missing, FAILED, ABORTED or CLAIMED, or the payload is to be replaced;
   it plans the last execution of a CLAIMED row, and otherwise a name made from the whole list.
   */
  lemma LookupTakesUpIff(s: Site, w: WorkerId, replace: bool, workflow: string)
    requires w !in s.workers
    ensures var t := Next(s, Snapshot(w, replace, workflow));
            && (w in t.workers <==>
                  replace || s.record.None? || s.record.value.state in {Failed, Aborted, Claimed})
            && (w in t.workers ==>
                  var x := t.workers[w];
                  && x.phase == Planned
                  && (s.record.None? ==> x.prev == None && x.seen == [] && x.arn == Arn(workflow, Name(s.payload, [])))
                  && (s.record.Some? ==>
                        var r := s.record.value;
                        && x.prev == Some(r.state) && x.seen == r.executions
                        && x.arn == if r.state == Claimed && r.executions != [] then r.executions[|r.executions| - 1]
                                    else Arn(s.workflow, Name(s.payload, r.executions))))
  {
  }

  predicate NoReplace(ls: seq<Label>) {
    forall i | 0 <= i < |ls| :: ls[i].Snapshot? ==> !ls[i].replace
  }

  lemma NothingRuns(s: Site, a: Arn)
    requires Inv(s) && !Claiming(s)
    ensures !Active(s, a)
  {
    if a in s.begun {
      assert Dead(s, a);
    }
  }

  lemma IdleStep(s: Site, l: Label)
    requires Inv(s) && s.workers == map[] && StateOf(s) in {Some(Succeeded), Some(Invalid)}
    requires l.Snapshot? ==> !l.replace
    ensures Next(s, l) == s
  {
    if l.Crash? {
      assert s.workers - {l.w} == map[];
    }
    if l.Report? {
      NothingRuns(s, l.arn);
    }
  }

  /** With nobody at work and nobody replacing, a SUCCEEDED or INVALID row stays as it is for good. */
  lemma {:induction false} FinishedRowStays(s: Site, ls: seq<Label>)
    requires Inv(s) && s.workers == map[] && StateOf(s) in {Some(Succeeded), Some(Invalid)} && NoReplace(ls)
    ensures Exec(s, ls) == s
    decreases |ls|
  {
    if ls != [] {
      IdleStep(s, ls[0]);
      FinishedRowStays(s, ls[1..]);
    }
  }

  lemma {:induction false} IdleWorkerClaims(s: Site)
    requires s.workers == map[] && StateOf(s) in {None, Some(Failed), Some(Aborted)}
    ensures |Executions(Exec(s, [Snapshot(0, false, ""), Claim(0, "", true)]))| == |Executions(s)| + 1
  {
    ExecTwo(s, Snapshot(0, false, ""), Claim(0, "", true));
  }

  /** With nobody at work, only a missing, FAILED or ABORTED row can be claimed again without replacing. */
  lemma {:induction false} TakenUpAgainIff(s: Site)
    requires Inv(s) && s.workers == map[] && !Claiming(s)
    ensures (exists ls :: NoReplace(ls) && Executions(Exec(s, ls)) != Executions(s)) <==>
            StateOf(s) in {None, Some(Failed), Some(Aborted)}
  {
    if StateOf(s) in {None, Some(Failed), Some(Aborted)} {
      var ls := [Snapshot(0, false, ""), Claim(0, "", true)];
      IdleWorkerClaims(s);
      assert NoReplace(ls) && Executions(Exec(s, ls)) != Executions(s);
    } else {
      forall ls | NoReplace(ls) ensures Executions(Exec(s, ls)) == Executions(s) {
        FinishedRowStays(s, ls);
      }
    }
  }
}
