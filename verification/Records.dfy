/** One row of the state table and the update expressions that StateDB sends to DynamoDB. */
module Records {
  import opened Wrappers

  datatype State = Processing | Succeeded | Failed | Invalid | Aborted | Claimed

  /** `uuid5` over the payload id and the list of recorded executions, idealised as an injective constructor. */
  datatype Name = Name(payload: string, history: seq<Arn>)

  /** A Step Functions execution: names are unique within one state machine. */
  datatype Arn = Arn(workflow: string, name: Name)

  /** `state_updated` is always `<state>_<updated>`, so it is not stored twice. */
  datatype Record = Record(
    state: State,
    created: string,
    updated: string,
    claimedAt: Option<string>,
    executions: seq<Arn>,
    lastError: Option<string>,
    outputs: Option<seq<string>>)

  function Blank(was: Option<Record>, state: State, now: string): Record {
    if was.Some?
    then was.value.(state := state, updated := now)
    else Record(state, now, now, None, [], None, None)
  }

  predicate ClaimAllowed(was: Option<Record>) {
    was.None? || (!was.value.state.Processing? && !was.value.state.Claimed?)
  }

  predicate SetProcessingAllowed(was: Option<Record>) {
    was.Some? && was.value.state.Claimed?
  }

  function ClaimWrite(was: Option<Record>, arn: Arn, now: string): Record {
    var r := Blank(was, Claimed, now);
    r.(claimedAt := Some(now), executions := r.executions + [arn], lastError := None, outputs := None)
  }

  function SucceededWrite(was: Option<Record>, outputs: Option<seq<string>>, now: string): Record {
    var r := Blank(was, Succeeded, now);
    if outputs.Some? then r.(outputs := outputs) else r
  }

  function FailedWrite(was: Option<Record>, msg: string, now: string): Record {
    Blank(was, Failed, now).(lastError := Some(msg))
  }

  function InvalidWrite(was: Option<Record>, msg: string, now: string): Record {
    Blank(was, Invalid, now).(lastError := Some(msg))
  }

  function AbortedWrite(was: Option<Record>, now: string): Record {
    Blank(was, Aborted, now)
  }

  function ProcessingWrite(was: Record, now: string): Record {
    was.(state := Processing, updated := now)
  }

  /** Announcing a skip raises for these states: no event is kept for them. */
  predicate SkipRaises(state: State) {
    state.Failed? || state.Aborted?
  }

  /** How a Step Functions execution closed. */
  datatype Outcome =
    | RunSucceeded
    | RunFailed(error: string, message: string)
    | RunAborted
    | RunTimedOut

  const INVALID_EXCEPTIONS: set<string> := {"cirrus.lib.errors.InvalidInput", "stactask.exceptions.InvalidInput"}

  const TIMEOUT_CAUSE := "The step function execution timed out."

  /** The unconditional write `update-state` makes when an execution closes. */
  function TerminalWrite(was: Option<Record>, outcome: Outcome, now: string): Record {
    match outcome
    case RunSucceeded => SucceededWrite(was, None, now)
    case RunAborted => AbortedWrite(was, now)
    case RunTimedOut => FailedWrite(was, "TimedOutError: " + TIMEOUT_CAUSE, now)
    case RunFailed(error, message) =>
      if error in INVALID_EXCEPTIONS then InvalidWrite(was, error + ": " + message, now)
      else FailedWrite(was, error + ": " + message, now)
  }

  /** Every terminal write keeps creation, claim, executions and outputs, and an earlier error unless it has its own. */
  lemma TerminalWriteKeepsHistory(was: Option<Record>, outcome: Outcome, now: string)
    ensures var row := TerminalWrite(was, outcome, now);
            && row.updated == now && !row.state.Claimed? && !row.state.Processing?
            && row.created == (if was.Some? then was.value.created else now)
            && row.executions == (if was.Some? then was.value.executions else [])
            && row.claimedAt == (if was.Some? then was.value.claimedAt else None)
            && row.outputs == (if was.Some? then was.value.outputs else None)
            && row.lastError ==
               match outcome
               case RunFailed(error, message) => Some(error + ": " + message)
               case RunTimedOut => Some("TimedOutError: " + "The step function execution timed out.")
               case _ => if was.Some? then was.value.lastError else None
    ensures TerminalWrite(was, outcome, now).state.Succeeded? <==> outcome.RunSucceeded?
    ensures TerminalWrite(was, outcome, now).state.Aborted? <==> outcome.RunAborted?
    ensures TerminalWrite(was, outcome, now).state.Invalid? <==>
            outcome.RunFailed? && (outcome.error == "cirrus.lib.errors.InvalidInput" ||
                                   outcome.error == "stactask.exceptions.InvalidInput")
  {
  }
}
