/** The `update-state` function: what the closing event of an execution writes and announces. */
module UpdateState {
  import opened Wrappers
  import opened Records
  import opened PayloadIds
  import opened StateTable
  import opened Events

  datatype Status = StatusSucceeded | StatusFailed | StatusAborted | StatusTimedOut | OtherStatus

  /** The text of a cause, and what reading it as JSON gives: an error message, no error message, or an exception. */
  datatype Parsed = Message(message: string) | NoMessage | Unreadable

  datatype Cause = Cause(text: string, parsed: Parsed)

  /** An execution that succeeds may come without an output; storing it may raise. */
  datatype Upload = NoOutput | Uploaded | UploadRaised

  /**
   The part of the event that decides; empty strings stand for what is missing or empty.  An event that is not readable
   lacks its input or output details, or holds no valid payload.
   */
  datatype Closing = Closing(readable: bool, status: Status, error: string, cause: Cause, upload: Upload)

  datatype ExecutionError = ExecutionError(error: string, cause: Cause)

  datatype UpdateError = Malformed | OutputNotStored | Unsupported | Refused(error: CallError)

  const NO_CAUSE :=
    "No error cause was found in the event. Check that the 'Fail' state in the workflow step function "
    + "definition includes 'ErrorPath' and 'CausePath' fields that capture the error name and error cause."

  const TIMEOUT := ExecutionError("TimedOutError", Cause(TIMEOUT_CAUSE, Unreadable))

  function GetExecutionError(e: Closing): ExecutionError {
    ExecutionError(if e.error == "" then "Unknown" else e.error,
                   if e.cause.text == "" then Cause(NO_CAUSE, Unreadable) else e.cause)
  }

  function ErrorMessage(cause: Cause): string {
    match cause.parsed
    case Message(m) => m
    case NoMessage => "unknown"
    case Unreadable => cause.text
  }

  /** How the protocol sees the event: not at all, if it cannot be read, updated for, or its output stored. */
  function OutcomeOf(e: Closing): Option<Outcome> {
    if !e.readable then None else
    match e.status
    case StatusSucceeded => if e.upload.UploadRaised? then None else Some(RunSucceeded)
    case StatusAborted => Some(RunAborted)
    case StatusTimedOut => Some(RunTimedOut)
    case StatusFailed =>
      var x := GetExecutionError(e);
      Some(RunFailed(x.error, ErrorMessage(x.cause)))
    case OtherStatus => None
  }

  /** Which event announces an outcome; an execution may also fail under the name of a timeout. */
  function EventOf(outcome: Outcome): EventType {
    match outcome
    case RunSucceeded => EventSucceeded
    case RunAborted => EventAborted
    case RunTimedOut => EventType.TimedOut
    case RunFailed(error, _) =>
      if error in INVALID_EXCEPTIONS then EventInvalid
      else if error == "TimedOutError" then EventType.TimedOut
      else EventFailed
  }

  method WorkflowFailed(manager: EventManager, payload: string, x: ExecutionError, now: string)
    returns (r: Result<(), CallError>)
    requires manager.Valid()
    modifies manager.db, manager.publisher
    ensures manager.Valid()
    ensures match PayloadIdToKey(payload)
            case Failure(_) => r.Failure? && manager.db.table == old(manager.db.table)
            case Success(key) =>
              r.Success? && manager.db.table == old(manager.db.table)[key :=
                TerminalWrite(Row(old(manager.db.table), key), RunFailed(x.error, ErrorMessage(x.cause)), now)]
    ensures manager.publisher.added == old(manager.publisher.added) +
              if r.Success? then [Event(EventOf(RunFailed(x.error, ErrorMessage(x.cause))), payload)] else []
  {
    var errorMsg := "unknown";
    match x.cause.parsed {
      case Message(m) => errorMsg := m;
      case NoMessage =>
      case Unreadable => errorMsg := x.cause.text;
    }
    var error := x.error + ": " + errorMsg;
    if x.error in INVALID_EXCEPTIONS {
      r := manager.Invalid(payload, error, now);
    } else if x.error == "TimedOutError" {
      r := manager.TimedOut(payload, error, now);
    } else {
      r := manager.Failed(payload, error, now);
    }
  }

  /** A timeout is a failure with a fixed error. */
  lemma TimeoutIsFailure(was: Option<Record>, now: string)
    ensures TerminalWrite(was, RunFailed(TIMEOUT.error, ErrorMessage(TIMEOUT.cause)), now) ==
            TerminalWrite(was, RunTimedOut, now)
    ensures EventOf(RunFailed(TIMEOUT.error, ErrorMessage(TIMEOUT.cause))) == EventOf(RunTimedOut)
  {
    assert "TimedOutError" + ": " == "TimedOutError: ";
    assert TIMEOUT.error[0] == 'T';
    assert forall name | name in INVALID_EXCEPTIONS :: name[0] != 'T';
  }

  /** What every closing event leaves alone: creation, claim time, executions, outputs; and the new time stamp. */
  ghost predicate ClosedAt(was: Option<Record>, row: Record, now: string) {
    && row.updated == now
    && row.created == (if was.Some? then was.value.created else now)
    && row.claimedAt == (if was.Some? then was.value.claimedAt else None)
    && row.executions == (if was.Some? then was.value.executions else [])
    && row.outputs == (if was.Some? then was.value.outputs else None)
  }

  /** How the cause of a failed execution is worded, from the event alone. */
  ghost predicate WordedAs(cause: Cause, text: string) {
    if cause.text == ""
    then text == "No error cause was found in the event. Check that the 'Fail' state in the workflow step function "
                 + "definition includes 'ErrorPath' and 'CausePath' fields that capture the error name and error cause."
    else match cause.parsed
      case Message(m) => text == m
      case NoMessage => text == "unknown"
      case Unreadable => text == cause.text
  }

  /** The row and the announcement, by the status of the event. */
  ghost predicate ClosedBy(e: Closing, was: Option<Record>, row: Record, announced: EventType) {
    match e.status
    case StatusSucceeded =>
      && row.state == Succeeded && announced == EventSucceeded
      && row.lastError == if was.Some? then was.value.lastError else None
    case StatusAborted =>
      && row.state == Aborted && announced == EventAborted
      && row.lastError == if was.Some? then was.value.lastError else None
    case StatusTimedOut =>
      && row.state == Failed && announced == EventType.TimedOut
      && row.lastError == Some("TimedOutError: " + "The step function execution timed out.")
    case StatusFailed =>
      FailedWith(if e.error == "" then "Unknown" else e.error, e.cause, row, announced)
    case OtherStatus => false
  }

  ghost predicate FailedWith(error: string, cause: Cause, row: Record, announced: EventType) {
    && (exists text :: WordedAs(cause, text) && row.lastError == Some(error + ": " + text))
    && (if error == "cirrus.lib.errors.InvalidInput" || error == "stactask.exceptions.InvalidInput"
        then row.state == Invalid && announced == EventInvalid
        else row.state == Failed && announced == if error == "TimedOutError" then EventType.TimedOut else EventFailed)
  }

  lemma FailureIsWorded(e: Closing, was: Option<Record>, now: string)
    ensures var x := GetExecutionError(e);
            var outcome := RunFailed(x.error, ErrorMessage(x.cause));
            FailedWith(if e.error == "" then "Unknown" else e.error, e.cause,
                       TerminalWrite(was, outcome, now), EventOf(outcome))
  {
    assert WordedAs(e.cause, ErrorMessage(GetExecutionError(e).cause));
  }

  lemma ClosesAsSaid(e: Closing, was: Option<Record>, now: string)
    requires OutcomeOf(e).Some?
    ensures var row := TerminalWrite(was, OutcomeOf(e).value, now);
            ClosedAt(was, row, now) && ClosedBy(e, was, row, EventOf(OutcomeOf(e).value))
  {
    if e.status.StatusFailed? {
      FailureIsWorded(e, was, now);
    }
    TerminalWriteKeepsHistory(was, OutcomeOf(e).value, now);
  }

  /**
   `Execution.from_event` and `update_state`: the row is what the protocol's report step writes, and the announcement
   says the same; an event that is refused, or whose output cannot be stored, leaves no trace.
   */
  method UpdateState(manager: EventManager, payload: string, e: Closing, now: string)
    returns (r: Result<(), UpdateError>)
    requires manager.Valid()
    modifies manager.db, manager.publisher
    ensures manager.Valid()
    ensures r.Success? <==> OutcomeOf(e).Some? && PayloadIdToKey(payload).Success?
    ensures !e.readable ==> r == Failure(Malformed)
    ensures e.readable && e.status.OtherStatus? ==> r == Failure(Unsupported)
    ensures e.readable && e.status.StatusSucceeded? && e.upload.UploadRaised? ==> r == Failure(OutputNotStored)
    ensures r.Failure? ==>
              manager.db.table == old(manager.db.table) && manager.publisher.added == old(manager.publisher.added)
    ensures r.Success? ==>
              var key := PayloadIdToKey(payload).value;
              && manager.db.table == old(manager.db.table)[key :=
                   TerminalWrite(Row(old(manager.db.table), key), OutcomeOf(e).value, now)]
              && manager.publisher.added ==
                 old(manager.publisher.added) + [Event(EventOf(OutcomeOf(e).value), payload)]
    ensures r.Success? <==> PayloadIdToKey(payload).Success? && e.readable && !e.status.OtherStatus? &&
                            !(e.status.StatusSucceeded? && e.upload.UploadRaised?)
    ensures r.Success? ==>
              var key := PayloadIdToKey(payload).value;
              var was := Row(old(manager.db.table), key);
              var log, more := old(manager.publisher.added), manager.publisher.added;
              && key in manager.db.table
              && manager.db.table == old(manager.db.table)[key := manager.db.table[key]]
              && |more| == |log| + 1 && log <= more && more[|log|].payload == payload
              && ClosedAt(was, manager.db.table[key], now)
              && ClosedBy(e, was, manager.db.table[key], more[|log|].eventType)
    ensures r.Success? ==>
              var row := manager.db.table[PayloadIdToKey(payload).value];
              var announced := manager.publisher.added[|old(manager.publisher.added)|].eventType;
              var invalid := e.error in {"cirrus.lib.errors.InvalidInput", "stactask.exceptions.InvalidInput"};
              && (e.status.StatusSucceeded? ==> row.state == Succeeded && announced == EventSucceeded)
              && (e.status.StatusAborted? ==> row.state == Aborted && announced == EventAborted)
              && (e.status.StatusTimedOut? ==> row.state == Failed && announced == EventType.TimedOut)
              && (e.status.StatusFailed? && invalid ==> row.state == Invalid && announced == EventInvalid)
              && (e.status.StatusFailed? && !invalid && e.error != "TimedOutError" ==>
                    row.state == Failed && announced == EventFailed)
              && (e.status.StatusFailed? && e.error != "" && e.cause.text != "" && e.cause.parsed.Message? ==>
                    row.lastError == Some(e.error + ": " + e.cause.parsed.message))
  {
    if !e.readable {
      return Failure(Malformed);
    }
    var d;
    match e.status {
      case StatusSucceeded =>
        if e.upload.UploadRaised? {
          return Failure(OutputNotStored);
        }
        d := manager.Succeeded(payload, now);
      case StatusFailed => d := WorkflowFailed(manager, payload, GetExecutionError(e), now);
      case StatusAborted => d := manager.Aborted(payload, now);
      case StatusTimedOut =>
        if PayloadIdToKey(payload).Success? {
          TimeoutIsFailure(Row(manager.db.table, PayloadIdToKey(payload).value), now);
        }
        d := WorkflowFailed(manager, payload, TIMEOUT, now);
      case OtherStatus => return Failure(Unsupported);
    }
    r := if d.Success? then Success(()) else Failure(Refused(d.error));
    if d.Success? {
      ClosesAsSaid(e, Row(old(manager.db.table), PayloadIdToKey(payload).value), now);
    }
  }

  /** What is announced is the state that is stored, and a failure or timeout leaves its error in the row. */
  lemma AnnouncedAsStored(was: Option<Record>, outcome: Outcome, now: string)
    ensures var row := TerminalWrite(was, outcome, now);
            && Announces(EventOf(outcome)) == Some(row.state)
            && (row.state.Failed? || row.state.Invalid? ==> row.lastError.Some?)
            && (EventOf(outcome) == EventInvalid <==> row.state.Invalid?)
  {
  }
}
