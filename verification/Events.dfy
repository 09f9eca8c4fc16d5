/** `WorkflowEventManager`: each transition is written to the state table and then announced. */
module Events {
  import opened Wrappers
  import opened Records
  import opened PayloadIds
  import opened StateTable
  import opened BatchHandling

  datatype EventType =
    | ClaimedProcessing | StartedProcessing | EventFailed | TimedOut | EventSucceeded | EventInvalid | EventAborted
    | AlreadyInvalid | AlreadyProcessing | AlreadyClaimed | AlreadySucceeded | DuplicateIdEncountered

  datatype Event = Event(eventType: EventType, payload: string)

  datatype CallError = Database(error: DbError) | KeyError

  /** The state an event announces; the ALREADY_* and duplicate events announce none. */
  function Announces(t: EventType): Option<State> {
    match t
    case ClaimedProcessing => Some(Claimed)
    case StartedProcessing => Some(Processing)
    case EventFailed => Some(Failed)
    case TimedOut => Some(Failed)
    case EventSucceeded => Some(Succeeded)
    case EventInvalid => Some(Invalid)
    case EventAborted => Some(Aborted)
    case _ => None
  }

  function ApplyEvent(states: map<Key, State>, e: Event): map<Key, State> {
    if Announces(e.eventType).Some? && PayloadIdToKey(e.payload).Success?
    then states[PayloadIdToKey(e.payload).value := Announces(e.eventType).value]
    else states
  }

  /** What a listener knows who started from `states` and heard `events`. */
  function Replay(states: map<Key, State>, events: seq<Event>): map<Key, State> {
    if events == [] then states else ApplyEvent(Replay(states, events[..|events| - 1]), events[|events| - 1])
  }

  function States(table: map<Key, Record>): map<Key, State> {
    map key | key in table :: table[key].state
  }

  /** `state2event`: FAILED and ABORTED have no entry. */
  function SkipEvent(state: State): (t: Option<EventType>)
    ensures t.None? <==> SkipRaises(state)
  {
    match state
    case Invalid => Some(AlreadyInvalid)
    case Processing => Some(AlreadyProcessing)
    case Claimed => Some(AlreadyClaimed)
    case Succeeded => Some(AlreadySucceeded)
    case _ => None
  }

  lemma {:induction false} ReplayOneMore(states: map<Key, State>, events: seq<Event>, e: Event)
    ensures Replay(states, events + [e]) == ApplyEvent(Replay(states, events), e)
  {
    assert (events + [e])[..|events|] == events;
  }

  lemma StateWritten(table: map<Key, Record>, key: Key, row: Record)
    ensures States(table[key := row]) == States(table)[key := row.state]
  {
  }

  /** One call on the manager. */
  datatype Call =
    | CallClaim(payload: string, arn: Arn, now: string)
    | CallStarted(payload: string, now: string)
    | CallSkipping(payload: string, state: State)
    | CallDuplicated(payload: string)
    | CallFailed(payload: string, msg: string, now: string)
    | CallTimedOut(payload: string, msg: string, now: string)
    | CallSucceeded(payload: string, now: string)
    | CallInvalid(payload: string, msg: string, now: string)
    | CallAborted(payload: string, now: string)

  class EventManager {
    const db: StateDb
    const publisher: BatchHandler<Event>
    /** The states when this manager was created. */
    ghost const base: map<Key, State>

    constructor (db: StateDb, batchSize: int)
      ensures Valid() && this.db == db && fresh(publisher) && base == States(db.table)
      ensures publisher.batchSize == batchSize
    {
      this.db := db;
      base := States(db.table);
      publisher := new BatchHandler<Event>(batchSize);
    }

    /** The log of announcements, buffered ones included, replays to the stored states. */
    ghost predicate Valid()
      reads this, db, publisher
    {
      publisher.Valid() && States(db.table) == Replay(base, publisher.added)
    }

    /** Announcing what was just written, or an event that changes nothing. */
    method Announce(e: Event)
      requires publisher.Valid()
      requires States(db.table) == ApplyEvent(Replay(base, publisher.added), e)
      modifies publisher
      ensures Valid() && publisher.added == old(publisher.added) + [e]
    {
      ReplayOneMore(base, publisher.added, e);
      publisher.Add(e);
    }

    method AnnounceNoChange(e: Event)
      requires Valid() && Announces(e.eventType).None?
      modifies publisher
      ensures Valid() && publisher.added == old(publisher.added) + [e]
    {
      Announce(e);
    }

    /** What every state change does once the table has answered `d`: a written row is announced. */
    method AnnounceWrite(d: Result<(), DbError>, t: EventType, payload: string, ghost before: map<Key, Record>)
      returns (r: Result<(), CallError>)
      requires publisher.Valid() && States(before) == Replay(base, publisher.added)
      requires d.Failure? ==> db.table == before
      requires d.Success? ==>
                 && PayloadIdToKey(payload).Success?
                 && var key := PayloadIdToKey(payload).value;
                 && key in db.table && db.table == before[key := db.table[key]]
                 && Announces(t) == Some(db.table[key].state)
      modifies publisher
      ensures Valid() && (r.Success? <==> d.Success?)
      ensures publisher.added == old(publisher.added) + if d.Success? then [Event(t, payload)] else []
    {
      match d
      case Failure(error) => r := Failure(Database(error));
      case Success(_) =>
        StateWritten(before, PayloadIdToKey(payload).value, db.table[PayloadIdToKey(payload).value]);
        Announce(Event(t, payload));
        r := Success(());
    }

    method ClaimProcessing(payload: string, arn: Arn, now: string) returns (r: Result<(), CallError>)
      requires Valid()
      modifies db, publisher
      ensures Valid()
      ensures publisher.added == old(publisher.added) + if r.Success? then [Event(ClaimedProcessing, payload)] else []
      ensures match PayloadIdToKey(payload)
              case Failure(_) => r.Failure?
              case Success(key) =>
                var was := Row(old(db.table), key);
                && (r.Success? <==> was.None? || was.value.state !in {Processing, Claimed})
                && (r.Success? ==>
                      db.table == old(db.table)[key :=
                        Record(Claimed, if was.Some? then was.value.created else now, now, Some(now),
                               (if was.Some? then was.value.executions else []) + [arn], None, None)])
      ensures r.Failure? ==> db.table == old(db.table)
    {
      var d := db.ClaimProcessing(payload, arn, now);
      r := AnnounceWrite(d, ClaimedProcessing, payload, old(db.table));
    }

    method StartedProcessing(payload: string, now: string) returns (r: Result<(), CallError>)
      requires Valid()
      modifies db, publisher
      ensures Valid()
      ensures publisher.added ==
              old(publisher.added) + if r.Success? then [Event(EventType.StartedProcessing, payload)] else []
      ensures match PayloadIdToKey(payload)
              case Failure(_) => r.Failure?
              case Success(key) =>
                var was := Row(old(db.table), key);
                && (r.Success? <==> was.Some? && was.value.state == Claimed)
                && (r.Success? ==> db.table == old(db.table)[key := was.value.(state := Processing, updated := now)])
      ensures r.Failure? ==> db.table == old(db.table)
    {
      var d := db.SetProcessing(payload, now);
      r := AnnounceWrite(d, EventType.StartedProcessing, payload, old(db.table));
    }

    /** Raises for a FAILED or ABORTED row, announcing nothing. */
    method Skipping(payload: string, state: State) returns (r: Result<(), CallError>)
      requires Valid()
      modifies publisher
      ensures Valid()
      ensures r == if state.Failed? || state.Aborted? then Failure(KeyError) else Success(())
      ensures state.Failed? || state.Aborted? ==> publisher.added == old(publisher.added)
      ensures state.Invalid? ==> publisher.added == old(publisher.added) + [Event(AlreadyInvalid, payload)]
      ensures state.Processing? ==> publisher.added == old(publisher.added) + [Event(AlreadyProcessing, payload)]
      ensures state.Claimed? ==> publisher.added == old(publisher.added) + [Event(AlreadyClaimed, payload)]
      ensures state.Succeeded? ==> publisher.added == old(publisher.added) + [Event(AlreadySucceeded, payload)]
    {
      var t := SkipEvent(state);
      if t.None? {
        return Failure(KeyError);
      }
      AnnounceNoChange(Event(t.value, payload));
      r := Success(());
    }

    method Duplicated(payload: string)
      requires Valid()
      modifies publisher
      ensures Valid() && publisher.added == old(publisher.added) + [Event(DuplicateIdEncountered, payload)]
    {
      AnnounceNoChange(Event(DuplicateIdEncountered, payload));
    }

    method Failed(payload: string, msg: string, now: string) returns (r: Result<(), CallError>)
      requires Valid()
      modifies db, publisher
      ensures Valid() && (r.Success? <==> PayloadIdToKey(payload).Success?)
      ensures match PayloadIdToKey(payload)
              case Failure(_) => db.table == old(db.table)
              case Success(key) =>
                var was := Row(old(db.table), key);
                db.table == old(db.table)[key :=
                  if was.Some? then was.value.(state := State.Failed, updated := now, lastError := Some(msg))
                  else Record(State.Failed, now, now, None, [], Some(msg), None)]
      ensures publisher.added == old(publisher.added) + if r.Success? then [Event(EventFailed, payload)] else []
    {
      var d := db.SetFailed(payload, msg, now);
      r := AnnounceWrite(d, EventFailed, payload, old(db.table));
    }

    method TimedOut(payload: string, msg: string, now: string) returns (r: Result<(), CallError>)
      requires Valid()
      modifies db, publisher
      ensures Valid() && (r.Success? <==> PayloadIdToKey(payload).Success?)
      ensures match PayloadIdToKey(payload)
              case Failure(_) => db.table == old(db.table)
              case Success(key) =>
                var was := Row(old(db.table), key);
                db.table == old(db.table)[key :=
                  if was.Some? then was.value.(state := State.Failed, updated := now, lastError := Some(msg))
                  else Record(State.Failed, now, now, None, [], Some(msg), None)]
      ensures publisher.added == old(publisher.added) + if r.Success? then [Event(EventType.TimedOut, payload)] else []
    {
      var d := db.SetFailed(payload, msg, now);
      r := AnnounceWrite(d, EventType.TimedOut, payload, old(db.table));
    }

    method Succeeded(payload: string, now: string) returns (r: Result<(), CallError>)
      requires Valid()
      modifies db, publisher
      ensures Valid() && (r.Success? <==> PayloadIdToKey(payload).Success?)
      ensures match PayloadIdToKey(payload)
              case Failure(_) => db.table == old(db.table)
              case Success(key) =>
                var was := Row(old(db.table), key);
                db.table == old(db.table)[key :=
                  if was.Some? then was.value.(state := State.Succeeded, updated := now)
                  else Record(State.Succeeded, now, now, None, [], None, None)]
      ensures publisher.added == old(publisher.added) + if r.Success? then [Event(EventSucceeded, payload)] else []
    {
      var d := db.SetSucceeded(payload, None, now);
      r := AnnounceWrite(d, EventSucceeded, payload, old(db.table));
    }

    method Invalid(payload: string, msg: string, now: string) returns (r: Result<(), CallError>)
      requires Valid()
      modifies db, publisher
      ensures Valid() && (r.Success? <==> PayloadIdToKey(payload).Success?)
      ensures match PayloadIdToKey(payload)
              case Failure(_) => db.table == old(db.table)
              case Success(key) =>
                var was := Row(old(db.table), key);
                db.table == old(db.table)[key :=
                  if was.Some? then was.value.(state := State.Invalid, updated := now, lastError := Some(msg))
                  else Record(State.Invalid, now, now, None, [], Some(msg), None)]
      ensures publisher.added == old(publisher.added) + if r.Success? then [Event(EventInvalid, payload)] else []
    {
      var d := db.SetInvalid(payload, msg, now);
      r := AnnounceWrite(d, EventInvalid, payload, old(db.table));
    }

    method Aborted(payload: string, now: string) returns (r: Result<(), CallError>)
      requires Valid()
      modifies db, publisher
      ensures Valid() && (r.Success? <==> PayloadIdToKey(payload).Success?)
      ensures match PayloadIdToKey(payload)
              case Failure(_) => db.table == old(db.table)
              case Success(key) =>
                var was := Row(old(db.table), key);
                db.table == old(db.table)[key :=
                  if was.Some? then was.value.(state := State.Aborted, updated := now)
                  else Record(State.Aborted, now, now, None, [], None, None)]
      ensures publisher.added == old(publisher.added) + if r.Success? then [Event(EventAborted, payload)] else []
    {
      var d := db.SetAborted(payload, now);
      r := AnnounceWrite(d, EventAborted, payload, old(db.table));
    }

    /** Each call announces its own event, and nothing when it is refused. */
    method Perform(c: Call) returns (r: Result<(), CallError>)
      requires Valid()
      modifies db, publisher
      ensures Valid()
      ensures r.Failure? ==> publisher.added == old(publisher.added) && db.table == old(db.table)
      ensures r.Success? ==> |publisher.added| == |old(publisher.added)| + 1 && old(publisher.added) <= publisher.added
      ensures r.Success? ==>
                var e := publisher.added[|old(publisher.added)|];
                e.payload == c.payload &&
                match c
                case CallClaim(_, _, _) => e.eventType == ClaimedProcessing
                case CallStarted(_, _) => e.eventType == EventType.StartedProcessing
                case CallSkipping(_, state) =>
                  e.eventType == (match state
                                  case Invalid => AlreadyInvalid
                                  case Processing => AlreadyProcessing
                                  case Claimed => AlreadyClaimed
                                  case _ => AlreadySucceeded)
                case CallDuplicated(_) => e.eventType == DuplicateIdEncountered
                case CallFailed(_, _, _) => e.eventType == EventFailed
                case CallTimedOut(_, _, _) => e.eventType == EventType.TimedOut
                case CallSucceeded(_, _) => e.eventType == EventSucceeded
                case CallInvalid(_, _, _) => e.eventType == EventInvalid
                case CallAborted(_, _) => e.eventType == EventAborted
    {
      match c
      case CallClaim(payload, arn, now) => r := ClaimProcessing(payload, arn, now);
      case CallStarted(payload, now) => r := StartedProcessing(payload, now);
      case CallSkipping(payload, state) => r := Skipping(payload, state);
      case CallDuplicated(payload) => Duplicated(payload); r := Success(());
      case CallFailed(payload, msg, now) => r := Failed(payload, msg, now);
      case CallTimedOut(payload, msg, now) => r := TimedOut(payload, msg, now);
      case CallSucceeded(payload, now) => r := Succeeded(payload, now);
      case CallInvalid(payload, msg, now) => r := Invalid(payload, msg, now);
      case CallAborted(payload, now) => r := Aborted(payload, now);
    }
  }

  /**
   A manager's life: any sequence of calls, refused ones included, then the flush on leaving the context.  Replaying
   what was published over the initial states gives exactly the stored states.
   */
  method Session(db: StateDb, batchSize: int, calls: seq<Call>) returns (published: seq<seq<Event>>)
    modifies db
    ensures States(db.table) == Replay(old(States(db.table)), Flatten(published))
    ensures forall i | 0 <= i < |published| :: 1 <= |published[i]| <= if batchSize < 1 then 1 else batchSize
  {
    var manager := new EventManager(db, batchSize);
    for i := 0 to |calls|
      invariant manager.Valid() && manager.db == db && fresh(manager.publisher)
      invariant manager.base == old(States(db.table)) && manager.publisher.batchSize == batchSize
    {
      var r := manager.Perform(calls[i]);
    }
    manager.publisher.Execute();
    published := manager.publisher.shipped;
    assert Flatten(published) + [] == Flatten(published);
  }
}
