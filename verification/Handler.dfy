/** The `process` Lambda handler: which queue messages are deleted, returned to the queue, or reported as failures. */
module ProcessHandler {
  import opened Wrappers
  import opened PayloadManager
  import opened BatchProcess
  import opened BatchHandling

  /**
   What becomes of a message before the batch runs.  `Unfetchable` raises while its payload is read from a URL; a bad
   message that is not `reported` raises while it is uploaded or announced as one.
   */
  datatype Parsed = Unreadable(reported: bool) | Unfetchable | NotAPayload(reported: bool) | Readable(manager: Manager)

  datatype Message = Message(raw: string, sqs: bool, parsed: Parsed)

  /** An unreadable record is reported itself, an invalid payload by its content. */
  datatype Failed = FailedRecord(message: Message) | FailedPayload(message: Message)

  datatype HandlerResult =
    | Returned(started: nat)
    | PartialFailure(failures: seq<Failed>, leftover: set<seq<Message>>, deletions: seq<seq<Message>>)
    | Escaped

  function ManagersOf(event: seq<Message>): seq<Manager> {
    if event == [] then []
    else
      var m := event[|event| - 1];
      ManagersOf(event[..|event| - 1]) + if m.parsed.Readable? then [m.parsed.manager] else []
  }

  function FailuresOf(event: seq<Message>): seq<Failed> {
    if event == [] then []
    else
      var m := event[|event| - 1];
      FailuresOf(event[..|event| - 1]) +
      match m.parsed
      case Unreadable(_) => [FailedRecord(m)]
      case NotAPayload(_) => [FailedPayload(m)]
      case _ => []
  }

  /** Every payload that is behind a URL was fetched, and every bad message reported. */
  predicate NoneEscapes(event: seq<Message>) {
    forall i | 0 <= i < |event| :: event[i].parsed !in {Unfetchable, Unreadable(false), NotAPayload(false)}
  }

  predicate Belongs(m: Message, id: string) {
    m.sqs && m.parsed.Readable? && m.parsed.manager.id == id
  }

  /** The queue messages that carried one payload id, in arrival order. */
  function Group(event: seq<Message>, id: string): seq<Message> {
    if event == [] then []
    else
      var m := event[|event| - 1];
      Group(event[..|event| - 1], id) + if Belongs(m, id) then [m] else []
  }

  lemma {:induction false} GroupCounts(event: seq<Message>, id: string, m: Message)
    ensures multiset(Group(event, id))[m] == if Belongs(m, id) then multiset(event)[m] else 0
  {
    if event != [] {
      var last := event[|event| - 1];
      GroupCounts(event[..|event| - 1], id, m);
      assert event == event[..|event| - 1] + [last];
      assert multiset(event) == multiset(event[..|event| - 1]) + multiset{last};
    }
  }

  lemma {:induction false} ReadableIsManaged(event: seq<Message>, m: Message)
    requires m in event && m.parsed.Readable?
    ensures m.parsed.manager.id in Ids(ManagersOf(event))
  {
    var last := event[|event| - 1];
    var before := event[..|event| - 1];
    assert event == before + [last];
    if m in before {
      ReadableIsManaged(before, m);
      var k :| 0 <= k < |Ids(ManagersOf(before))| && Ids(ManagersOf(before))[k] == m.parsed.manager.id;
      assert ManagersOf(event)[k] == ManagersOf(before)[k];
      assert Ids(ManagersOf(event))[k] == m.parsed.manager.id;
    } else {
      assert ManagersOf(event)[|ManagersOf(before)|] == m.parsed.manager;
      assert Ids(ManagersOf(event))[|ManagersOf(before)|] == m.parsed.manager.id;
    }
  }

  /** What the deletion list holds once the ids in `done` were popped. */
  ghost predicate Popped(event: seq<Message>, successful: seq<Message>, done: set<string>) {
    forall m :: multiset(successful)[m] ==
                if m.sqs && m.parsed.Readable? && m.parsed.manager.id in done then multiset(event)[m] else 0
  }

  lemma {:induction false} PopOne(event: seq<Message>, successful: seq<Message>, done: set<string>, id: string)
    requires Popped(event, successful, done) && id !in done
    ensures Popped(event, successful + Group(event, id), done + {id})
  {
    forall m
      ensures multiset(successful + Group(event, id))[m] ==
              if m.sqs && m.parsed.Readable? && m.parsed.manager.id in done + {id} then multiset(event)[m] else 0
    {
      GroupCounts(event, id, m);
    }
  }

  /** The dictionary of queue messages by payload id. */
  ghost predicate Grouped(event: seq<Message>, messages: map<string, seq<Message>>) {
    && (forall id | id in messages :: messages[id] == Group(event, id))
    && (forall id | id !in messages :: Group(event, id) == [])
    && (forall id | id in messages :: messages[id] != [])
  }

  /** `messages.pop(id, [])` on a dictionary from which the ids in `done` are gone. */
  lemma {:induction false} PopGivesGroup(event: seq<Message>, messages: map<string, seq<Message>>,
                                         done: set<string>, id: string)
    requires Grouped(event, messages) && id !in done
    ensures (if id in messages - done then (messages - done)[id] else []) == Group(event, id)
    ensures (messages - done) - {id} == messages - (done + {id})
  {
  }

  /** Pops the group of every processed id, in whatever order the set is iterated. */
  method PopProcessed(ghost event: seq<Message>, processed: set<string>, messages: map<string, seq<Message>>)
    returns (successful: seq<Message>, leftover: map<string, seq<Message>>)
    requires Grouped(event, messages)
    ensures Popped(event, successful, processed)
    ensures leftover == messages - processed
  {
    successful, leftover := [], messages;
    var todo, done: set<string> := processed, {};
    while todo != {}
      invariant done !! todo && done + todo == processed
      invariant Popped(event, successful, done)
      invariant leftover == messages - done
      decreases todo
    {
      var id :| id in todo;
      PopGivesGroup(event, messages, done, id);
      PopOne(event, successful, done, id);
      successful := successful + if id in leftover then leftover[id] else [];
      leftover := leftover - {id};
      todo, done := todo - {id}, done + {id};
    }
    assert done == processed;
  }

  /** The dictionary after one more message. */
  function AddMessage(messages: map<string, seq<Message>>, m: Message): map<string, seq<Message>> {
    if m.sqs && m.parsed.Readable? then
      var id := m.parsed.manager.id;
      messages[id := (if id in messages then messages[id] else []) + [m]]
    else messages
  }

  lemma AddKeepsGrouped(event: seq<Message>, messages: map<string, seq<Message>>, m: Message)
    requires Grouped(event, messages)
    ensures Grouped(event + [m], AddMessage(messages, m))
  {
    assert (event + [m])[..|event|] == event;
    forall id ensures Group(event + [m], id) == Group(event, id) + if Belongs(m, id) then [m] else [] {
    }
  }

  /** Managers and failures stand in the order of their messages, an unreadable record as itself. */
  lemma {:induction false} OneMoreMessage(event: seq<Message>, m: Message)
    ensures ManagersOf([]) == [] && FailuresOf([]) == []
    ensures ManagersOf(event + [m]) == ManagersOf(event) + if m.parsed.Readable? then [m.parsed.manager] else []
    ensures FailuresOf(event + [m]) ==
            FailuresOf(event) + (match m.parsed
                                 case Unreadable(_) => [FailedRecord(m)]
                                 case NotAPayload(_) => [FailedPayload(m)]
                                 case _ => [])
  {
    assert (event + [m])[..|event|] == event;
  }

  function Listed(lists: Lists): set<string> {
    set id | id in lists.started + lists.skipped + lists.dropped + lists.failed
  }

  /** `process` lists every id of the batch, so no message is left behind. */
  lemma EveryIdIsListed(b: Batch)
    requires ValidBatch(b) && NoRaise(b, |b.managers|)
    ensures forall id | id in Ids(b.managers) :: id in Listed(Outcome(b))
  {
    BatchPartition(b);
    var r := Outcome(b);
    forall id | id in Ids(b.managers) ensures id in Listed(r) {
      assert (multiset(r.started) + multiset(r.skipped) + multiset(r.failed))[id] == 1;
      assert id in r.started || id in r.skipped || id in r.failed;
    }
  }

  lemma {:induction false} NothingIsLeftOver(event: seq<Message>, messages: map<string, seq<Message>>,
                                             done: set<string>)
    requires Grouped(event, messages) && forall id | id in Ids(ManagersOf(event)) :: id in done
    ensures messages - done == map[]
  {
    forall id | id in messages ensures id in done {
      var m := messages[id][0];
      assert multiset(messages[id])[m] > 0;
      GroupCounts(event, id, m);
      ReadableIsManaged(event, m);
    }
  }

  /** The batch the handler hands to `process`. */
  function HandlerBatch(event: seq<Message>, items: seq<StateItem>, calls: seq<CallResult>): Batch {
    Batch(ManagersOf(event), LookUp(items, Ids(ManagersOf(event))), false, calls)
  }

  lemma {:induction false} HandlerBatchIsValid(event: seq<Message>, items: seq<StateItem>, calls: seq<CallResult>)
    requires |calls| == |ManagersOf(event)|
    ensures ValidBatch(HandlerBatch(event, items, calls))
  {
    var ids := Ids(ManagersOf(event));
    assert forall k | 0 <= k < |ids| :: ids[k] in LookUp(items, ids);
  }

  ghost predicate ProcessReturns(event: seq<Message>, items: seq<StateItem>, calls: seq<CallResult>)
    requires |calls| == |ManagersOf(event)|
  {
    HandlerBatchIsValid(event, items, calls);
    NoRaise(HandlerBatch(event, items, calls), |calls|)
  }

  /** The first loop: managers, failures and the dictionary of queue messages, or the first exception that escapes. */
  method Collect(event: seq<Message>)
    returns (escaped: bool, managers: seq<Manager>, failures: seq<Failed>, messages: map<string, seq<Message>>)
    ensures escaped <==> !NoneEscapes(event)
    ensures !escaped ==> managers == ManagersOf(event) && failures == FailuresOf(event) && Grouped(event, messages)
  {
    escaped, managers, failures, messages := false, [], [], map[];
    for i := 0 to |event|
      invariant NoneEscapes(event[..i])
      invariant managers == ManagersOf(event[..i]) && failures == FailuresOf(event[..i])
      invariant Grouped(event[..i], messages)
    {
      var m := event[i];
      assert event[..i + 1] == event[..i] + [m];
      OneMoreMessage(event[..i], m);
      AddKeepsGrouped(event[..i], messages, m);
      match m.parsed
      case Unreadable(reported) =>
        if !reported {
          escaped := true;
          return;
        }
        failures := failures + [FailedRecord(m)];
      case Unfetchable =>
        escaped := true;
        return;
      case NotAPayload(reported) =>
        if !reported {
          escaped := true;
          return;
        }
        failures := failures + [FailedPayload(m)];
      case Readable(manager) =>
        managers := managers + [manager];
        messages := AddMessage(messages, m);
    }
    assert event[..|event|] == event;
  }

  /**
   The handler.  Unless an exception escapes a fetch, the report of a bad message or `process`, exactly the readable
   queue messages are successful, each as often as it arrived; they are handed to deletion in tens when something
   failed, and left to the queue otherwise.
   */
  method LambdaHandler(event: seq<Message>, items: seq<StateItem>, calls: seq<CallResult>)
    returns (r: HandlerResult, successful: seq<Message>)
    requires |calls| == |ManagersOf(event)|
    ensures r.Escaped? <==> !NoneEscapes(event) || !ProcessReturns(event, items, calls)
    ensures !r.Escaped? ==>
              forall m :: multiset(successful)[m] == if m.sqs && m.parsed.Readable? then multiset(event)[m] else 0
    ensures !r.Escaped? ==> (r.PartialFailure? <==> FailuresOf(event) != [])
    ensures r.PartialFailure? ==>
              r.failures == FailuresOf(event) && r.leftover == {} && r.deletions == Chunks(successful, 10)
    ensures r.Returned? ==> r.started == |Pick(HandlerBatch(event, items, calls), |calls|, Starts)|
    ensures var managers := ManagersOf(event);
            var states := LookUp(items, Ids(managers));
            && (r.Escaped? <==> !NoneEscapes(event) || exists k | 0 <= k < |managers| ::
                  FirstAt(managers, k) && TakenUp(states, managers, false, k) && calls[k].Raised?)
            && (r.Returned? ==> r.started == |StartedPlaces(managers, states, false, calls)|)
  {
    HandlerBatchIsValid(event, items, calls);
    RaiseByInput(HandlerBatch(event, items, calls));
    var escaped, managers, failures, messages := Collect(event);
    if escaped {
      return Escaped, [];
    }
    var processed: set<string>, started := {}, 0;
    if |managers| > 0 {
      var result, attempted := Process(managers, items, false, calls);
      if result.Failure? {
        return Escaped, [];
      }
      processed, started := Listed(result.value), |result.value.started|;
      StartsCount(HandlerBatch(event, items, calls));
      EveryIdIsListed(HandlerBatch(event, items, calls));
    }
    var leftover;
    successful, leftover := PopProcessed(event, processed, messages);
    NothingIsLeftOver(event, messages, processed);
    forall m ensures multiset(successful)[m] == if m.sqs && m.parsed.Readable? then multiset(event)[m] else 0 {
      if m in event && m.parsed.Readable? { ReadableIsManaged(event, m); }
    }
    if failures != [] || leftover != map[] {
      var deletions := DeliverAll(successful, 10);
      r := PartialFailure(failures, leftover.Values, deletions);
    } else {
      r := Returned(started);
    }
  }

  function FailedMessages(failures: seq<Failed>): seq<Message> {
    if failures == [] then [] else FailedMessages(failures[..|failures| - 1]) + [failures[|failures| - 1].message]
  }

  lemma {:induction false} FailedSnoc(event: seq<Message>, m: Message)
    ensures FailedMessages(FailuresOf(event + [m])) ==
            FailedMessages(FailuresOf(event)) + if m.parsed.Unreadable? || m.parsed.NotAPayload? then [m] else []
  {
    OneMoreMessage(event, m);
    var fs, gs := FailuresOf(event), FailuresOf(event + [m]);
    if m.parsed.Unreadable? || m.parsed.NotAPayload? {
      assert gs[..|gs| - 1] == fs && gs[|gs| - 1].message == m;
    } else {
      assert gs == fs + [] == fs;
    }
  }

  lemma {:induction false} FailuresCount(event: seq<Message>, m: Message)
    ensures multiset(FailedMessages(FailuresOf(event)))[m] ==
            if m.parsed.Unreadable? || m.parsed.NotAPayload? then multiset(event)[m] else 0
  {
    if event != [] {
      var before, last := event[..|event| - 1], event[|event| - 1];
      FailuresCount(before, m);
      assert event == before + [last];
      FailedSnoc(before, last);
    }
  }

  /** Conservation: of an all-queue event, every message is successful or reported as failed, with multiplicity. */
  lemma {:induction false} MessagesAreConserved(event: seq<Message>, successful: seq<Message>)
    requires NoneEscapes(event) && forall i | 0 <= i < |event| :: event[i].sqs
    requires forall m :: multiset(successful)[m] == if m.sqs && m.parsed.Readable? then multiset(event)[m] else 0
    ensures multiset(successful) + multiset(FailedMessages(FailuresOf(event))) == multiset(event)
  {
    forall m ensures (multiset(successful) + multiset(FailedMessages(FailuresOf(event))))[m] == multiset(event)[m] {
      FailuresCount(event, m);
      if !m.sqs || m.parsed.Unfetchable? { assert m !in event; }
    }
  }
}
