/**
 `PayloadManager.__call__` on the shared cloud state, other actors interleaved before each of its AWS calls.
 Each call, whatever the replies, is a run of the step system of module Protocol.
 */
module PayloadManager {
  import opened Wrappers
  import opened Records
  import opened Protocol
  import opened StateIndex

  /**
   `Lost` is a ClientError the code does not tell apart, `Uncaught` any other exception, such as a timeout; in either
   case the call may have taken effect all the same.
   */
  datatype Reply = Answered | Lost(applied: bool) | Uncaught(applied: bool)

  /** Every exception of the upload is caught. */
  datatype UploadReply = Stored | UploadFailed(applied: bool)

  datatype StartReply = Accepted | NoStateMachine | StartLost(applied: bool) | StartUncaught(applied: bool)

  /** The call took effect, whether or not the worker saw it. */
  predicate Applied(reply: Reply)
    ensures Applied(reply) <==> reply in {Answered, Lost(true), Uncaught(true)}
  {
    reply.Answered? || reply.applied
  }

  /**
   `env[k]` is what the other actors do before the k-th AWS call; `env[4]` comes before the FAILED write.  `text` is
   what the exception says, if there is one.
   */
  datatype Schedule = Schedule(
    env: seq<seq<Label>>,
    clock: seq<string>,
    claim: Reply,
    upload: UploadReply,
    start: StartReply,
    processing: Reply,
    failure: Reply,
    text: string)

  datatype CallResult = Started | Skipped | TerminalError | Raised

  predicate ByOther(l: Label, w: WorkerId) {
    l.Report? || l.w != w
  }

  predicate Valid(p: Schedule, w: WorkerId) {
    && |p.env| == 5 && |p.clock| == 3
    && forall k, i | 0 <= k < 5 && 0 <= i < |p.env[k]| :: ByOther(p.env[k][i], w)
  }

  function Own(ls: seq<Label>, w: WorkerId): seq<Label> {
    if ls == [] then [] else (if ByOther(ls[0], w) then [] else [ls[0]]) + Own(ls[1..], w)
  }

  function Others(ls: seq<Label>, w: WorkerId): seq<Label> {
    if ls == [] then [] else (if ByOther(ls[0], w) then [ls[0]] else []) + Others(ls[1..], w)
  }

  lemma {:induction false} OwnConcat(a: seq<Label>, b: seq<Label>, w: WorkerId)
    ensures Own(a + b, w) == Own(a, w) + Own(b, w)
  {
    if a == [] {
      assert a + b == b;
    } else {
      assert (a + b)[0] == a[0] && (a + b)[1..] == a[1..] + b;
      OwnConcat(a[1..], b, w);
    }
  }

  lemma {:induction false} OthersConcat(a: seq<Label>, b: seq<Label>, w: WorkerId)
    ensures Others(a + b, w) == Others(a, w) + Others(b, w)
  {
    if a == [] {
      assert a + b == b;
    } else {
      var c := a + b;
      assert c[0] == a[0] && c[1..] == a[1..] + b;
      OthersConcat(a[1..], b, w);
      var head := if ByOther(a[0], w) then [a[0]] else [];
      assert Others(c, w) == head + Others(c[1..], w) && Others(a, w) == head + Others(a[1..], w);
    }
  }

  lemma {:induction false} BothConcat(a: seq<Label>, b: seq<Label>, w: WorkerId)
    ensures Own(a + b, w) == Own(a, w) + Own(b, w) && Others(a + b, w) == Others(a, w) + Others(b, w)
  {
    OwnConcat(a, b, w);
    OthersConcat(a, b, w);
  }

  lemma {:induction false} OthersOnly(ls: seq<Label>, w: WorkerId)
    requires forall i | 0 <= i < |ls| :: ByOther(ls[i], w)
    ensures Own(ls, w) == [] && Others(ls, w) == ls
  {
    if ls != [] {
      OthersOnly(ls[1..], w);
    }
  }

  /** Other actors never move worker `w`. */
  lemma {:induction false} OthersLeaveWorker(s: Site, ls: seq<Label>, w: WorkerId)
    requires w in s.workers && forall i | 0 <= i < |ls| :: ByOther(ls[i], w)
    ensures w in Exec(s, ls).workers && Exec(s, ls).workers[w] == s.workers[w]
    ensures Exec(s, ls).payload == s.payload && Exec(s, ls).workflow == s.workflow
    decreases |ls|
  {
    if ls != [] {
      OthersLeaveWorker(Next(s, ls[0]), ls[1..], w);
    }
  }

  /** Appending one step of worker `w` to a run. */
  lemma {:induction false} ThenOwn(s: Site, ls: seq<Label>, l: Label, w: WorkerId)
    requires !ByOther(l, w)
    ensures Exec(s, ls + [l]) == Next(Exec(s, ls), l)
    ensures Own(ls + [l], w) == Own(ls, w) + [l] && Others(ls + [l], w) == Others(ls, w)
  {
    ExecConcat(s, ls, [l]);
    ExecOne(Exec(s, ls), l);
    BothConcat(ls, [l], w);
    assert [l][1..] == [] && Own([l], w) == [l] + Own([], w) && Others([l], w) == Others([], w);
  }

  /** Appending steps of other actors to a run. */
  lemma {:induction false} ThenOthers(s: Site, ls: seq<Label>, env: seq<Label>, w: WorkerId)
    requires forall i | 0 <= i < |env| :: ByOther(env[i], w)
    ensures Exec(s, ls + env) == Exec(Exec(s, ls), env)
    ensures Own(ls + env, w) == Own(ls, w) && Others(ls + env, w) == Others(ls, w) + env
  {
    ExecConcat(s, ls, env);
    BothConcat(ls, env, w);
    OthersOnly(env, w);
  }

  /** The row as it is just before the `n`-th step of worker `w` in a run. */
  function RowMet(s: Site, ls: seq<Label>, w: WorkerId, n: nat): Option<Record>
    decreases |ls|
  {
    if ls == [] then s.record
    else if ByOther(ls[0], w) then RowMet(Next(s, ls[0]), ls[1..], w, n)
    else if n == 0 then s.record
    else RowMet(Next(s, ls[0]), ls[1..], w, n - 1)
  }

  lemma {:induction false} RowMetConcat(s: Site, a: seq<Label>, b: seq<Label>, w: WorkerId, n: nat)
    requires n >= |Own(a, w)|
    ensures RowMet(s, a + b, w, n) == RowMet(Exec(s, a), b, w, n - |Own(a, w)|)
    decreases |a|
  {
    if a == [] {
      assert a + b == b;
    } else {
      assert (a + b)[0] == a[0] && (a + b)[1..] == a[1..] + b;
      RowMetConcat(Next(s, a[0]), a[1..], b, w, if ByOther(a[0], w) then n else n - 1);
    }
  }

  lemma {:induction false} RowsStay(s: Site, ls: seq<Label>)
    requires s.record.Some?
    ensures Exec(s, ls).record.Some?
    decreases |ls|
  {
    if ls != [] {
      RowsStay(Next(s, ls[0]), ls[1..]);
    }
  }

  /** After these steps the worker ended by an exception: behind its FAILED write with this message, or without one. */
  predicate Ended(own: seq<Label>, steps: seq<Label>, w: WorkerId, written: bool, msg: string, now: string) {
    own == steps + [if written then FailWrite(w, msg, now) else Crash(w)]
  }

  /** The message of a failure write: the exception's text, dressed up unless the state machine is missing. */
  function Message(p: Schedule, missing: bool): string {
    if missing then p.text else "failed starting workflow (" + p.text + ")"
  }

  /** The row a FAILED write leaves behind. */
  predicate FailedRow(row: Option<Record>, msg: string, now: string) {
    row.Some? && row.value.state.Failed? && row.value.lastError == Some(msg) && row.value.updated == now
  }

  /** A claim that meets this row goes on, with its own execution or with the one it adopts. */
  predicate Proceeds(row: Option<Record>) {
    row.None? || (!row.value.state.Processing? && (row.value.state.Claimed? ==> row.value.executions != []))
  }

  /** Behind a claim that goes on, the exception that ends the worker is one the code catches to write FAILED. */
  predicate CaughtBehindClaim(p: Schedule) {
    if !p.upload.Stored? then true else if !p.start.Accepted? then !p.start.StartUncaught? else p.processing.Lost?
  }

  function MessageBehindClaim(p: Schedule): string {
    Message(p, p.upload.Stored? && p.start.NoStateMachine?)
  }

  /** What the others do before the upload, the start, and the FAILED write if one of them fails. */
  function HeardToStart(p: Schedule): seq<Label>
    requires |p.env| == 5
  {
    p.env[1] +
    if !p.upload.Stored? then p.env[4]
    else p.env[2] + if p.start.NoStateMachine? || p.start.StartLost? then p.env[4] else []
  }

  lemma ThreeParts<T>(a: seq<T>, b: seq<T>, c: seq<T>, d: seq<T>)
    ensures a + b + c + d == a + (b + (c + d)) && a + b + c == a + (b + c)
  {
  }

  /** What the others do behind the claim, up to the last step of the worker. */
  function HeardBehindClaim(p: Schedule): seq<Label>
    requires |p.env| == 5
  {
    if !p.upload.Stored? || !p.start.Accepted? then HeardToStart(p)
    else HeardToStart(p) + (p.env[3] + if p.processing.Lost? then p.env[4] else [])
  }

  /** The steps of the worker behind a claim that goes on, up to the exception that ends it. */
  function StepsToException(p: Schedule, w: WorkerId): seq<Label>
    requires |p.clock| == 3
  {
    if !p.upload.Stored? then if p.upload.applied then [Upload(w)] else []
    else [Upload(w)] + if !p.start.Accepted? then StartNotSeen(p, w)
                       else [Start(w, true)] + ProcessingNotSeen(p, w)
  }

  /** A start that took effect without an answer. */
  function StartNotSeen(p: Schedule, w: WorkerId): seq<Label> {
    if (p.start.StartLost? || p.start.StartUncaught?) && p.start.applied then [Start(w, false)] else []
  }

  /** The same for the second conditional write. */
  function ProcessingNotSeen(p: Schedule, w: WorkerId): seq<Label>
    requires |p.clock| == 3
  {
    if Applied(p.processing) then [SetProcessing(w, p.clock[1], false)] else []
  }

  /** The steps of the worker behind a claim that goes on when everything is answered. */
  function AllSteps(p: Schedule, w: WorkerId): seq<Label>
    requires |p.clock| == 3
  {
    [Upload(w)] + ([Start(w, true)] + [SetProcessing(w, p.clock[1], true)])
  }

  lemma StepsInOrder(own: seq<Label>, p: Schedule, w: WorkerId)
    requires |p.clock| == 3
    ensures var started := own + [Upload(w)] + [Start(w, true)];
            && started + [SetProcessing(w, p.clock[1], true)] == own + AllSteps(p, w)
            && (p.upload.Stored? && p.start.Accepted? ==>
                  started + ProcessingNotSeen(p, w) == own + StepsToException(p, w))
            && |started| == |own| + 2
  {
    ThreeParts(own, [Upload(w)], [Start(w, true)], [SetProcessing(w, p.clock[1], true)]);
    ThreeParts(own, [Upload(w)], [Start(w, true)], ProcessingNotSeen(p, w));
  }

  lemma HeardInOrder(others: seq<Label>, p: Schedule)
    requires |p.env| == 5 && p.upload.Stored? && p.start.Accepted?
    ensures others + HeardToStart(p) + p.env[3] + (if p.processing.Lost? then p.env[4] else []) ==
            others + HeardBehindClaim(p)
  {
    ThreeParts(others, HeardToStart(p), p.env[3], if p.processing.Lost? then p.env[4] else []);
  }

  /** What one AWS account holds for one payload id, and the other workers acting on it. */
  class Cloud {
    const payload: string
    const workflow: string
    var record: Option<Record>
    var uploads: set<Name>
    var begun: set<Arn>
    var reported: set<Arn>
    var others: map<WorkerId, Worker>

    ghost function View(w: WorkerId, me: Option<Worker>): Site
      reads this
    {
      Site(payload, workflow, record, if me.Some? then others[w := me.value] else others, begun, reported, uploads)
    }

    method Interfere(w: WorkerId, me: Worker, env: seq<Label>)
      requires w !in others && forall i | 0 <= i < |env| :: ByOther(env[i], w)
      modifies this
      ensures w !in others
      ensures View(w, Some(me)) == Exec(old(View(w, Some(me))), env)
      ensures old(record).Some? ==> record.Some?
    {
      var s := Site(payload, workflow, record, others[w := me], begun, reported, uploads);
      OthersLeaveWorker(s, env, w);
      var t := Exec(s, env);
      if s.record.Some? {
        RowsStay(s, env);
      }
      record, uploads, begun, reported, others := t.record, t.uploads, t.begun, t.reported, t.workers - {w};
      assert others[w := me] == t.workers;
    }

    /** `claim_processing`: the refused write returns the row it met. */
    method ClaimProcessing(arn: Arn, now: string) returns (accepted: bool, item: Option<Record>)
      modifies this`record
      ensures item == old(record) && accepted == (item.None? || item.value.state !in {Processing, Claimed})
      ensures record ==
              if accepted
              then Some(Record(Claimed, if item.Some? then item.value.created else now, now, Some(now),
                               (if item.Some? then item.value.executions else []) + [arn], None, None))
              else item
    {
      item := record;
      var d := ClaimUpdate(record, arn, now);
      accepted := d.Success?;
      if accepted {
        record := Some(d.value);
      }
    }

    method SetProcessingRow(now: string) returns (accepted: bool, item: Option<Record>)
      modifies this`record
      ensures item == old(record) && accepted == (item.Some? && item.value.state == Claimed)
      ensures record == if accepted then Some(item.value.(state := Processing, updated := now)) else item
    {
      item := record;
      var d := ProcessingUpdate(record, now);
      accepted := d.Success?;
      if accepted {
        record := Some(d.value);
      }
    }

    method SetFailed(msg: string, now: string)
      modifies this`record
      ensures record == Some(if old(record).Some?
                             then old(record).value.(state := Failed, updated := now, lastError := Some(msg))
                             else Record(Failed, now, now, None, [], Some(msg), None))
    {
      record := Some(FailedWrite(record, msg, now));
    }

    /**
     The end of worker `w` by an exception.  If it is caught, others may act before the FAILED write, which may itself
     be lost; `_fail_and_raise` then passes on whichever exception came last.
     */
    method FailAndRaise(w: WorkerId, me: Worker, msg: string, caught: bool, p: Schedule,
                        ghost start: Site, ghost before: seq<Label>) returns (ghost trace: seq<Label>)
      requires w !in others && Valid(p, w) && View(w, Some(me)) == Exec(start, before)
      modifies this
      ensures w !in others
      ensures View(w, None) == Exec(start, trace)
      ensures Ended(Own(trace, w), Own(before, w), w, caught && Applied(p.failure), msg, p.clock[2])
      ensures caught && Applied(p.failure) ==> FailedRow(record, msg, p.clock[2])
      ensures Others(trace, w) == Others(before, w) + if caught then p.env[4] else []
    {
      trace := before;
      if caught {
        Interfere(w, me, p.env[4]);
        ThenOthers(start, trace, p.env[4], w);
        trace := trace + p.env[4];
      }
      assert others[w := me] - {w} == others;
      if caught && Applied(p.failure) {
        SetFailed(msg, p.clock[2]);
        ThenOwn(start, trace, FailWrite(w, msg, p.clock[2]), w);
        trace := trace + [FailWrite(w, msg, p.clock[2])];
      } else {
        ThenOwn(start, trace, Crash(w), w);
        trace := trace + [Crash(w)];
      }
    }

    /**
     `_claim`: claims the planned execution or adopts the first recorded one.  Result `Started` means that the worker
     goes on; `me` is its place in the step system, None once it has left.
     */
    method Claim(w: WorkerId, plan: Worker, p: Schedule)
      returns (r: CallResult, arn: Arn, ghost me: Option<Worker>, ghost trace: seq<Label>)
      requires w !in others && plan.phase.Planned? && Valid(p, w)
      modifies this
      ensures w !in others
      ensures View(w, me) == Exec(old(View(w, Some(plan))), trace)
      ensures var met := Exec(old(View(w, Some(plan))), p.env[0]).record;
              && (r.Started? <==> p.claim.Answered? && Proceeds(met))
              && (r.Skipped? <==> p.claim.Answered? && met.Some? && met.value.state.Processing?)
              && (r.Started? ==>
                    arn == if met.Some? && met.value.state.Claimed? then met.value.executions[0] else plan.arn)
      ensures !r.TerminalError?
      ensures me == if r.Started? then Some(plan.(phase := Holding, arn := arn)) else None
      ensures r.Started? ==> record.Some?
      ensures if p.claim.Answered? then Own(trace, w) == [Label.Claim(w, p.clock[0], true)]
              else Ended(Own(trace, w), if p.claim.applied then [Label.Claim(w, p.clock[0], false)] else [],
                         w, p.claim.Lost? && Applied(p.failure), Message(p, false), p.clock[2])
      ensures p.claim.Lost? && Applied(p.failure) ==> FailedRow(record, Message(p, false), p.clock[2])
      ensures Others(trace, w) == p.env[0] + if p.claim.Lost? then p.env[4] else []
    {
      ghost var s0 := View(w, Some(plan));
      Interfere(w, plan, p.env[0]);
      trace := p.env[0];
      OthersOnly(p.env[0], w);
      arn := plan.arn;
      assert others[w := plan] - {w} == others;
      if p.claim.Answered? {
        var accepted, item := ClaimProcessing(plan.arn, p.clock[0]);
        ThenOwn(s0, trace, Label.Claim(w, p.clock[0], true), w);
        trace := trace + [Label.Claim(w, p.clock[0], true)];
        if accepted {
          r, me := Started, Some(plan.(phase := Holding));
          assert others[w := plan][w := me.value] == others[w := me.value];
        } else if item.value.state.Claimed? {
          if item.value.executions == [] {
            r, me := Raised, None;
          } else {
            arn := item.value.executions[0];
            r, me := Started, Some(plan.(phase := Holding, arn := arn));
            assert others[w := plan][w := me.value] == others[w := me.value];
          }
        } else {
          r, me := Skipped, None;
        }
      } else {
        if p.claim.applied {
          var accepted, item := ClaimProcessing(plan.arn, p.clock[0]);
          ThenOwn(s0, trace, Label.Claim(w, p.clock[0], false), w);
          trace := trace + [Label.Claim(w, p.clock[0], false)];
        }
        var msg := "failed starting workflow (" + p.text + ")";
        trace := FailAndRaise(w, plan, msg, p.claim.Lost?, p, s0, trace);
        r, me := Raised, None;
      }
    }

    /** `start_execution` by name: repeating a name that has begun starts nothing new. */
    method StartByName(w: WorkerId, loaded: Worker, p: Schedule, ghost start: Site, ghost before: seq<Label>)
      returns (r: CallResult, ghost me: Option<Worker>, ghost trace: seq<Label>)
      requires w !in others && loaded.phase.Uploaded? && Valid(p, w) && View(w, Some(loaded)) == Exec(start, before)
      modifies this
      ensures w !in others
      ensures View(w, me) == Exec(start, trace)
      ensures r.Started? <==> p.start.Accepted?
      ensures r.TerminalError? <==> p.start.NoStateMachine? && p.failure.Answered?
      ensures !r.Skipped?
      ensures me == if r.Started? then Some(loaded.(phase := Launched)) else None
      ensures r.Started? ==> loaded.arn in begun && record == old(record)
      ensures if r.Started? then Own(trace, w) == Own(before, w) + [Start(w, true)]
              else Ended(Own(trace, w), Own(before, w) + StartNotSeen(p, w),
                         w, !p.start.StartUncaught? && Applied(p.failure),
                         Message(p, p.start.NoStateMachine?), p.clock[2])
      ensures !r.Started? && !p.start.StartUncaught? && Applied(p.failure) ==>
                FailedRow(record, Message(p, p.start.NoStateMachine?), p.clock[2])
      ensures Others(trace, w) ==
              Others(before, w) + if p.start.NoStateMachine? || p.start.StartLost? then p.env[4] else []
    {
      trace := before;
      if p.start.Accepted? {
        begun := begun + {loaded.arn};
        me := Some(loaded.(phase := Launched));
        assert others[w := loaded][w := me.value] == others[w := me.value];
        ThenOwn(start, trace, Start(w, true), w);
        trace := trace + [Start(w, true)];
        r := Started;
      } else {
        if !p.start.NoStateMachine? && p.start.applied {
          begun := begun + {loaded.arn};
          ThenOwn(start, trace, Start(w, false), w);
          trace := trace + [Start(w, false)];
        }
        var msg := if p.start.NoStateMachine? then p.text else "failed starting workflow (" + p.text + ")";
        trace := FailAndRaise(w, loaded, msg, !p.start.StartUncaught?, p, start, trace);
        r, me := if p.start.NoStateMachine? && p.failure.Answered? then TerminalError else Raised, None;
      }
    }

    /** `upload_input_payload` under the name that is held. */
    method UploadInput(w: WorkerId, held: Worker, p: Schedule, ghost start: Site, ghost before: seq<Label>)
      returns (loaded: Worker, ghost trace: seq<Label>)
      requires w !in others && held.phase.Holding? && Valid(p, w) && View(w, Some(held)) == Exec(start, before)
      modifies this`uploads
      ensures loaded == held.(phase := Uploaded)
      ensures View(w, Some(loaded)) == Exec(start, trace)
      ensures Own(trace, w) == Own(before, w) + [Upload(w)]
      ensures Others(trace, w) == Others(before, w)
    {
      uploads := uploads + {held.arn.name};
      loaded := held.(phase := Uploaded);
      assert others[w := held][w := loaded] == others[w := loaded];
      ThenOwn(start, before, Upload(w), w);
      trace := before + [Upload(w)];
    }

    /** An upload that raises, whether or not the input is stored by then. */
    method UploadRaises(w: WorkerId, held: Worker, p: Schedule, ghost start: Site, ghost before: seq<Label>)
      returns (ghost trace: seq<Label>)
      requires w !in others && held.phase.Holding? && Valid(p, w) && View(w, Some(held)) == Exec(start, before)
      requires !p.upload.Stored?
      modifies this
      ensures w !in others
      ensures View(w, None) == Exec(start, trace)
      ensures Ended(Own(trace, w), Own(before, w) + StepsToException(p, w),
                    w, Applied(p.failure), Message(p, false), p.clock[2])
      ensures Applied(p.failure) ==> FailedRow(record, Message(p, false), p.clock[2])
      ensures Others(trace, w) == Others(before, w) + p.env[4]
    {
      trace := before;
      var me := held;
      if p.upload.applied {
        me, trace := UploadInput(w, held, p, start, trace);
      }
      trace := FailAndRaise(w, me, "failed starting workflow (" + p.text + ")", true, p, start, trace);
    }

    /** Upload the input, then start the execution; `Started` means that the call goes on to PROCESSING. */
    method UploadAndStart(w: WorkerId, held: Worker, p: Schedule, ghost start: Site, ghost before: seq<Label>)
      returns (r: CallResult, ghost me: Option<Worker>, ghost trace: seq<Label>)
      requires w !in others && held.phase.Holding? && Valid(p, w) && View(w, Some(held)) == Exec(start, before)
      modifies this
      ensures w !in others
      ensures View(w, me) == Exec(start, trace)
      ensures r.Started? <==> p.upload.Stored? && p.start.Accepted?
      ensures r.TerminalError? <==> p.upload.Stored? && p.start.NoStateMachine? && p.failure.Answered?
      ensures !r.Skipped?
      ensures me == if r.Started? then Some(held.(phase := Launched)) else None
      ensures r.Started? ==> held.arn in begun && (old(record).Some? ==> record.Some?)
      ensures if r.Started? then Own(trace, w) == Own(before, w) + [Upload(w)] + [Start(w, true)]
              else Ended(Own(trace, w), Own(before, w) + StepsToException(p, w),
                         w, CaughtBehindClaim(p) && Applied(p.failure), MessageBehindClaim(p), p.clock[2])
      ensures !r.Started? && CaughtBehindClaim(p) && Applied(p.failure) ==>
                FailedRow(record, MessageBehindClaim(p), p.clock[2])
      ensures Others(trace, w) == Others(before, w) + HeardToStart(p)
    {
      Interfere(w, held, p.env[1]);
      ThenOthers(start, before, p.env[1], w);
      trace := before + p.env[1];
      ThreeParts(Others(before, w), p.env[1], p.env[2], p.env[4]);
      ThreeParts(Others(before, w), p.env[1], p.env[2], []);
      if !p.upload.Stored? {
        trace := UploadRaises(w, held, p, start, trace);
        r, me := Raised, None;
      } else {
        var loaded;
        loaded, trace := UploadInput(w, held, p, start, trace);
        ThenOthers(start, trace, p.env[2], w);
        Interfere(w, loaded, p.env[2]);
        trace := trace + p.env[2];
        ThreeParts(Own(before, w), [Upload(w)], StartNotSeen(p, w), []);
        r, me, trace := StartByName(w, loaded, p, start, trace);
      }
    }

    /** The second conditional write, after which the worker is done. */
    method FinishProcessing(w: WorkerId, launched: Worker, p: Schedule, ghost start: Site, ghost before: seq<Label>)
      returns (r: CallResult, ghost trace: seq<Label>)
      requires w !in others && launched.phase.Launched? && Valid(p, w) && View(w, Some(launched)) == Exec(start, before)
      modifies this
      ensures w !in others
      ensures View(w, None) == Exec(start, trace)
      ensures var met := Exec(old(View(w, Some(launched))), p.env[3]).record;
              && (r.Started? <==> p.processing.Answered? && met.Some? && met.value.state == Claimed)
              && (r.Skipped? <==> p.processing.Answered? && met.Some? &&
                                  met.value.state in {Processing, Succeeded, Invalid})
              && (if p.processing.Answered? && met.Some?
                  then Own(trace, w) == Own(before, w) + [SetProcessing(w, p.clock[1], true)] &&
                       RowMet(start, trace, w, |Own(before, w)|) == met
                  else && Ended(Own(trace, w), Own(before, w) + ProcessingNotSeen(p, w),
                                w, !p.processing.Uncaught? && Applied(p.failure), Message(p, false), p.clock[2])
                       && (!p.processing.Uncaught? && Applied(p.failure) ==>
                             FailedRow(record, Message(p, false), p.clock[2])))
              && Others(trace, w) ==
                 Others(before, w) + p.env[3] +
                 if p.processing.Lost? || (p.processing.Answered? && met.None?) then p.env[4] else []
      ensures !r.TerminalError?
      ensures r.Started? ==> record.Some? && record.value.state.Processing?
    {
      Interfere(w, launched, p.env[3]);
      ThenOthers(start, before, p.env[3], w);
      trace := before + p.env[3];
      assert others[w := launched] - {w} == others;
      var accepted, item := false, None;
      if Applied(p.processing) {
        accepted, item := SetProcessingRow(p.clock[1]);
      }
      if p.processing.Answered? && item.Some? {
        ThenOwn(start, trace, SetProcessing(w, p.clock[1], true), w);
        RowMetConcat(start, trace, [SetProcessing(w, p.clock[1], true)], w, |Own(before, w)|);
        trace := trace + [SetProcessing(w, p.clock[1], true)];
        r := if accepted then Started else if SkipRaises(item.value.state) then Raised else Skipped;
      } else {
        if Applied(p.processing) {
          ThenOwn(start, trace, SetProcessing(w, p.clock[1], false), w);
          trace := trace + [SetProcessing(w, p.clock[1], false)];
        }
        var msg := "failed starting workflow (" + p.text + ")";
        trace := FailAndRaise(w, launched, msg, !p.processing.Uncaught?, p, start, trace);
        r := Raised;
      }
    }

    /** The call from a claim that goes on: result and steps by the replies and the row the second write meets. */
    method Proceed(w: WorkerId, held: Worker, p: Schedule, ghost start: Site, ghost before: seq<Label>)
      returns (r: CallResult, ghost trace: seq<Label>)
      requires w !in others && held.phase.Holding? && Valid(p, w) && View(w, Some(held)) == Exec(start, before)
      requires |Own(before, w)| == 1 && record.Some?
      modifies this
      ensures w !in others
      ensures View(w, None) == Exec(start, trace)
      ensures var row := RowMet(start, trace, w, 3);
              var answered := p.upload.Stored? && p.start.Accepted? && p.processing.Answered?;
              && (answered ==> row.Some? && Own(trace, w) == Own(before, w) + AllSteps(p, w))
              && (!answered ==> Ended(Own(trace, w), Own(before, w) + StepsToException(p, w),
                                      w, CaughtBehindClaim(p) && Applied(p.failure), MessageBehindClaim(p), p.clock[2]))
              && (!answered && CaughtBehindClaim(p) && Applied(p.failure) ==>
                    FailedRow(record, MessageBehindClaim(p), p.clock[2]))
              && (r.Started? <==> answered && row.value.state == Claimed)
              && (r.Skipped? <==> answered && row.value.state in {Processing, Succeeded, Invalid})
      ensures r.TerminalError? <==> p.upload.Stored? && p.start.NoStateMachine? && p.failure.Answered?
      ensures Others(trace, w) == Others(before, w) + HeardBehindClaim(p)
      ensures r.Started? ==> record.Some? && record.value.state.Processing?
    {
      ghost var me;
      r, me, trace := UploadAndStart(w, held, p, start, before);
      if r.Started? {
        StepsInOrder(Own(before, w), p, w);
        HeardInOrder(Others(before, w), p);
        RowsStay(Exec(start, trace), p.env[3]);
        r, trace := FinishProcessing(w, held.(phase := Launched), p, start, trace);
      }
    }

    /**
     The whole call.  Its effect on the shared state, with other actors in between, is a run in which this worker takes
     the steps its result stands for and is gone at the end.  Which result it is, the replies and the two rows met by
     its conditional writes decide; a skip that raises leaves the worker's steps as they are without a FAILED write.
     */
    method Call(w: WorkerId, plan: Worker, p: Schedule) returns (r: CallResult, ghost trace: seq<Label>)
      requires w !in others && plan.phase.Planned? && Valid(p, w)
      modifies this
      ensures w !in others
      ensures View(w, None) == Exec(old(View(w, Some(plan))), trace)
      ensures var s := old(View(w, Some(plan)));
              var claimRow, row := Exec(s, p.env[0]).record, RowMet(s, trace, w, 3);
              var goesOn := p.claim.Answered? && Proceeds(claimRow);
              var answered := goesOn && p.upload.Stored? && p.start.Accepted? && p.processing.Answered?;
              && (answered ==> row.Some?)
              && (r.Started? <==> answered && row.value.state == Claimed)
              && (r.Skipped? <==> (p.claim.Answered? && claimRow.Some? && claimRow.value.state.Processing?)
                                  || (answered && row.value.state in {Processing, Succeeded, Invalid}))
              && (r.TerminalError? <==> goesOn && p.upload.Stored? && p.start.NoStateMachine? && p.failure.Answered?)
              && var claim := [Label.Claim(w, p.clock[0], p.claim.Answered?)];
              && (if answered then Own(trace, w) == claim + AllSteps(p, w)
                  else if goesOn
                  then Ended(Own(trace, w), claim + StepsToException(p, w),
                             w, CaughtBehindClaim(p) && Applied(p.failure), MessageBehindClaim(p), p.clock[2])
                  else if p.claim.Answered? then Own(trace, w) == claim
                  else Ended(Own(trace, w), if p.claim.applied then claim else [],
                             w, p.claim.Lost? && Applied(p.failure), Message(p, false), p.clock[2]))
              && (!answered && (if goesOn then CaughtBehindClaim(p) else p.claim.Lost?) && Applied(p.failure) ==>
                    FailedRow(record, if goesOn then MessageBehindClaim(p) else Message(p, false), p.clock[2]))
              && Others(trace, w) ==
                 p.env[0] + if goesOn then HeardBehindClaim(p) else if p.claim.Lost? then p.env[4] else []
      ensures r.Started? ==> record.Some? && record.value.state.Processing?
    {
      ghost var s0 := View(w, Some(plan));
      var arn;
      ghost var me;
      r, arn, me, trace := Claim(w, plan, p);
      if r.Started? {
        r, trace := Proceed(w, plan.(phase := Holding, arn := arn), p, s0, trace);
      }
    }
  }
}
