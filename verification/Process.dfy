/** `PayloadManagers.process`: one pass over a batch of payloads that may repeat ids. */
module BatchProcess {
  import opened Wrappers
  import opened Records
  import opened Protocol
  import opened PayloadIds
  import opened PayloadManager

  /** A validated payload: its id, and whether its process definition asks to replace. */
  datatype Manager = Manager(id: string, replace: bool)

  /** What the state table returned for one id. */
  datatype StateItem = StateItem(id: string, state: Option<State>)

  datatype Lists = Lists(started: seq<string>, skipped: seq<string>, dropped: seq<string>, failed: seq<string>)

  datatype Verdict = Starts | Skips | Drops | Fails | Raises

  function Ids(managers: seq<Manager>): (ids: seq<string>)
    ensures |ids| == |managers| && forall k | 0 <= k < |ids| :: ids[k] == managers[k].id
  {
    if managers == [] then [] else [managers[0].id] + Ids(managers[1..])
  }

  /** `get_process_attrs` into a dict: a later item for the same id wins. */
  function FoundStates(items: seq<StateItem>): (m: map<string, Option<State>>)
    ensures forall i | 0 <= i < |items| :: items[i].id in m
  {
    if items == [] then map[]
    else FoundStates(items[..|items| - 1])[items[|items| - 1].id := items[|items| - 1].state]
  }

  lemma {:induction false} FoundStatesAreItems(items: seq<StateItem>, id: string) returns (i: nat)
    requires id in FoundStates(items)
    ensures i < |items| && items[i].id == id && FoundStates(items)[id] == items[i].state
  {
    var last := |items| - 1;
    if items[last].id == id {
      i := last;
    } else {
      i := FoundStatesAreItems(items[..last], id);
    }
  }

  /** `get_states_and_exec_arn`: ids without an item are added as unknown, so no id of the batch is missing. */
  function LookUp(items: seq<StateItem>, ids: seq<string>): (m: map<string, Option<State>>)
    ensures forall k | 0 <= k < |ids| :: ids[k] in m
    ensures forall id | id in ids && id !in FoundStates(items) :: m[id] == None
    ensures forall id | id in FoundStates(items) :: id in m && m[id] == FoundStates(items)[id]
  {
    (map id | id in ids :: None) + FoundStates(items)
  }

  /** Of several items for one id the last one counts, and an id without item is unknown. */
  lemma {:induction false} LookUpTells(items: seq<StateItem>, ids: seq<string>, id: string)
    requires id in ids
    ensures (forall i | 0 <= i < |items| :: items[i].id != id) ==> LookUp(items, ids)[id] == None
    ensures forall i | 0 <= i < |items| && items[i].id == id && (forall j | i < j < |items| :: items[j].id != id) ::
              LookUp(items, ids)[id] == items[i].state
  {
    if forall i | 0 <= i < |items| :: items[i].id != id {
      if id in FoundStates(items) {
        var i := FoundStatesAreItems(items, id);
      }
    }
    forall i | 0 <= i < |items| && items[i].id == id && (forall j | i < j < |items| :: items[j].id != id)
      ensures LookUp(items, ids)[id] == items[i].state
    {
      LastItemCounts(items, i);
    }
  }

  lemma {:induction false} LastItemCounts(items: seq<StateItem>, i: nat)
    requires i < |items| && forall j | i < j < |items| :: items[j].id != items[i].id
    ensures items[i].id in FoundStates(items) && FoundStates(items)[items[i].id] == items[i].state
    decreases |items|
  {
    if i < |items| - 1 {
      assert items[..|items| - 1][i] == items[i];
      LastItemCounts(items[..|items| - 1], i);
    }
  }

  /** A row of the state table as `get_dbitems` returns it. */
  datatype DbItem = DbItem(key: Key, state: State)

  predicate Asked(ids: seq<string>, key: Key) {
    exists k :: 0 <= k < |ids| && PayloadIdToKey(ids[k]) == Success(key)
  }

  /** The batch read returns the rows stored under the ids, in any order. */
  ghost predicate Fetched(table: map<Key, Record>, ids: seq<string>, dbitems: seq<DbItem>) {
    && (forall i | 0 <= i < |dbitems| ::
          var key := dbitems[i].key; key in table && dbitems[i].state == table[key].state && Asked(ids, key))
    && (forall key | key in table && Asked(ids, key) :: exists i :: 0 <= i < |dbitems| && dbitems[i].key == key)
  }

  /** `dbitem_to_item`: the payload id is not stored, it is made from the key. */
  function ItemOf(dbitem: DbItem): StateItem
    requires KeyToPayloadId(dbitem.key).Success?
  {
    StateItem(KeyToPayloadId(dbitem.key).value, Some(dbitem.state))
  }

  function ItemsOf(dbitems: seq<DbItem>): (items: seq<StateItem>)
    requires forall i | 0 <= i < |dbitems| :: KeyToPayloadId(dbitems[i].key).Success?
    ensures |items| == |dbitems| && forall i | 0 <= i < |items| :: items[i] == ItemOf(dbitems[i])
  {
    if dbitems == [] then [] else [ItemOf(dbitems[0])] + ItemsOf(dbitems[1..])
  }

  /** A fetched row has a payload id, and that id leads back to it. */
  lemma FetchedRowHasId(table: map<Key, Record>, ids: seq<string>, dbitems: seq<DbItem>, i: nat)
    requires Fetched(table, ids, dbitems) && i < |dbitems|
    ensures KeyToPayloadId(dbitems[i].key).Success?
    ensures PayloadIdToKey(KeyToPayloadId(dbitems[i].key).value) == Success(dbitems[i].key)
  {
    assert Asked(ids, dbitems[i].key);
    var k :| 0 <= k < |ids| && PayloadIdToKey(ids[k]) == Success(dbitems[i].key);
    WrittenKeyComesBack(ids[k]);
  }

  lemma FetchedRowsHaveIds(table: map<Key, Record>, ids: seq<string>, dbitems: seq<DbItem>)
    requires Fetched(table, ids, dbitems)
    ensures forall i | 0 <= i < |dbitems| :: KeyToPayloadId(dbitems[i].key).Success?
  {
    forall i | 0 <= i < |dbitems| ensures KeyToPayloadId(dbitems[i].key).Success? {
      FetchedRowHasId(table, ids, dbitems, i);
    }
  }

  /** The items that carry an id are those of its own row. */
  lemma {:induction false} ItemOfOwnRow(table: map<Key, Record>, ids: seq<string>, dbitems: seq<DbItem>,
                                        id: string, key: Key, i: nat)
    requires Fetched(table, ids, dbitems) && PayloadIdToKey(id) == Success(key)
    requires i < |dbitems| && KeyToPayloadId(dbitems[i].key) == Success(id)
    ensures dbitems[i].key == key && KeyToPayloadId(key) == Success(id) && key in table
    ensures dbitems[i].state == table[key].state
  {
    FetchedRowHasId(table, ids, dbitems, i);
  }

  /** The row of an id is among those fetched. */
  lemma RowIsFetched(table: map<Key, Record>, ids: seq<string>, dbitems: seq<DbItem>, id: string, key: Key)
    returns (i: nat)
    requires Fetched(table, ids, dbitems) && id in ids && PayloadIdToKey(id) == Success(key) && key in table
    ensures i < |dbitems| && dbitems[i].key == key
  {
    var k :| 0 <= k < |ids| && ids[k] == id;
    assert Asked(ids, key);
    i :| 0 <= i < |dbitems| && dbitems[i].key == key;
  }

  /** The lookup finds the row stored under an id exactly when the id comes back; otherwise the id counts as unknown. */
  lemma {:induction false} LookUpFindsRowIff(table: map<Key, Record>, ids: seq<string>, dbitems: seq<DbItem>,
                                             id: string)
    requires Fetched(table, ids, dbitems) && id in ids && PayloadIdToKey(id).Success?
    ensures forall i | 0 <= i < |dbitems| :: KeyToPayloadId(dbitems[i].key).Success?
    ensures id in LookUp(ItemsOf(dbitems), ids)
    ensures var key := PayloadIdToKey(id).value;
            LookUp(ItemsOf(dbitems), ids)[id] ==
            if key in table && IdComesBack(id) then Some(table[key].state) else None
  {
    var key := PayloadIdToKey(id).value;
    FetchedRowsHaveIds(table, ids, dbitems);
    var items := ItemsOf(dbitems);
    if key in table && KeyToPayloadId(key) == Success(id) {
      var i := RowIsFetched(table, ids, dbitems, id, key);
      assert items[i].id == id;
    }
    if id in FoundStates(items) {
      var i := FoundStatesAreItems(items, id);
      ItemOfOwnRow(table, ids, dbitems, id, key, i);
    }
  }

  /** The lookup, the manager's and the caller's flags, and how each call would end. */
  datatype Batch = Batch(
    managers: seq<Manager>, states: map<string, Option<State>>, replace: bool, calls: seq<CallResult>)

  predicate ValidBatch(b: Batch) {
    && |b.calls| == |b.managers|
    && forall k | 0 <= k < |b.managers| :: b.managers[k].id in b.states
  }

  predicate Attempts(b: Batch, k: nat)
    requires ValidBatch(b) && k < |b.managers|
  {
    && b.managers[k].id !in Ids(b.managers)[..k]
    && Eligible(b.states[b.managers[k].id], b.replace || b.managers[k].replace)
  }

  /** What becomes of position `k`, from the input alone: repeats are dropped, the first occurrence is decided. */
  function VerdictOf(b: Batch, k: nat): Verdict
    requires ValidBatch(b) && k < |b.managers|
  {
    if b.managers[k].id in Ids(b.managers)[..k] then Drops
    else if !Attempts(b, k) then Skips
    else match b.calls[k]
      case Started => Starts
      case Skipped => Skips
      case TerminalError => Fails
      case Raised => Raises
  }

  /** The ids at the first `n` positions that get verdict `v`, in order. */
  function Pick(b: Batch, n: nat, v: Verdict): seq<string>
    requires ValidBatch(b) && n <= |b.managers|
  {
    if n == 0 then [] else Pick(b, n - 1, v) + if VerdictOf(b, n - 1) == v then [b.managers[n - 1].id] else []
  }

  function Attempted(b: Batch, n: nat): seq<string>
    requires ValidBatch(b) && n <= |b.managers|
  {
    if n == 0 then [] else Attempted(b, n - 1) + if Attempts(b, n - 1) then [b.managers[n - 1].id] else []
  }

  function Outcome(b: Batch): Lists
    requires ValidBatch(b)
  {
    Picked(b, |b.managers|)
  }

  predicate NoRaise(b: Batch, n: nat)
    requires ValidBatch(b) && n <= |b.managers|
  {
    forall k | 0 <= k < n :: VerdictOf(b, k) != Raises
  }

  ghost function Settled(b: Batch, n: nat): multiset<string>
    requires ValidBatch(b) && n <= |b.managers|
  {
    multiset(Pick(b, n, Starts)) + multiset(Pick(b, n, Skips)) + multiset(Pick(b, n, Fails))
  }

  /** The lists after the first `n` positions. */
  function Picked(b: Batch, n: nat): Lists
    requires ValidBatch(b) && n <= |b.managers|
  {
    Lists(Pick(b, n, Starts), Pick(b, n, Skips), Pick(b, n, Drops), Pick(b, n, Fails))
  }

  function Put(r: Lists, v: Verdict, id: string): Lists {
    match v
    case Starts => r.(started := r.started + [id])
    case Skips => r.(skipped := r.skipped + [id])
    case Drops => r.(dropped := r.dropped + [id])
    case Fails => r.(failed := r.failed + [id])
    case Raises => r
  }

  lemma PickStep(b: Batch, n: nat)
    requires ValidBatch(b) && n < |b.managers|
    ensures Picked(b, n + 1) == Put(Picked(b, n), VerdictOf(b, n), b.managers[n].id)
    ensures Attempted(b, n + 1) == if Attempts(b, n) then Attempted(b, n) + [b.managers[n].id] else Attempted(b, n)
  {
  }

  lemma PickOne(b: Batch, n: nat, v: Verdict)
    requires ValidBatch(b) && n < |b.managers|
    ensures multiset(Pick(b, n + 1, v)) ==
            multiset(Pick(b, n, v)) + if VerdictOf(b, n) == v then multiset{b.managers[n].id} else multiset{}
    ensures VerdictOf(b, n) != v ==> Pick(b, n + 1, v) == Pick(b, n, v)
  {
  }

  lemma PickAll(b: Batch, n: nat)
    requires ValidBatch(b) && n < |b.managers|
    ensures Settled(b, n + 1) == Settled(b, n) +
              if VerdictOf(b, n) in {Starts, Skips, Fails} then multiset{b.managers[n].id} else multiset{}
  {
    PickOne(b, n, Starts);
    PickOne(b, n, Skips);
    PickOne(b, n, Fails);
  }

  lemma DropStep(b: Batch, n: nat)
    requires ValidBatch(b) && n < |b.managers| && b.managers[n].id in Ids(b.managers)[..n]
    ensures Settled(b, n + 1) == Settled(b, n)
    ensures multiset(Pick(b, n + 1, Drops)) == multiset(Pick(b, n, Drops)) + multiset{b.managers[n].id}
  {
    PickAll(b, n);
    PickOne(b, n, Drops);
  }

  lemma SettleStep(b: Batch, n: nat)
    requires ValidBatch(b) && n < |b.managers| && b.managers[n].id !in Ids(b.managers)[..n]
    requires VerdictOf(b, n) != Raises
    ensures Settled(b, n + 1) == Settled(b, n) + multiset{b.managers[n].id}
    ensures Pick(b, n + 1, Drops) == Pick(b, n, Drops)
  {
    PickAll(b, n);
    PickOne(b, n, Drops);
  }

  lemma IdsStep(b: Batch, n: nat)
    requires n < |b.managers|
    ensures Ids(b.managers)[..n + 1] == Ids(b.managers)[..n] + [b.managers[n].id]
  {
  }

  /** The first occurrence of an id settles it, and nothing else does. */
  lemma NextSettled(b: Batch, n: nat)
    requires ValidBatch(b) && n < |b.managers| && VerdictOf(b, n) != Raises
    ensures var id := b.managers[n].id;
            Settled(b, n + 1) == Settled(b, n) + if id in Ids(b.managers)[..n] then multiset{} else multiset{id}
  {
    if b.managers[n].id in Ids(b.managers)[..n] {
      DropStep(b, n);
    } else {
      SettleStep(b, n);
    }
  }

  /** Each id of the list is counted once. */
  ghost predicate OnceEach(settled: multiset<string>, ids: seq<string>) {
    forall id :: settled[id] == if id in ids then 1 else 0
  }

  lemma CountStep(settled: multiset<string>, ids: seq<string>, id: string)
    requires OnceEach(settled, ids)
    ensures OnceEach(settled + if id in ids then multiset{} else multiset{id}, ids + [id])
  {
  }

  /** Every distinct id is settled once. */
  lemma {:induction false} SettledOnce(b: Batch, n: nat)
    requires ValidBatch(b) && n <= |b.managers| && NoRaise(b, n)
    ensures OnceEach(Settled(b, n), Ids(b.managers)[..n])
  {
    if n > 0 {
      SettledOnce(b, n - 1);
      NextSettled(b, n - 1);
      CountStep(Settled(b, n - 1), Ids(b.managers)[..n - 1], b.managers[n - 1].id);
      IdsStep(b, n - 1);
    }
  }

  lemma BalanceStep(settled: multiset<string>, drops: multiset<string>, ids: seq<string>, id: string)
    requires settled + drops == multiset(ids)
    ensures settled + multiset{id} + drops == multiset(ids + [id])
    ensures settled + (drops + multiset{id}) == multiset(ids + [id])
  {
  }

  /** Together with the dropped repeats the lists are the input. */
  lemma {:induction false} NothingIsLost(b: Batch, n: nat)
    requires ValidBatch(b) && n <= |b.managers| && NoRaise(b, n)
    ensures Settled(b, n) + multiset(Pick(b, n, Drops)) == multiset(Ids(b.managers)[..n])
  {
    if n > 0 {
      NothingIsLost(b, n - 1);
      if b.managers[n - 1].id in Ids(b.managers)[..n - 1] {
        DropStep(b, n - 1);
      } else {
        SettleStep(b, n - 1);
      }
      IdsStep(b, n - 1);
      BalanceStep(Settled(b, n - 1), multiset(Pick(b, n - 1, Drops)), Ids(b.managers)[..n - 1], b.managers[n - 1].id);
    }
  }

  lemma {:induction false} PrefixAttempts(b: Batch, n: nat)
    requires ValidBatch(b) && n <= |b.managers|
    ensures forall id :: multiset(Attempted(b, n))[id] <= 1
    ensures forall id | id in Attempted(b, n) :: id in Ids(b.managers)[..n]
  {
    if n > 0 {
      PrefixAttempts(b, n - 1);
      IdsStep(b, n - 1);
      var id := b.managers[n - 1].id;
      if Attempts(b, n - 1) {
        assert Attempted(b, n) == Attempted(b, n - 1) + [id];
        assert multiset(Attempted(b, n)) == multiset(Attempted(b, n - 1)) + multiset{id};
      } else {
        assert Attempted(b, n) == Attempted(b, n - 1) + [];
      }
    }
  }

  lemma {:induction false} OnlyAttemptsStartOrFail(b: Batch, n: nat, v: Verdict)
    requires ValidBatch(b) && n <= |b.managers| && v in {Starts, Fails}
    ensures forall id | id in Pick(b, n, v) :: id in Attempted(b, n)
  {
    if n > 0 {
      OnlyAttemptsStartOrFail(b, n - 1, v);
      if VerdictOf(b, n - 1) == v {
        assert Attempts(b, n - 1);
        assert Attempted(b, n) == Attempted(b, n - 1) + [b.managers[n - 1].id];
        assert Pick(b, n, v) == Pick(b, n - 1, v) + [b.managers[n - 1].id];
      } else {
        assert Pick(b, n, v) == Pick(b, n - 1, v) + [];
      }
    }
  }

  /**
   The accounting of a batch that returns: started, skipped and failed hold every distinct input id exactly once,
   the four lists together are the input, and no id is attempted twice.
   */
  lemma {:induction false} BatchPartition(b: Batch)
    requires ValidBatch(b) && NoRaise(b, |b.managers|)
    ensures var r := Outcome(b);
            && (forall id :: (multiset(r.started) + multiset(r.skipped) + multiset(r.failed))[id] ==
                             if id in Ids(b.managers) then 1 else 0)
            && multiset(r.started) + multiset(r.skipped) + multiset(r.failed) + multiset(r.dropped) ==
               multiset(Ids(b.managers))
            && (forall id :: multiset(Attempted(b, |b.managers|))[id] <= 1)
            && (forall id | id in r.started || id in r.failed :: id in Attempted(b, |b.managers|))
  {
    SettledOnce(b, |b.managers|);
    NothingIsLost(b, |b.managers|);
    PrefixAttempts(b, |b.managers|);
    OnlyAttemptsStartOrFail(b, |b.managers|, Starts);
    OnlyAttemptsStartOrFail(b, |b.managers|, Fails);
    assert Ids(b.managers)[..|b.managers|] == Ids(b.managers);
  }

  /** The code recognises a repeat by looking through the lists it has filled so far. */
  lemma {:induction false} ListsRecogniseRepeats(b: Batch, n: nat)
    requires ValidBatch(b) && n < |b.managers| && NoRaise(b, n)
    ensures var id := b.managers[n].id;
            id in Pick(b, n, Starts) || id in Pick(b, n, Skips) || id in Pick(b, n, Fails) <==>
            id in Ids(b.managers)[..n]
  {
    SettledOnce(b, n);
    assert Settled(b, n)[b.managers[n].id] == if b.managers[n].id in Ids(b.managers)[..n] then 1 else 0;
  }

  // The same in terms of the input, without the verdicts.

  /** The first position of its id. */
  ghost predicate FirstAt(managers: seq<Manager>, k: int)
    requires 0 <= k < |managers|
  {
    forall j | 0 <= j < k :: managers[j].id != managers[k].id
  }

  /** Nothing is stored, or what is stored is to be taken up again, or somebody asks to replace it. */
  ghost predicate TakenUp(states: map<string, Option<State>>, managers: seq<Manager>, replace: bool, k: int)
    requires 0 <= k < |managers| && managers[k].id in states
  {
    var state := states[managers[k].id];
    state.None? || state.value in {Failed, Aborted, Claimed} || replace || managers[k].replace
  }

  lemma {:induction false} FirstAtIff(managers: seq<Manager>, k: nat)
    requires k < |managers|
    ensures FirstAt(managers, k) <==> managers[k].id !in Ids(managers)[..k]
  {
    if managers[k].id in Ids(managers)[..k] {
      var j :| 0 <= j < k && Ids(managers)[j] == managers[k].id;
    } else {
      forall j | 0 <= j < k ensures managers[j].id != managers[k].id {
        assert Ids(managers)[..k][j] == managers[j].id;
      }
    }
  }

  lemma AttemptTells(b: Batch, k: nat)
    requires ValidBatch(b) && k < |b.managers|
    ensures Attempts(b, k) <==> FirstAt(b.managers, k) && TakenUp(b.states, b.managers, b.replace, k)
    ensures b.managers[k].id in Ids(b.managers)[..k] <==> !FirstAt(b.managers, k)
  {
    FirstAtIff(b.managers, k);
  }

  /** Each verdict by the first occurrence, the state and the call. */
  ghost predicate VerdictFrom(v: Verdict, first: bool, up: bool, call: CallResult) {
    && (v == Drops <==> !first)
    && (v == Starts <==> first && up && call.Started?)
    && (v == Skips <==> first && (!up || call.Skipped?))
    && (v == Fails <==> first && up && call.TerminalError?)
    && (v == Raises <==> first && up && call.Raised?)
  }

  lemma VerdictTells(b: Batch, k: nat)
    requires ValidBatch(b) && k < |b.managers|
    ensures VerdictFrom(VerdictOf(b, k), FirstAt(b.managers, k),
                        TakenUp(b.states, b.managers, b.replace, k), b.calls[k])
  {
    AttemptTells(b, k);
  }

  /** The ids of a list stand at these places of the input, one behind the other. */
  predicate AtPlaces(managers: seq<Manager>, list: seq<string>, places: seq<nat>) {
    && |places| == |list|
    && (forall i | 0 <= i < |places| :: places[i] < |managers| && managers[places[i]].id == list[i])
    && (forall i, j | 0 <= i < j < |places| :: places[i] < places[j])
  }

  ghost predicate InInputOrder(managers: seq<Manager>, list: seq<string>) {
    exists places :: AtPlaces(managers, list, places)
  }

  lemma OneMorePlace(managers: seq<Manager>, list: seq<string>, places: seq<nat>, n: nat)
    requires AtPlaces(managers, list, places) && n < |managers| && forall i | 0 <= i < |places| :: places[i] < n
    ensures AtPlaces(managers, list + [managers[n].id], places + [n])
    ensures n in places + [n] && forall k | k in places :: k in places + [n]
  {
  }

  /** Where the ids with one verdict come from. */
  lemma {:induction false} PickedPlaces(b: Batch, n: nat, v: Verdict) returns (places: seq<nat>)
    requires ValidBatch(b) && n <= |b.managers|
    ensures AtPlaces(b.managers, Pick(b, n, v), places)
    ensures forall i | 0 <= i < |places| :: places[i] < n && VerdictOf(b, places[i]) == v
    ensures forall k | 0 <= k < n && VerdictOf(b, k) == v :: k in places
  {
    if n == 0 {
      places := [];
    } else {
      places := PickedPlaces(b, n - 1, v);
      if VerdictOf(b, n - 1) == v {
        OneMorePlace(b.managers, Pick(b, n - 1, v), places, n - 1);
        places := places + [n - 1];
      }
    }
  }

  /** An id is in the list of a verdict exactly if its first occurrence has that verdict. */
  lemma {:induction false} PickTells(b: Batch, n: nat, v: Verdict, k: nat)
    requires ValidBatch(b) && k < n <= |b.managers| && FirstAt(b.managers, k) && v != Drops
    ensures b.managers[k].id in Pick(b, n, v) <==> VerdictOf(b, k) == v
    ensures InInputOrder(b.managers, Pick(b, n, v))
  {
    var places := PickedPlaces(b, n, v);
    var list := Pick(b, n, v);
    if VerdictOf(b, k) == v {
      var i :| 0 <= i < |places| && places[i] == k;
      assert list[i] == b.managers[k].id;
    }
    if b.managers[k].id in list {
      var i :| 0 <= i < |list| && list[i] == b.managers[k].id;
      VerdictTells(b, places[i]);
      SameFirst(b.managers, k, places[i]);
    }
  }

  lemma SameFirst(managers: seq<Manager>, j: nat, k: nat)
    requires j < |managers| && k < |managers| && FirstAt(managers, j) && FirstAt(managers, k)
    requires managers[j].id == managers[k].id
    ensures j == k
  {
  }

  lemma LaterIsNoAttempt(b: Batch, k: nat, n: nat)
    requires ValidBatch(b) && k < n < |b.managers|
    ensures Attempts(b, n) ==> b.managers[n].id != b.managers[k].id
  {
    assert Ids(b.managers)[..n][k] == b.managers[k].id;
  }

  lemma InAppended(x: string, xs: seq<string>, y: string, appends: bool)
    ensures x in xs + (if appends then [y] else []) <==> x in xs || (appends && x == y)
  {
  }

  lemma {:induction false} NotYetAttempted(b: Batch, k: nat)
    requires ValidBatch(b) && k < |b.managers| && FirstAt(b.managers, k)
    ensures b.managers[k].id !in Attempted(b, k)
  {
    FirstAtIff(b.managers, k);
    PrefixAttempts(b, k);
  }

  lemma {:induction false} AttemptedTells(b: Batch, n: nat, k: nat)
    requires ValidBatch(b) && k < n <= |b.managers| && FirstAt(b.managers, k)
    ensures b.managers[k].id in Attempted(b, n) <==> Attempts(b, k)
  {
    InAppended(b.managers[k].id, Attempted(b, n - 1), b.managers[n - 1].id, Attempts(b, n - 1));
    if k == n - 1 {
      NotYetAttempted(b, k);
    } else {
      AttemptedTells(b, n - 1, k);
      LaterIsNoAttempt(b, k, n - 1);
    }
  }

  /** What happens to every id and to every repeat, by the states that were looked up and the calls alone. */
  ghost predicate SettledByInput(b: Batch, r: Lists, attempted: seq<string>)
    requires ValidBatch(b)
  {
    && (forall k | 0 <= k < |b.managers| && FirstAt(b.managers, k) ::
          var id, up := b.managers[k].id, TakenUp(b.states, b.managers, b.replace, k);
          && (id in attempted <==> up)
          && (id in r.started <==> up && b.calls[k].Started?)
          && (id in r.skipped <==> !up || b.calls[k].Skipped?)
          && (id in r.failed <==> up && b.calls[k].TerminalError?))
    && InInputOrder(b.managers, r.started) && InInputOrder(b.managers, r.skipped)
    && InInputOrder(b.managers, r.failed) && InInputOrder(b.managers, r.dropped)
    && (forall id ::
          multiset(r.dropped)[id] + (if id in Ids(b.managers) then 1 else 0) == multiset(Ids(b.managers))[id])
  }

  lemma {:induction false} PickInOrder(b: Batch, n: nat, v: Verdict)
    requires ValidBatch(b) && n <= |b.managers|
    ensures InInputOrder(b.managers, Pick(b, n, v))
  {
    var places := PickedPlaces(b, n, v);
    assert AtPlaces(b.managers, Pick(b, n, v), places);
  }

  lemma {:induction false} OutcomeByInput(b: Batch)
    requires ValidBatch(b) && NoRaise(b, |b.managers|)
    ensures SettledByInput(b, Outcome(b), Attempted(b, |b.managers|))
  {
    var n := |b.managers|;
    forall k | 0 <= k < n && FirstAt(b.managers, k)
      ensures b.managers[k].id in Attempted(b, n) <==> TakenUp(b.states, b.managers, b.replace, k)
      ensures b.managers[k].id in Pick(b, n, Starts) <==> VerdictOf(b, k) == Starts
      ensures b.managers[k].id in Pick(b, n, Skips) <==> VerdictOf(b, k) == Skips
      ensures b.managers[k].id in Pick(b, n, Fails) <==> VerdictOf(b, k) == Fails
    {
      AttemptTells(b, k);
      AttemptedTells(b, n, k);
      PickTells(b, n, Starts, k);
      PickTells(b, n, Skips, k);
      PickTells(b, n, Fails, k);
    }
    forall k | 0 <= k < n && FirstAt(b.managers, k)
      ensures var up := TakenUp(b.states, b.managers, b.replace, k);
              && (VerdictOf(b, k) == Starts <==> up && b.calls[k].Started?)
              && (VerdictOf(b, k) == Skips <==> !up || b.calls[k].Skipped?)
              && (VerdictOf(b, k) == Fails <==> up && b.calls[k].TerminalError?)
    {
      VerdictTells(b, k);
    }
    PickInOrder(b, n, Starts);
    PickInOrder(b, n, Skips);
    PickInOrder(b, n, Fails);
    PickInOrder(b, n, Drops);
    DroppedAreRepeats(b);
  }

  lemma {:induction false} DroppedAreRepeats(b: Batch)
    requires ValidBatch(b) && NoRaise(b, |b.managers|)
    ensures forall id :: multiset(Outcome(b).dropped)[id] + (if id in Ids(b.managers) then 1 else 0)
                         == multiset(Ids(b.managers))[id]
  {
    BatchPartition(b);
  }

  /** A batch raises exactly when a call that is made does. */
  lemma RaiseByInput(b: Batch)
    requires ValidBatch(b)
    ensures NoRaise(b, |b.managers|) <==>
            forall k | 0 <= k < |b.managers| && FirstAt(b.managers, k) && TakenUp(b.states, b.managers, b.replace, k) ::
              !b.calls[k].Raised?
  {
    forall k | 0 <= k < |b.managers|
      ensures VerdictOf(b, k) == Raises <==>
              FirstAt(b.managers, k) && TakenUp(b.states, b.managers, b.replace, k) && b.calls[k].Raised?
    {
      VerdictTells(b, k);
    }
  }

  /** The first occurrences that are taken up and started. */
  ghost function StartedPlaces(managers: seq<Manager>, states: map<string, Option<State>>, replace: bool,
                               calls: seq<CallResult>): set<int>
    requires |calls| == |managers| && forall k | 0 <= k < |managers| :: managers[k].id in states
  {
    set k | 0 <= k < |managers| && FirstAt(managers, k) && TakenUp(states, managers, replace, k) && calls[k].Started?
  }

  lemma {:induction false} IncreasingCount(places: seq<nat>, elements: set<int>)
    requires forall i, j | 0 <= i < j < |places| :: places[i] < places[j]
    requires forall k :: k in elements <==> k in places
    ensures |elements| == |places|
  {
    if places == [] {
      forall k ensures k !in elements {
        assert k !in places;
      }
      assert elements == {};
    } else {
      var last := places[|places| - 1];
      var rest := elements - {last};
      forall k ensures k in rest <==> k in places[..|places| - 1] {
        assert places == places[..|places| - 1] + [last];
      }
      IncreasingCount(places[..|places| - 1], rest);
      assert last in places && last in elements;
      assert elements == rest + {last};
    }
  }

  lemma {:induction false} StartsCount(b: Batch)
    requires ValidBatch(b)
    ensures |Pick(b, |b.managers|, Starts)| == |StartedPlaces(b.managers, b.states, b.replace, b.calls)|
  {
    var places := PickedPlaces(b, |b.managers|, Starts);
    forall k | 0 <= k < |b.managers|
      ensures VerdictOf(b, k) == Starts <==>
              FirstAt(b.managers, k) && TakenUp(b.states, b.managers, b.replace, k) && b.calls[k].Started?
    {
      VerdictTells(b, k);
    }
    IncreasingCount(places, StartedPlaces(b.managers, b.states, b.replace, b.calls));
  }

  /** The verdict on a payload from the lists filled so far. */
  function VerdictIn(lists: Lists, id: string, up: bool, call: CallResult): Verdict {
    if id in lists.started || id in lists.skipped || id in lists.failed then Drops
    else if !up then Skips
    else match call
      case Started => Starts
      case Skipped => Skips
      case TerminalError => Fails
      case Raised => Raises
  }

  lemma {:induction false} NextVerdict(b: Batch, n: nat)
    requires ValidBatch(b) && n < |b.managers| && NoRaise(b, n)
    ensures var m, lists := b.managers[n], Picked(b, n);
            var up := Eligible(b.states[m.id], b.replace || m.replace);
            && VerdictOf(b, n) == VerdictIn(lists, m.id, up, b.calls[n])
            && Picked(b, n + 1) == Put(lists, VerdictIn(lists, m.id, up, b.calls[n]), m.id)
            && Attempted(b, n + 1) ==
               Attempted(b, n) + if VerdictIn(lists, m.id, true, Raised).Raises? && up then [m.id] else []
  {
    ListsRecogniseRepeats(b, n);
    PickStep(b, n);
  }

  /** One turn of the loop. */
  method Turn(manager: Manager, state: Option<State>, replace: bool, call: CallResult, lists: Lists)
    returns (verdict: Verdict, called: bool, next: Lists)
    ensures verdict == VerdictIn(lists, manager.id, Eligible(state, replace || manager.replace), call)
    ensures next == Put(lists, verdict, manager.id)
    ensures called <==>
            VerdictIn(lists, manager.id, true, Raised).Raises? && Eligible(state, replace || manager.replace)
  {
    var id := manager.id;
    called, next := false, lists;
    if id in lists.started || id in lists.skipped || id in lists.failed {
      verdict, next := Drops, lists.(dropped := lists.dropped + [id]);
    } else if Eligible(state, replace || manager.replace) {
      called := true;
      match call
      case Started => verdict, next := Starts, lists.(started := lists.started + [id]);
      case Skipped => verdict, next := Skips, lists.(skipped := lists.skipped + [id]);
      case TerminalError => verdict, next := Fails, lists.(failed := lists.failed + [id]);
      case Raised => verdict := Raises;
    } else {
      verdict, next := Skips, lists.(skipped := lists.skipped + [id]);
    }
  }

  /** The loop against the verdicts. */
  method RunThrough(managers: seq<Manager>, states: map<string, Option<State>>, replace: bool, calls: seq<CallResult>)
    returns (r: Result<Lists, CallResult>, attempted: seq<string>)
    requires ValidBatch(Batch(managers, states, replace, calls))
    ensures var b := Batch(managers, states, replace, calls);
            if NoRaise(b, |managers|) then r == Success(Outcome(b)) && attempted == Attempted(b, |managers|)
            else r == Failure(Raised)
  {
    ghost var b := Batch(managers, states, replace, calls);
    var lists := Lists([], [], [], []);
    attempted := [];
    for i := 0 to |managers|
      invariant NoRaise(b, i)
      invariant lists == Picked(b, i) && attempted == Attempted(b, i)
    {
      NextVerdict(b, i);
      var verdict, called, next := Turn(managers[i], states[managers[i].id], replace, calls[i], lists);
      attempted := attempted + if called then [managers[i].id] else [];
      if verdict.Raises? {
        return Failure(Raised), attempted;
      }
      lists := next;
    }
    r := Success(lists);
  }

  /** The whole batch: each list in input order, or the exception of the first raising call. */
  method Process(managers: seq<Manager>, items: seq<StateItem>, replace: bool, calls: seq<CallResult>)
    returns (r: Result<Lists, CallResult>, attempted: seq<string>)
    requires |calls| == |managers|
    ensures var b := Batch(managers, LookUp(items, Ids(managers)), replace, calls);
            ValidBatch(b) &&
            if NoRaise(b, |managers|) then r == Success(Outcome(b)) && attempted == Attempted(b, |managers|)
            else r == Failure(Raised)
    ensures var b := Batch(managers, LookUp(items, Ids(managers)), replace, calls);
            if r.Success? then SettledByInput(b, r.value, attempted)
            else exists k | 0 <= k < |managers| ::
                   FirstAt(managers, k) && TakenUp(b.states, managers, replace, k) && calls[k].Raised?
  {
    var states := LookUp(items, Ids(managers));
    ghost var b := Batch(managers, states, replace, calls);
    assert ValidBatch(b) by {
      assert forall k | 0 <= k < |managers| :: Ids(managers)[k] in states;
    }
    r, attempted := RunThrough(managers, states, replace, calls);
    RaiseByInput(b);
    if r.Success? {
      OutcomeByInput(b);
    }
  }
}
