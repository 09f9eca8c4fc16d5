/** Reading an index of the state table page by page: `query`, `get_items_page`, `get_items`, `get_counts`. */
module Paging {
  import opened Wrappers
  import opened Records
  import opened StateIndex
  import opened PayloadIds
  import opened Strings

  datatype Item = Item(key: Key, stateUpdated: string, updated: string, lastError: Option<string>)

  /** The key condition `query` builds from its `state` and `since` arguments. */
  predicate KeyCondition(item: Item, state: Option<State>, since: Option<(string, string)>) {
    match since
    case None => state.None? || BeginsWith(item.stateUpdated, StateName(state.value))
    case Some((begin, end)) =>
      if state.None? then Between(item.updated, begin, end)
      else Between(item.stateUpdated, StateUpdated(state.value, begin), StateUpdated(state.value, end))
  }

  /** On rows as the table writes them, the string conditions select by state and by time of update. */
  lemma KeyConditionSelects(item: Item, actual: State, state: Option<State>, since: Option<(string, string)>)
    requires item.stateUpdated == StateUpdated(actual, item.updated)
    ensures KeyCondition(item, state, since) <==>
            (state.None? || state.value == actual) &&
            (since.None? || (InOrder(since.value.0, item.updated) && InOrder(item.updated, since.value.1)))
  {
    if since.Some? {
      LeqIff(since.value.0, item.updated);
      LeqIff(item.updated, since.value.1);
    }
    if state.Some? {
      PrefixDecidesState(actual, item.updated, state.value);
      if since.Some? {
        RangeDecidesStateAndStamp(actual, item.updated, state.value, since.value.0, since.value.1);
      }
    }
  }

  /** A concrete window: a row updated in June lies between January and December, and not the other way round. */
  lemma JuneIsInTheYear(key: Key)
    ensures var item := Item(key, StateUpdated(Failed, "2024-06"), "2024-06", None);
            && KeyCondition(item, Some(Failed), Some(("2024-01", "2024-12")))
            && KeyCondition(item, None, Some(("2024-01", "2024-12")))
            && !KeyCondition(item, Some(Failed), Some(("2024-12", "2024-01")))
            && !KeyCondition(item, Some(Aborted), Some(("2024-01", "2024-12")))
  {
    var item := Item(key, StateUpdated(Failed, "2024-06"), "2024-06", None);
    YearInOrder();
    KeyConditionSelects(item, Failed, Some(Failed), Some(("2024-01", "2024-12")));
    KeyConditionSelects(item, Failed, None, Some(("2024-01", "2024-12")));
    KeyConditionSelects(item, Failed, Some(Failed), Some(("2024-12", "2024-01")));
    KeyConditionSelects(item, Failed, Some(Aborted), Some(("2024-01", "2024-12")));
  }

  lemma YearInOrder()
    ensures InOrder("2024-01", "2024-06") && InOrder("2024-06", "2024-12") && !InOrder("2024-12", "2024-06")
  {
    InOrderAt("2024-0", '1', "", '6', "");
    InOrderAt("2024-", '0', "6", '1', "2");
    InOrderAt("2024-", '1', "2", '0', "6");
    assert "2024-0" + ['1'] + "" == "2024-01" && "2024-0" + ['6'] + "" == "2024-06";
    assert "2024-" + ['0'] + "6" == "2024-06" && "2024-" + ['1'] + "2" == "2024-12";
  }

  /** The filter on the error; an empty prefix means no filter. */
  predicate Matches(item: Item, errorPrefix: string) {
    errorPrefix == "" || (item.lastError.Some? && BeginsWith(item.lastError.value, errorPrefix))
  }

  function Kept(row: Item, errorPrefix: string): seq<Item> {
    if Matches(row, errorPrefix) then [row] else []
  }

  function Filter(rows: seq<Item>, errorPrefix: string): seq<Item> {
    if rows == [] then []
    else Kept(rows[0], errorPrefix) + Filter(rows[1..], errorPrefix)
  }

  lemma {:induction false} FilterStep(row: Item, rest: seq<Item>, errorPrefix: string)
    ensures Filter([row] + rest, errorPrefix) == Kept(row, errorPrefix) + Filter(rest, errorPrefix)
  {
    assert ([row] + rest)[1..] == rest;
  }

  lemma {:induction false} FilterConcat(a: seq<Item>, b: seq<Item>, errorPrefix: string)
    ensures Filter(a + b, errorPrefix) == Filter(a, errorPrefix) + Filter(b, errorPrefix)
  {
    if a == [] {
      assert a + b == b;
    } else {
      assert a == [a[0]] + a[1..] && a + b == [a[0]] + (a[1..] + b);
      FilterStep(a[0], a[1..], errorPrefix);
      FilterStep(a[0], a[1..] + b, errorPrefix);
      FilterConcat(a[1..], b, errorPrefix);
    }
  }

  /** At every place of a list the filter keeps exactly the rows whose error begins with the prefix, in their order. */
  lemma {:induction false} FilterSelects(before: seq<Item>, row: Item, after: seq<Item>, errorPrefix: string)
    ensures Filter([], errorPrefix) == []
    ensures Filter(before + [row] + after, errorPrefix) ==
            Filter(before, errorPrefix)
            + (if errorPrefix == "" || (row.lastError.Some? && errorPrefix <= row.lastError.value) then [row] else [])
            + Filter(after, errorPrefix)
  {
    FilterConcat(before + [row], after, errorPrefix);
    FilterConcat(before, [row], errorPrefix);
    assert [row] + [] == [row];
    FilterStep(row, [], errorPrefix);
  }

  predicate DistinctKeys(rows: seq<Item>) {
    forall i, j | 0 <= i < j < |rows| :: rows[i].key != rows[j].key
  }

  /** The rows of a static index, in index order: one per key, every key written by the table's own methods. */
  ghost predicate ValidIndex(rows: seq<Item>) {
    DistinctKeys(rows) && forall i | 0 <= i < |rows| :: GoodKey(rows[i].key)
  }

  /** The position of a key, the number of rows when there is none. */
  function PositionOf(rows: seq<Item>, key: Key): (i: nat)
    ensures i <= |rows|
    ensures i < |rows| ==> rows[i].key == key
    ensures forall k | 0 <= k < i :: rows[k].key != key
  {
    if rows == [] then 0 else if rows[0].key == key then 0 else 1 + PositionOf(rows[1..], key)
  }

  lemma {:induction false} PositionOfLast(rows: seq<Item>, end: nat)
    requires DistinctKeys(rows) && 0 < end <= |rows|
    ensures PositionOf(rows, rows[end - 1].key) == end - 1
  {
  }

  datatype PageError = BadKey | NotFound

  /** `items` are the matches among the rows from `start` to `end`, a stretch of at most `limit`. */
  predicate Stretch(rows: seq<Item>, errorPrefix: string, start: nat, limit: nat, items: seq<Item>, end: nat) {
    && start <= end <= |rows| && end - start <= limit
    && items == Filter(rows[start..end], errorPrefix)
  }

  /** The last key of a query names its last row; there may be one although no row is left. */
  predicate EndsWith(rows: seq<Item>, start: nat, last: Option<Key>, end: nat) {
    if last.Some? then start < end <= |rows| && last.value == rows[end - 1].key else end == |rows|
  }

  /** One DynamoDB query: one stretch behind `start`; a last key unless the end was reached, and possibly even then. */
  method Query(rows: seq<Item>, errorPrefix: string, start: nat, limit: nat)
    returns (items: seq<Item>, last: Option<Key>)
    requires start <= |rows| && limit > 0
    ensures exists end: nat ::
              Stretch(rows, errorPrefix, start, limit, items, end) &&
              EndsWith(rows, start, last, end)
  {
    if start == |rows| {
      items, last := [], None;
      assert rows[start..start] == [];
      assert Stretch(rows, errorPrefix, start, limit, items, start);
    } else {
      assert start < start + 1 <= |rows|;
      var stop: nat :| start < stop <= |rows| && stop - start <= limit;
      items := Filter(rows[start..stop], errorPrefix);
      var marked: bool := *;
      last := if stop < |rows| || marked then Some(rows[stop - 1].key) else None;
      assert Stretch(rows, errorPrefix, start, limit, items, stop);
    }
  }

  /** The place right behind the row of a key. */
  function Behind(rows: seq<Item>, key: Key): (r: Result<nat, PageError>)
    ensures r.Success? ==> r.value <= |rows|
  {
    var i := PositionOf(rows, key);
    if i == |rows| then Failure(NotFound) else Success(i + 1)
  }

  /** Where reading resumes for the `nextkey` of a caller: behind the row of that payload id. */
  function StartOf(rows: seq<Item>, nextkey: Option<string>): (r: Result<nat, PageError>)
    ensures r.Success? ==> r.value <= |rows|
  {
    if nextkey.None? || nextkey.value == "" then Success(0)
    else match PayloadIdToKey(nextkey.value)
      case Failure(_) => Failure(BadKey)
      case Success(key) =>
        Behind(rows, key)
  }

  /** What a page hands out as `nextkey` after reading from `start` to `end`. */
  predicate Resumes(rows: seq<Item>, start: nat, nextkey: Option<string>, end: nat) {
    if nextkey.Some? then start < end && StartOf(rows, nextkey) == Success(end) else end == |rows|
  }

  lemma GoodKeysHaveIds(key: Key)
    requires GoodKey(key)
    ensures KeyToPayloadId(key).Success?
    ensures PayloadIdToKey(KeyToPayloadId(key).value) == Success(key)
  {
    KeyRoundTripIff(key);
  }

  lemma ResumesBehind(rows: seq<Item>, id: string, key: Key)
    requires PayloadIdToKey(id) == Success(key)
    ensures StartOf(rows, Some(id)) == Behind(rows, key)
  {
    assert OccursAt(id, SEP, Find(id, SEP));
  }

  lemma BehindRow(rows: seq<Item>, i: nat)
    requires DistinctKeys(rows) && i < |rows|
    ensures Behind(rows, rows[i].key) == Success(i + 1)
  {
    PositionOfLast(rows, i + 1);
  }

  /** The payload id of a row leads back to that row. */
  lemma NextKeyLeadsBack(rows: seq<Item>, i: nat)
    requires ValidIndex(rows) && i < |rows|
    ensures var id := KeyToPayloadId(rows[i].key);
            id.Success? && StartOf(rows, Some(id.value)) == Success(i + 1)
  {
    var key := rows[i].key;
    GoodKeysHaveIds(key);
    ResumesBehind(rows, KeyToPayloadId(key).value, key);
    BehindRow(rows, i);
  }

  /** The key a query ends with, as a payload id. */
  lemma PageResumes(rows: seq<Item>, start: nat, last: Option<Key>, end: nat)
    requires ValidIndex(rows) && start <= end <= |rows| && EndsWith(rows, start, last, end)
    ensures last.None? ==> Resumes(rows, start, None, end)
    ensures last.Some? ==>
              KeyToPayloadId(last.value).Success? &&
              Resumes(rows, start, Some(KeyToPayloadId(last.value).value), end)
  {
    if last.Some? {
      NextKeyLeadsBack(rows, end - 1);
    }
  }

  /** The two ways a `nextkey` fails: it is no payload id, or no row is stored under it. */
  lemma NextKeyFails(rows: seq<Item>, id: string)
    requires id != ""
    ensures StartOf(rows, Some(id)) == Failure(BadKey) <==> PayloadIdToKey(id).Failure?
    ensures StartOf(rows, Some(id)) == Failure(NotFound) <==>
            PayloadIdToKey(id).Success? && forall i | 0 <= i < |rows| :: rows[i].key != PayloadIdToKey(id).value
  {
    if PayloadIdToKey(id).Success? {
      PositionTells(rows, PayloadIdToKey(id).value);
    }
  }

  lemma PositionTells(rows: seq<Item>, key: Key)
    ensures Behind(rows, key) == Failure(NotFound) <==> forall i | 0 <= i < |rows| :: rows[i].key != key
    ensures Behind(rows, key) != Failure(BadKey)
  {
  }

  /** `get_items_page`: the `nextkey` it hands out resumes right behind the rows it has read. */
  method GetItemsPage(rows: seq<Item>, errorPrefix: string, limit: nat, nextkey: Option<string>)
    returns (r: Result<(seq<Item>, Option<string>), PageError>)
    requires ValidIndex(rows) && limit > 0
    ensures StartOf(rows, nextkey).Failure? ==> r == Failure(StartOf(rows, nextkey).error)
    ensures StartOf(rows, nextkey).Success? ==>
              r.Success? &&
              exists end: nat ::
                Stretch(rows, errorPrefix, StartOf(rows, nextkey).value, limit, r.value.0, end) &&
                Resumes(rows, StartOf(rows, nextkey).value, r.value.1, end)
  {
    match StartOf(rows, nextkey)
    case Failure(e) => r := Failure(e);
    case Success(start) =>
      var items, last := Query(rows, errorPrefix, start, limit);
      ghost var end: nat :| Stretch(rows, errorPrefix, start, limit, items, end) &&
                            EndsWith(rows, start, last, end);
      PageResumes(rows, start, last, end);
      r := Success((items, if last.None? then None else Some(KeyToPayloadId(last.value).value)));
      assert Stretch(rows, errorPrefix, start, limit, r.value.0, end) && Resumes(rows, start, r.value.1, end);
  }

  function Take(items: seq<Item>, limit: Option<nat>): seq<Item> {
    if limit.None? || |items| <= limit.value then items else items[..limit.value]
  }

  /** Filtering what was read so far gives a prefix of filtering everything. */
  lemma {:induction false} ReadSoFar(rows: seq<Item>, start: nat, mid: nat, end: nat, errorPrefix: string)
    requires start <= mid <= end <= |rows|
    ensures Filter(rows[start..end], errorPrefix) ==
            Filter(rows[start..mid], errorPrefix) + Filter(rows[mid..end], errorPrefix)
  {
    assert rows[start..end] == rows[start..mid] + rows[mid..end];
    FilterConcat(rows[start..mid], rows[mid..end], errorPrefix);
  }

  /** When reading may stop: at the end of the rows, or with enough matches. */
  lemma {:induction false} EnoughRead(rows: seq<Item>, start: nat, end: nat, errorPrefix: string, limit: Option<nat>)
    requires start <= end <= |rows|
    ensures var items, all := Filter(rows[start..end], errorPrefix), Filter(rows[start..], errorPrefix);
            && (end == |rows| ==> items == all)
            && (limit.Some? && limit.value <= |items| ==> items[..limit.value] == Take(all, limit))
  {
    ReadSoFar(rows, start, end, |rows|, errorPrefix);
    assert rows[start..|rows|] == rows[start..];
  }

  /** Enough has been read from `start` to `end`, and `items` are the matches. */
  predicate EnoughItems(rows: seq<Item>, errorPrefix: string, limit: Option<nat>, items: seq<Item>,
                        start: nat, end: nat)
  {
    && start <= end <= |rows| && items == Filter(rows[start..end], errorPrefix)
    && (end == |rows| || (limit.Some? && limit.value <= |items|))
  }

  /** The loop of `get_items`, entered with the first page read. */
  method ReadOn(rows: seq<Item>, errorPrefix: string, pageSize: nat, limit: Option<nat>,
                first: seq<Item>, nextkey: Option<string>, ghost start: nat, ghost mid: nat)
    returns (items: seq<Item>)
    requires ValidIndex(rows) && pageSize > 0 && start <= mid <= |rows|
    requires first == Filter(rows[start..mid], errorPrefix)
    requires nextkey.None? ==> mid == |rows|
    requires nextkey.Some? ==> StartOf(rows, nextkey) == Success(mid)
    ensures exists end: nat :: EnoughItems(rows, errorPrefix, limit, items, start, end)
  {
    var next := nextkey;
    ghost var end := mid;
    items := first;
    while next.Some? && (limit.None? || |items| < limit.value)
      invariant mid <= end <= |rows|
      invariant items == Filter(rows[start..end], errorPrefix)
      invariant next.None? ==> end == |rows|
      invariant next.Some? ==> StartOf(rows, next) == Success(end)
      decreases |rows| - end + if next.Some? then 1 else 0
    {
      var page := GetItemsPage(rows, errorPrefix, pageSize, next);
      ghost var stop: nat :| Stretch(rows, errorPrefix, end, pageSize, page.value.0, stop) &&
                             Resumes(rows, end, page.value.1, stop);
      ReadSoFar(rows, start, end, stop, errorPrefix);
      items, next, end := items + page.value.0, page.value.1, stop;
    }
    assert EnoughItems(rows, errorPrefix, limit, items, start, end);
  }

  /**
   `get_items`: whatever the page size, wherever DynamoDB cuts its pages and however few rows of a page match, the
   result is the first `limit` matching rows behind the starting point, in index order.
   */
  method GetItems(rows: seq<Item>, errorPrefix: string, pageSize: nat, limit: Option<nat>, nextkey: Option<string>)
    returns (r: Result<seq<Item>, PageError>)
    requires ValidIndex(rows) && pageSize > 0
    ensures StartOf(rows, nextkey).Failure? ==> r == Failure(StartOf(rows, nextkey).error)
    ensures StartOf(rows, nextkey).Success? ==>
              r == Success(Take(Filter(rows[StartOf(rows, nextkey).value..], errorPrefix), limit))
    ensures nextkey.None? || nextkey.value == "" ==>
              && r.Success? && r.value <= Filter(rows, errorPrefix)
              && (limit.None? ==> r.value == Filter(rows, errorPrefix))
              && (limit.Some? ==> |r.value| == if |Filter(rows, errorPrefix)| < limit.value
                                               then |Filter(rows, errorPrefix)| else limit.value)
  {
    assert rows[0..] == rows;
    var page := GetItemsPage(rows, errorPrefix, pageSize, nextkey);
    if page.Failure? {
      return Failure(page.error);
    }
    ghost var start := StartOf(rows, nextkey).value;
    ghost var mid: nat :| Stretch(rows, errorPrefix, start, pageSize, page.value.0, mid) &&
                          Resumes(rows, start, page.value.1, mid);
    var items := ReadOn(rows, errorPrefix, pageSize, limit, page.value.0, page.value.1, start, mid);
    ghost var end: nat :| EnoughItems(rows, errorPrefix, limit, items, start, end);
    EnoughRead(rows, start, end, errorPrefix, limit);
    r := Success(if limit.None? || |items| < limit.value then items else items[..limit.value]);
  }

  datatype Count = Exact(n: nat) | Capped(limit: nat)

  lemma {:induction false} CountedSoFar(rows: seq<Item>, end: nat, errorPrefix: string)
    requires end <= |rows|
    ensures |Filter(rows[0..end], errorPrefix)| <= |Filter(rows, errorPrefix)|
    ensures end == |rows| ==> |Filter(rows[0..end], errorPrefix)| == |Filter(rows, errorPrefix)|
  {
    ReadSoFar(rows, 0, end, |rows|, errorPrefix);
    assert rows[0..|rows|] == rows;
  }

  /** `get_counts`: exact, or capped at a limit above zero; reading stops early without changing the answer. */
  method GetCounts(rows: seq<Item>, errorPrefix: string, pageSize: nat, limit: Option<nat>) returns (r: Count)
    requires DistinctKeys(rows) && pageSize > 0
    ensures var total := |Filter(rows, errorPrefix)|;
            r == if limit.Some? && limit.value != 0 && total > limit.value then Capped(limit.value) else Exact(total)
  {
    var items, last := Query(rows, errorPrefix, 0, pageSize);
    ghost var end: nat :| Stretch(rows, errorPrefix, 0, pageSize, items, end) && EndsWith(rows, 0, last, end);
    var counts := |items|;
    while last.Some? && (limit.None? || limit.value == 0 || counts <= limit.value)
      invariant end <= |rows| && counts == |Filter(rows[0..end], errorPrefix)|
      invariant EndsWith(rows, 0, last, end)
      decreases |rows| - end + if last.Some? then 1 else 0
    {
      ghost var mid := end;
      PositionOfLast(rows, end);
      var start := PositionOf(rows, last.value) + 1;
      items, last := Query(rows, errorPrefix, start, pageSize);
      end :| Stretch(rows, errorPrefix, start, pageSize, items, end) && EndsWith(rows, start, last, end);
      ReadSoFar(rows, 0, mid, end, errorPrefix);
      counts := counts + |items|;
    }
    CountedSoFar(rows, end, errorPrefix);
    if limit.Some? && limit.value != 0 && counts > limit.value {
      r := Capped(limit.value);
    } else {
      r := Exact(counts);
    }
  }
}
