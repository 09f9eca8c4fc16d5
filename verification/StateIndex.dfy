/** `state_updated` is a string; the conditions and index ranges over it stand in for tests on the state. */
module StateIndex {
  import opened Wrappers
  import opened Records
  import opened Strings

  function StateName(state: State): string {
    match state
    case Processing => "PROCESSING"
    case Succeeded => "SUCCEEDED"
    case Failed => "FAILED"
    case Invalid => "INVALID"
    case Aborted => "ABORTED"
    case Claimed => "CLAIMED"
  }

  function StateUpdated(state: State, stamp: string): string {
    StateName(state) + "_" + stamp
  }

  predicate BeginsWith(s: string, prefix: string) {
    prefix <= s
  }

  predicate Between(s: string, lo: string, hi: string) {
    Leq(lo, s) && Leq(s, hi)
  }

  /** Six names, six initials. */
  lemma InitialsDiffer(a: State, b: State)
    requires a != b
    ensures StateName(a) != [] && StateName(b) != [] && StateName(a)[0] != StateName(b)[0]
  {
  }

  /** A prefix test on the stored string decides the state. */
  lemma PrefixDecidesState(state: State, stamp: string, wanted: State)
    ensures BeginsWith(StateUpdated(state, stamp), StateName(wanted)) <==> state == wanted
  {
    if state != wanted {
      InitialsDiffer(state, wanted);
      assert StateUpdated(state, stamp)[0] == StateName(state)[0];
    }
  }

  /** A range between two stamps of one state selects that state and those stamps and nothing else. */
  lemma RangeDecidesStateAndStamp(state: State, stamp: string, wanted: State, begin: string, end: string)
    ensures Between(StateUpdated(state, stamp), StateUpdated(wanted, begin), StateUpdated(wanted, end)) <==>
            state == wanted && InOrder(begin, stamp) && InOrder(stamp, end)
  {
    LeqIff(begin, stamp);
    LeqIff(stamp, end);
    if state == wanted {
      CommonPrefixCancels(StateName(state) + "_", begin, stamp);
      CommonPrefixCancels(StateName(state) + "_", stamp, end);
    } else {
      InitialsDiffer(state, wanted);
      assert StateUpdated(state, stamp)[0] == StateName(state)[0];
      assert StateUpdated(wanted, begin)[0] == StateName(wanted)[0];
      assert StateUpdated(wanted, end)[0] == StateName(wanted)[0];
    }
  }

  /** The condition of `claim_processing`; `begins_with` is false of an attribute the row does not have. */
  predicate ClaimCondition(row: Option<Record>) {
    !(row.Some? && BeginsWith(StateUpdated(row.value.state, row.value.updated), StateName(Processing))) &&
    !(row.Some? && BeginsWith(StateUpdated(row.value.state, row.value.updated), StateName(Claimed)))
  }

  /** The condition of `set_processing`. */
  predicate SetProcessingCondition(row: Option<Record>) {
    row.Some? && BeginsWith(StateUpdated(row.value.state, row.value.updated), StateName(Claimed))
  }

  /** The two guards of the protocol are exactly their state tests. */
  lemma ConditionsDecideState(row: Option<Record>)
    ensures ClaimCondition(row) <==> ClaimAllowed(row)
    ensures SetProcessingCondition(row) <==> SetProcessingAllowed(row)
  {
    if row.Some? {
      PrefixDecidesState(row.value.state, row.value.updated, Processing);
      PrefixDecidesState(row.value.state, row.value.updated, Claimed);
    }
  }

  /** UpdateItem with the condition of `claim_processing`: the row as written, or the refused row as it was. */
  function ClaimUpdate(row: Option<Record>, arn: Arn, now: string): (r: Result<Record, Option<Record>>)
    ensures r == if ClaimAllowed(row) then Success(ClaimWrite(row, arn, now)) else Failure(row)
  {
    ConditionsDecideState(row);
    if ClaimCondition(row) then Success(ClaimWrite(row, arn, now)) else Failure(row)
  }

  /** The same with the condition of `set_processing`. */
  function ProcessingUpdate(row: Option<Record>, now: string): (r: Result<Record, Option<Record>>)
    ensures r == if SetProcessingAllowed(row) then Success(ProcessingWrite(row.value, now)) else Failure(row)
  {
    ConditionsDecideState(row);
    if SetProcessingCondition(row) then Success(ProcessingWrite(row.value, now)) else Failure(row)
  }

  /** `StateEnum(state_updated.split("_")[0])`: the state a refused write finds in the returned row. */
  function ParseState(stateUpdated: string): Option<State> {
    var i := First(stateUpdated, '_');
    var name := if i == -1 then stateUpdated else stateUpdated[..i];
    if name == "PROCESSING" then Some(Processing)
    else if name == "SUCCEEDED" then Some(Succeeded)
    else if name == "FAILED" then Some(Failed)
    else if name == "INVALID" then Some(Invalid)
    else if name == "ABORTED" then Some(Aborted)
    else if name == "CLAIMED" then Some(Claimed)
    else None
  }

  /** Reading the state back out of the stored string, whatever the time stamp looks like. */
  lemma ParseStateRoundTrip(state: State, stamp: string)
    ensures ParseState(StateUpdated(state, stamp)) == Some(state)
  {
    var s := StateUpdated(state, stamp);
    FirstIs(s, '_', |StateName(state)|);
    assert s[..|StateName(state)|] == StateName(state);
  }

  /** The stored text of every state. */
  lemma StoredTexts(stamp: string)
    ensures StateUpdated(Claimed, stamp) == "CLAIMED_" + stamp
    ensures StateUpdated(Processing, stamp) == "PROCESSING_" + stamp
    ensures StateUpdated(Succeeded, stamp) == "SUCCEEDED_" + stamp && StateUpdated(Failed, stamp) == "FAILED_" + stamp
    ensures StateUpdated(Invalid, stamp) == "INVALID_" + stamp && StateUpdated(Aborted, stamp) == "ABORTED_" + stamp
  {
    assert "CLAIMED" + "_" == "CLAIMED_" && "PROCESSING" + "_" == "PROCESSING_" && "SUCCEEDED" + "_" == "SUCCEEDED_";
    assert "FAILED" + "_" == "FAILED_" && "INVALID" + "_" == "INVALID_" && "ABORTED" + "_" == "ABORTED_";
  }
}
