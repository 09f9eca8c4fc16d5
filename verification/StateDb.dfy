/** The state-changing methods of `StateDB` over a table keyed by what a payload id is split into. */
module StateTable {
  import opened Wrappers
  import opened Records
  import opened PayloadIds
  import opened StateIndex

  datatype DbError = BadPayloadId | ConditionFailed(item: Option<Record>)

  function Row(table: map<Key, Record>, key: Key): Option<Record> {
    if key in table then Some(table[key]) else None
  }

  class StateDb {
    var table: map<Key, Record>

    constructor (table: map<Key, Record>)
      ensures this.table == table
    {
      this.table := table;
    }

    method ClaimProcessing(id: string, arn: Arn, now: string) returns (r: Result<(), DbError>)
      modifies this
      ensures match PayloadIdToKey(id)
              case Failure(_) => r == Failure(BadPayloadId) && table == old(table)
              case Success(key) =>
                var was := Row(old(table), key);
                if was.None? || was.value.state !in {Processing, Claimed}
                then r == Success(()) &&
                     table == old(table)[key := Record(Claimed, if was.Some? then was.value.created else now, now,
                       Some(now), (if was.Some? then was.value.executions else []) + [arn], None, None)]
                else r == Failure(ConditionFailed(was)) && table == old(table)
    {
      match PayloadIdToKey(id)
      case Failure(_) => r := Failure(BadPayloadId);
      case Success(key) =>
        match ClaimUpdate(Row(table, key), arn, now)
        case Success(row) =>
          table := table[key := row];
          r := Success(());
        case Failure(was) => r := Failure(ConditionFailed(was));
    }

    method SetProcessing(id: string, now: string) returns (r: Result<(), DbError>)
      modifies this
      ensures match PayloadIdToKey(id)
              case Failure(_) => r == Failure(BadPayloadId) && table == old(table)
              case Success(key) =>
                var was := Row(old(table), key);
                if was.Some? && was.value.state == Claimed
                then r == Success(()) && table == old(table)[key := was.value.(state := Processing, updated := now)]
                else r == Failure(ConditionFailed(was)) && table == old(table)
    {
      match PayloadIdToKey(id)
      case Failure(_) => r := Failure(BadPayloadId);
      case Success(key) =>
        match ProcessingUpdate(Row(table, key), now)
        case Success(row) =>
          table := table[key := row];
          r := Success(());
        case Failure(was) => r := Failure(ConditionFailed(was));
    }

    method SetSucceeded(id: string, outputs: Option<seq<string>>, now: string) returns (r: Result<(), DbError>)
      modifies this
      ensures match PayloadIdToKey(id)
              case Failure(_) => r == Failure(BadPayloadId) && table == old(table)
              case Success(key) =>
                var was := Row(old(table), key);
                r == Success(()) && table == old(table)[key :=
                  if was.Some?
                  then was.value.(state := Succeeded, updated := now,
                                  outputs := if outputs.Some? then outputs else was.value.outputs)
                  else Record(Succeeded, now, now, None, [], None, outputs)]
    {
      match PayloadIdToKey(id)
      case Failure(_) => r := Failure(BadPayloadId);
      case Success(key) =>
        table := table[key := SucceededWrite(Row(table, key), outputs, now)];
        r := Success(());
    }

    method SetFailed(id: string, msg: string, now: string) returns (r: Result<(), DbError>)
      modifies this
      ensures match PayloadIdToKey(id)
              case Failure(_) => r == Failure(BadPayloadId) && table == old(table)
              case Success(key) =>
                var was := Row(old(table), key);
                r == Success(()) && table == old(table)[key :=
                  if was.Some? then was.value.(state := Failed, updated := now, lastError := Some(msg))
                  else Record(Failed, now, now, None, [], Some(msg), None)]
    {
      match PayloadIdToKey(id)
      case Failure(_) => r := Failure(BadPayloadId);
      case Success(key) =>
        table := table[key := FailedWrite(Row(table, key), msg, now)];
        r := Success(());
    }

    method SetInvalid(id: string, msg: string, now: string) returns (r: Result<(), DbError>)
      modifies this
      ensures match PayloadIdToKey(id)
              case Failure(_) => r == Failure(BadPayloadId) && table == old(table)
              case Success(key) =>
                var was := Row(old(table), key);
                r == Success(()) && table == old(table)[key :=
                  if was.Some? then was.value.(state := Invalid, updated := now, lastError := Some(msg))
                  else Record(Invalid, now, now, None, [], Some(msg), None)]
    {
      match PayloadIdToKey(id)
      case Failure(_) => r := Failure(BadPayloadId);
      case Success(key) =>
        table := table[key := InvalidWrite(Row(table, key), msg, now)];
        r := Success(());
    }

    method SetAborted(id: string, now: string) returns (r: Result<(), DbError>)
      modifies this
      ensures match PayloadIdToKey(id)
              case Failure(_) => r == Failure(BadPayloadId) && table == old(table)
              case Success(key) =>
                var was := Row(old(table), key);
                r == Success(()) && table == old(table)[key :=
                  if was.Some? then was.value.(state := Aborted, updated := now)
                  else Record(Aborted, now, now, None, [], None, None)]
    {
      match PayloadIdToKey(id)
      case Failure(_) => r := Failure(BadPayloadId);
      case Success(key) =>
        table := table[key := AbortedWrite(Row(table, key), now)];
        r := Success(());
    }
  }
}
