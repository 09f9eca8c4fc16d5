# Cirrus: the workflow state protocol and the bookkeeping around it

Cirrus runs STAC processing workflows on AWS. Each payload has one row in a DynamoDB state table. `process` functions
look the row up, claim it with a conditional write, upload the input, start a Step Functions execution by name and mark
the row PROCESSING; the `update-state` function writes the terminal state when the execution closes. This project models
that protocol and the code it depends on, and proves what it keeps.

| file | module | models |
|---|---|---|
| `Records.dfy`, `StateIndex.dfy`, `StateDb.dfy` | `Records`, `StateIndex`, `StateTable` | one table row, the update expressions, the string conditions on `state_updated`, the table's write methods |
| `Protocol.dfy` | `Protocol` | the shared state of one payload id as a step system: lookup, claim or adopt, upload, start, second write, failure write, crash, terminal write |
| `ProtocolSafety.dfy`, `ProtocolHistory.dfy` | `ProtocolSafety`, `ProtocolHistory` | what every run keeps |
| `ProtocolRecovery.dfy` | `ProtocolRecovery` | which abandoned claims can still be brought to an end |
| `ProtocolWrites.dfy` | `ProtocolWrites` | what the row tells about the run behind it, and which rows are taken up again |
| `PayloadManager.dfy` | `PayloadManager` | `PayloadManager.__call__`, imperatively, as a refinement of the step system |
| `Process.dfy`, `Handler.dfy`, `BatchHandler.dfy` | `BatchProcess`, `ProcessHandler`, `BatchHandling` | a batch of payloads, the Lambda handler's queue messages, buffered delivery |
| `Events.dfy`, `UpdateState.dfy` | `Events`, `UpdateState` | `WorkflowEventManager`: state writes and announcements; the closing event of an execution through it |
| `Strings.dfy`, `PayloadIds.dfy`, `IdValidation.dfy`, `Naming.dfy`, `CirrusPayload.dfy` | `Strings`, `PayloadIds`, `IdValidation`, `Naming`, `PayloadNaming` | payload ids, table keys, the validation regex, execution ARNs, console URLs, bucket keys, generated ids |
| `Paging.dfy` | `Paging` | paged reads of an index of the table |
| `Chaining.dfy` | `Chaining` | workflow chains unrolled to a tree |
| `MigrationPlan.dfy`, `MigrationRun.dfy`, `MigrationAccounting.dfy`, `MigrationObjects.dfy` | the same names | the migration of legacy records, what a whole run adds up to, and what it does to the bucket |
| `Wrappers.dfy` | `Wrappers` | `Option` and `Result` |

`dafny verify dfyconfig.toml` checks everything.

## How to read the protocol

A `Site` is all that exists for one payload id: the row, the workers acting on it, the executions begun, those whose
closing event was handled, and the names under which inputs were uploaded. A `Label` is one access to that shared state
by one actor. `Next` is total: a label that does not apply changes nothing, so *every* sequence of labels is a run, and
"for all runs" is a quantifier over label sequences. Stale lookups, any interleaving, replies that are lost after the
write took effect (`acked == false`), the `replace` flag, adoption and crashes are all label sequences. `Cloud.Call`
is the code of one worker with arbitrary steps of others before each of its AWS calls, the FAILED write included, and
with every reply free to be lost or to be an exception the code does not catch; it is proved to be such a run, and its
result to be decided by the replies and the two rows its conditional writes meet. `UpdateState.UpdateState` is the code
behind a `Report` label.

What is assumed of AWS: a conditional UpdateItem is atomic; an execution name begins at most one run, and repeating
StartExecution begins nothing new; each closed execution delivers at most one event. `uuid5` over the payload id and the
execution list is idealised as an injective constructor, so that a name contains the list it was made from and
freshness becomes well-foundedness. Time stamps are opaque strings. The function a `BatchHandler` calls returns normally.

What is assumed of names in the protocol: the payload id comes back from its table key, so that a lookup reads the
worker's own row, and execution ARNs contain no underscore and no slash. Any other id is looked up as unknown every
time (`BatchProcess.LookUpFindsRowIff`), so its workers act like those whose lookup found no row: each plans the first
name, and a claim after the first execution has closed records that name again, begins nothing and leaves the row in
PROCESSING (`ProtocolRecovery.SecondClaimSticks`). Adoption cuts the recorded ARN at its first
underscore (`Naming.AdoptionReadsWholeArnIff`); a worker that reads a truncated ARN does not start the recorded
execution, and ends with a failure write when its start is refused.

## What the proofs turned up

* **A worker's FAILED write can break single execution.** `_fail_and_raise` writes FAILED unconditionally, also while
  the execution runs or may still be started. Retrying then claims a second name; a later worker that meets the row in
  CLAIMED adopts `executions[0]`, which may be the dead first name, and both run. `FailWriteSafeIff` gives the exact
  condition on the state before the write, `AtMostOneExecution` covers every run whose failure writes meet it (a run
  without any is a special case) and `DeadFirstNameRunsBesideTheSecond` is a concrete run.
* **Executions can be recorded twice although no claim intervened.** A worker that found the row CLAIMED plans its last
  execution; if that closes before the worker claims, the same name is recorded again, nothing new is begun, and the row
  stays in PROCESSING. `DuplicateFreeIff` says exactly when this happens in runs where no claim comes between a lookup
  and its claim, `DuplicateFreeInEveryRunIff` in all runs: some winning claim was planned from a CLAIMED row, or two were
  planned from the same list. `LateReclaimSticks` is a concrete run, and `StuckRowNeverMoves` shows that only a failure
  write can still move the row.
* **A claim whose worker crashes before its start is not always recovered**, even without any failure write. The next
  worker adopts `executions[0]`; if that has closed, nothing new begins, the row goes to PROCESSING and stays there,
  and the execution that was claimed is never begun. `ClaimEndsIff` says exactly which CLAIMED rows can still leave the
  claim without a failure write: those whose last execution runs, is held by a worker, or is the first one of the list
  and has not closed. `AbandonedBeginsIff` says which executions that were claimed but neither begun nor held can still
  begin: the first of the list. `CrashedReclaimIsLost` and `RepeatedClaimNeverEnds` are concrete runs, and `StuckIff`
  says which PROCESSING rows never move again.
* **A worker can be overtaken by its own execution, and then raises.** When the execution closes as FAILED, ABORTED or
  timed out before its starter's second write, announcing the skip raises, because `skipping` has no event for these
  states; the call ends without a FAILED write and takes the rest of its batch with it. `ClosesBeforeSecondWrite` says
  for which outcomes, and the contract of `Cloud.Call` that exactly these rows make an answered call raise.
* **Different validated payload ids can share one table row**, in two ways. The key keeps nothing behind a second
  `/workflow-`: `a/workflow-w/x` and `a/workflow-w/x/workflow-y`. And it joins collections and workflow with an
  underscore: `a/workflow-b_c/x` and `a_b/workflow-c/x`. `SameRowIff` says exactly which ids share a row,
  `LostIdSharesRow` that every id which does not come back shares one with an id that does, and `ValidatedIdComesBackIff`
  which validated ids come back.
* **An id that does not come back is looked up as unknown**, whatever its row says (`LookUpFindsRowIff`); when it is sent
  again after its run has closed, its row ends in PROCESSING for good (`SecondClaimSticks`).
* **A generated id is lost in the table exactly when its workflow has an underscore or an item id begins with
  `workflow-`**, for payloads whose names are otherwise plain (`GeneratedIdComesBackIff`).
* **A migrated record keeps no `last_error` when it is INVALID**, although the table's own `set_invalid` writes one.
* **A failed copy does not hold a legacy record back.** The comment at `src/cirrus/management/migration.py:221-222`
  says a partial failure leaves `claimed_at` unset for a re-run; the code counts a ClientError of either copy, stores
  nothing (`FaultyCopyStoresNothing`), and updates the record all the same. `CopyHoldsBackIff` says exactly when a record
  is updated. A later run tries the input again if and only if the record was not updated or has no `created` to take
  its claim time from (`InputIsFinalIff`, with `UndatedIsCopiedAgain` as a concrete record), and the output of a COMPLETED
  record if and only if it was not updated (`OutputIsRetriedIff`). The model follows the code.
* **One migration outcome is counted twice**: an update refused by DynamoDB on a record whose key gives no payload id
  counts as a database error and, because its log line raises, as an unexpected error (`RefusedUpdateCountsTwice`). The
  table's own methods never write such a key, and on those they write the counters always add up (`CountersAddUp`).

## Model

| member | source | states |
|---|---|---|
| `ProtocolSafety.AtMostOneExecution` | src/cirrus/lib/payload_manager.py:161-337 | in every run whose failure writes are harmless, whatever the workers, interleavings, crashes, stale lookups, replacements and adoptions, at most one execution is begun and unreported, and it is the last entry of a CLAIMED or PROCESSING row |
| `ProtocolSafety.StepKeepsInv` | src/cirrus/lib/payload_manager.py:161-337 | the inductive invariant: every recorded execution but the last is dead, and all are when the row is not claimed |
| `ProtocolSafety.FailWriteSafeIff` | src/cirrus/lib/payload_manager.py:149-159 | from any state of the invariant, all continuations without further failure writes stay exclusive if and only if no execution is recorded, the last one has reported, or it was never begun, nobody else holds it and it is not the entry adoption takes |
| `ProtocolSafety.HarmfulFailureContinues` | src/cirrus/lib/payload_manager.py:149-240 | for every failure write that is not harmless, a continuation that ends with two executions running |
| `ProtocolSafety.DeadFirstNameRunsBesideTheSecond` | src/cirrus/lib/payload_manager.py:199-217 | a concrete run in which a name given up before its start is adopted and runs beside the second one |
| `ProtocolSafety.RetryBeginsFresh` | src/cirrus/lib/payload_manager.py:415-428 | retrying a FAILED or ABORTED row, without asking to replace it, begins an execution that was neither recorded nor begun before |
| `ProtocolSafety.AdoptionBeginsFirst` | src/cirrus/lib/payload_manager.py:184-217 | a worker that meets a CLAIMED row starts its first recorded execution |
| `ProtocolSafety.ClosesBeforeSecondWrite` | src/cirrus/lib/payload_manager.py:298-334 | an execution may close before its starter's second write, and the row that write meets is one whose skip raises if and only if it was aborted, timed out or failed other than by invalid input |
| `ProtocolSafety.TerminalWritesLandOnTheClaim` | src/cirrus/lambda_functions/update_state.py:28-140 | in those runs each terminal write finds a CLAIMED or PROCESSING row, reports on its most recent execution, leaves none running, and `last_error` is present exactly on FAILED and INVALID before and after |
| `UpdateState.UpdateState` | src/cirrus/lambda_functions/update_state.py:28-246 | by the status of the event: SUCCEEDED and ABORTED are stored and announced as such and keep an old error; a timeout is stored as FAILED with its fixed error and announced as a timeout; a failure is stored as INVALID for the two input exceptions and as FAILED otherwise, with the error, a colon and the JSON message, `unknown`, the cause text or the fixed text for no cause; the row is also what the protocol's terminal write makes of it; a malformed event or id, an unsupported status, or an output that cannot be stored changes nothing |
| `UpdateState.WorkflowFailed` | src/cirrus/lambda_functions/update_state.py:78-122 | invalid input, timeouts and other errors, with the message taken from a JSON cause when there is one |
| `UpdateState.TimeoutIsFailure` | src/cirrus/lambda_functions/update_state.py:226-230 | a timed-out execution is stored and announced as a failure under the timeout's name |
| `UpdateState.AnnouncedAsStored` | src/cirrus/lambda_functions/update_state.py:135-140 | the announced state is the stored one, and FAILED and INVALID rows carry an error |
| `ProtocolSafety.ReportKeepsErrorIff` | src/cirrus/lib/statedb.py:484-619 | which terminal writes keep the stored error in step with the state, from any state at all |
| `ProtocolWrites.RowTellsLastWrite` | src/cirrus/lib/statedb.py:346-619 | in every run, `updated` is the stamp of the last write that was accepted, and state and error are what that write stands for; without one the row is as it was |
| `ProtocolWrites.ClaimedAtTellsLastClaim` | src/cirrus/lib/statedb.py:369-375 | in every run `claimed_at` is the stamp of the last claim won, whatever is written afterwards |
| `ProtocolWrites.LookupTakesUpIff` | src/cirrus/lib/payload_manager.py:372-485 | a lookup takes a row up if and only if it is missing, FAILED, ABORTED or CLAIMED, or is to be replaced, and plans the last execution of a CLAIMED row and a name from the whole list otherwise |
| `ProtocolWrites.FinishedRowStays` | src/cirrus/lib/payload_manager.py:481-485 | with nobody at work, a SUCCEEDED or INVALID row is never touched again by any run in which nobody replaces |
| `ProtocolWrites.TakenUpAgainIff` | src/cirrus/lib/payload_manager.py:481-485 | with nobody at work, a row that is not claimed can be claimed again without replacing if and only if it is missing, FAILED or ABORTED |
| `ProtocolHistory.ExecutionsLogTheClaims` | src/cirrus/lib/payload_manager.py:171-296 | in all runs the list has one entry per claim won, every execution begun is recorded and had its input uploaded under its name, executions begun never outnumber claims, and each recorded name derives from a prefix of the list below it |
| `ProtocolHistory.RunOnlyAppends` | src/cirrus/lib/statedb.py:369-394 | going on from any point only appends to the list, never unbegins, unreports or deletes, and never moves the creation time |
| `ProtocolHistory.LookupsArePrefixes` | src/cirrus/lib/payload_manager.py:372-413 | the list a worker looked up is a prefix of the current one, however stale |
| `ProtocolHistory.ClaimIsFreshIff` | src/cirrus/lib/payload_manager.py:395-428 | a winning claim whose lookup is still current records a new execution if and only if the lookup did not find the row CLAIMED |
| `ProtocolHistory.DuplicateFreeIff` | src/cirrus/lib/payload_manager.py:395-428 | in runs where no claim comes between a lookup and its own claim, the list is duplicate-free if and only if no claim was planned from a CLAIMED row that has closed |
| `ProtocolHistory.DuplicateFreeInEveryRunIff` | src/cirrus/lib/payload_manager.py:372-428 | in every run, failure writes and interruptions included, the list is duplicate-free if and only if no winning claim was planned from a CLAIMED row and no two were planned for one workflow from the same looked-up list |
| `ProtocolHistory.StuckRowNeverMoves` | src/cirrus/lib/statedb.py:378-423 | a PROCESSING row each of whose executions has reported, or was never begun and is held by nobody, is never changed again without a failure write |
| `ProtocolHistory.StuckIff` | src/cirrus/lib/statedb.py:378-423 | in every reachable state these are exactly the PROCESSING rows that no run without a failure write changes |
| `ProtocolRecovery.ClaimEndsIff` | src/cirrus/lib/payload_manager.py:161-240 | from every state of the invariant with a CLAIMED row and an idle worker, some run without a failure write ends the claim if and only if the last recorded execution is not dead: it runs, somebody holds it, or adoption takes it and it has not closed |
| `ProtocolRecovery.AbandonedBeginsIff` | src/cirrus/lib/payload_manager.py:199-217 | an execution that was claimed, but neither begun nor held, can still begin without a failure write if and only if it is the first recorded one |
| `ProtocolRecovery.RepeatedClaimNeverEnds` | src/cirrus/lib/payload_manager.py:199-217 | a concrete run without a failure write to a CLAIMED row whose first entry is also its last, which no later run without one brings to an end |
| `ProtocolRecovery.SecondClaimSticks` | src/cirrus/lib/payload_manager.py:372-413 | a concrete run of two workers whose lookups find no row: the second claims the first name again after it has closed, begins nothing, and leaves the row in PROCESSING for good |
| `ProtocolHistory.CrashedReclaimIsLost` | src/cirrus/lib/payload_manager.py:199-217 | a concrete run without a failure write in which a claimed execution is never begun and the row stays in PROCESSING |
| `ProtocolHistory.LateReclaimSticks` | src/cirrus/lib/payload_manager.py:401-406 | a concrete run that records a closed execution again and ends in such a row |
| `PayloadManager.Cloud.Call` | src/cirrus/lib/payload_manager.py:242-337 | the whole call, with arbitrary steps of others before each of its writes and any reply lost or uncaught, is a run of the step system; "started" exactly when everything was answered and the second write met a CLAIMED row, skipped exactly on a PROCESSING row at the claim or a PROCESSING, SUCCEEDED or INVALID one at the second write, a terminal error exactly for a missing state machine, and otherwise raised; the steps of the worker are fixed by the replies, those that took effect unseen included, with a FAILED write exactly behind a caught exception |
| `PayloadManager.Cloud.Claim` | src/cirrus/lib/payload_manager.py:161-240 | goes on exactly with an answered claim that is accepted or meets a CLAIMED row with executions, adopting the first; skips exactly on a PROCESSING row; otherwise raises |
| `PayloadManager.Cloud.Proceed` | src/cirrus/lib/payload_manager.py:264-337 | the call behind a claim that goes on, result and steps by the replies and the row the second write meets |
| `PayloadManager.Cloud.UploadAndStart` | src/cirrus/lib/payload_manager.py:264-296 | goes on exactly when upload and start are answered; a terminal error exactly for a missing state machine whose FAILED write is answered; an upload or start that took effect and raised all the same has its step before the end |
| `PayloadManager.Cloud.UploadInput` | src/cirrus/lib/payload_manager.py:264-270 | the input is stored under the name that is held |
| `PayloadManager.Cloud.StartByName` | src/cirrus/lib/payload_manager.py:276-296 | starting by name, an existing execution passing as started; only ClientErrors lead to a FAILED write |
| `PayloadManager.Cloud.FinishProcessing` | src/cirrus/lib/payload_manager.py:298-337 | started exactly when the answered write meets a CLAIMED row, skipped exactly on PROCESSING, SUCCEEDED and INVALID rows; FAILED and ABORTED rows raise without a FAILED write |
| `PayloadManager.Cloud.FailAndRaise` | src/cirrus/lib/payload_manager.py:149-159 | a caught exception ends the worker with the unconditional FAILED write, with its message and the time of that write, others acting in between and the write itself possibly lost; an uncaught one ends it without |
| `StateIndex.PrefixDecidesState` | src/cirrus/lib/statedb.py:675-677 | `begins_with` a state name on the stored string holds exactly of rows in that state |
| `StateIndex.RangeDecidesStateAndStamp` | src/cirrus/lib/statedb.py:663-670 | the string range between two stamps of a state selects exactly the rows of that state with a stamp in between in code-point order |
| `StateIndex.StoredTexts` | src/cirrus/lib/statedb.py:384-417 | the text stored for each of the six states |
| `Strings.LeqIff` | src/cirrus/lib/statedb.py:663-670 | the order of strings: a prefix, or the smaller character where two texts first differ |
| `StateIndex.ConditionsDecideState` | src/cirrus/lib/statedb.py:380-422 | the guards of `claim_processing` and `set_processing` are exactly their state tests, missing rows included |
| `StateIndex.ParseStateRoundTrip` | src/cirrus/lib/payload_manager.py:191-197 | the state read back from the stored string is the one written, whatever the stamp |
| `StateTable.StateDb.ClaimProcessing` | src/cirrus/lib/statedb.py:346-394 | refused exactly on PROCESSING and CLAIMED rows; an accepted claim keeps the creation time, stamps `updated` and `claimed_at`, appends the execution and removes error and outputs; the rest of the table is as before |
| `StateTable.StateDb.SetProcessing` | src/cirrus/lib/statedb.py:397-425 | accepted exactly on a CLAIMED row; sets the state and `updated` and nothing else |
| `Records.TerminalWriteKeepsHistory` | src/cirrus/lib/statedb.py:465-619 | every terminal write keeps creation, claim time, executions and outputs, and an earlier error unless it words its own; which outcome gives which state |
| `BatchProcess.Process` | src/cirrus/lib/payload_manager.py:439-512 | the first occurrence of an id is attempted if and only if its looked-up state is none, FAILED, ABORTED or CLAIMED or somebody replaces; it is started, skipped or failed as its call ends and skipped if not attempted; every further occurrence is dropped; the lists are in input order; the batch raises if and only if a call that is made does |
| `BatchProcess.LookUpTells` | src/cirrus/lib/payload_manager.py:372-393 | of several items for one id the last counts, and an id without item is unknown |
| `BatchProcess.BatchPartition` | src/cirrus/lib/payload_manager.py:446-512 | started, skipped and failed hold each distinct id exactly once, the four lists together are the input with multiplicity, and no id is attempted twice |
| `BatchProcess.ListsRecogniseRepeats` | src/cirrus/lib/payload_manager.py:465-469 | looking through the lists filled so far recognises exactly the ids seen before |
| `BatchProcess.LookUpFindsRowIff` | src/cirrus/lib/payload_manager.py:372-413 | over the rows the batch read returns, in any order, every id of the batch is looked up, and the lookup gives the state of the row stored under an id if and only if the id comes back from its key, and takes every other id for unknown |
| `ProcessHandler.LambdaHandler` | src/cirrus/lambda_functions/process.py:25-109 | an exception escapes if and only if a payload cannot be fetched, a bad message cannot be reported, or a call made by `process` without replacing raises; otherwise exactly the readable queue messages are successful, each as often as it arrived; on partial failure exactly these are deleted, in tens, nothing is left over, and the failures are the unreadable and invalid ones in order; the result is the number of ids started |
| `ProcessHandler.OneMoreMessage` | src/cirrus/lambda_functions/process.py:31-81 | managers and failures follow the order of the messages; an unreadable record is reported itself, an invalid payload by its content |
| `ProcessHandler.MessagesAreConserved` | src/cirrus/lambda_functions/process.py:83-105 | of an all-queue event every message is successful or in the failure list, counted with multiplicity |
| `ProcessHandler.EveryIdIsListed` | src/cirrus/lambda_functions/process.py:86-91 | every id of the batch is popped, resting on the batch partition |
| `ProcessHandler.NothingIsLeftOver` | src/cirrus/lambda_functions/process.py:89-92 | the message dictionary is empty after the pops |
| `ProcessHandler.PopProcessed` | src/cirrus/lambda_functions/process.py:89-91 | popping in any iteration order of the set gives the same messages |
| `ProcessHandler.Collect` | src/cirrus/lambda_functions/process.py:32-81 | managers, failures and message groups of the first loop, or the exception of a payload that cannot be fetched or of a bad message that cannot be reported |
| `BatchHandling.ChunksDeliver` | src/cirrus/lib/utils.py:473-492 | the batches concatenate to the items in order, none is empty or too long, only the last may be short, and their number is the rounded-up quotient |
| `BatchHandling.DeliverAll` | src/cirrus/lib/utils.py:447-492 | adding all items and leaving the context ships exactly these batches |
| `BatchHandling.BatchHandler.Add` | src/cirrus/lib/utils.py:473-483 | the buffer stays below the batch size; a full buffer is shipped as one batch |
| `BatchHandling.BatchHandler.Execute` | src/cirrus/lib/utils.py:485-492 | ships and empties a non-empty buffer, does nothing on an empty one |
| `Events.Session` | src/cirrus/lib/events.py:534-792 | after any sequence of calls, refused ones included, replaying what was published over the initial states gives the stored state of every payload |
| `Events.EventManager.ClaimProcessing` | src/cirrus/lib/events.py:548-570 | refused exactly on PROCESSING and CLAIMED rows; an accepted claim is written field by field and announced, a refused one does neither |
| `Events.EventManager.StartedProcessing` | src/cirrus/lib/events.py:572-596 | accepted exactly on a CLAIMED row, which gets the state and the time stamp, and announced; a refused one does neither |
| `Events.EventManager.Skipping` | src/cirrus/lib/events.py:598-626 | announces the matching ALREADY event and changes no state; raises for FAILED and ABORTED |
| `Events.EventManager.Duplicated` | src/cirrus/lib/events.py:628-641 | announces the duplicate and changes no state |
| `Events.EventManager.Perform` | src/cirrus/lib/events.py:548-792 | each call announces exactly its own event for its own payload, and nothing, with an unchanged table, when it is refused |
| `Events.EventManager.Failed` | src/cirrus/lib/events.py:643-671 | the FAILED row and its event |
| `Events.EventManager.TimedOut` | src/cirrus/lib/events.py:673-704 | a timeout is stored as FAILED and announced as such |
| `Events.EventManager.Succeeded` | src/cirrus/lib/events.py:706-735 | the SUCCEEDED row and its event |
| `Events.EventManager.Invalid` | src/cirrus/lib/events.py:737-765 | the INVALID row and its event |
| `Events.EventManager.Aborted` | src/cirrus/lib/events.py:767-792 | the ABORTED row and its event |
| `PayloadIds.KeyRoundTripIff` | src/cirrus/lib/statedb.py:776-807 | a table key comes back through its payload id if and only if collections have no separator, the workflow no slash, and no separator arises below it |
| `PayloadIds.KeyOfId` | src/cirrus/lib/statedb.py:756-807 | the key of `<collections>/workflow-<workflow>/<items>` is `<collections>_<workflow>` and the items, and gives the id back when the workflow has no underscore |
| `PayloadIds.IdRoundTripIff` | src/cirrus/lib/statedb.py:776-807 | a payload id comes back through its key if and only if it has one separator, a slash behind it and no underscore in the workflow |
| `PayloadIds.WrittenKeyIff` | src/cirrus/lib/statedb.py:776-794 | the keys some id is stored under are exactly those that come back |
| `PayloadIds.GoodIdsDoNotCollide` | src/cirrus/lib/statedb.py:776-794 | two ids that come back never share a row |
| `PayloadIds.LostIdSharesRow` | src/cirrus/lib/statedb.py:776-807 | every id that does not come back shares its row with a different one that does |
| `PayloadIds.SameRowIff` | src/cirrus/lib/statedb.py:756-794 | two ids share a row if and only if their item ids agree and their collections and workflow are the same or differ by a part moved across the underscore between them |
| `PayloadIds.UnderscoreMoves` | src/cirrus/lib/statedb.py:756-794 | moving a part of the workflow to the collections gives another id of the same row |
| `IdValidation.ParsersAgreeIff` | src/cirrus/lib/utils.py:24-26 | on validated ids the first-separator split and the greedy regex give the same three parts if and only if there is one separator and no newline among the item ids |
| `IdValidation.RegexReadsParts` | src/cirrus/lib/utils.py:24-26 | the regex gives back the three parts of an id with one separator |
| `IdValidation.ValidatedIdComesBackIff` | src/cirrus/lib/cirrus_payload.py:39-43 | a validated id survives the table if and only if it has one separator and no underscore in its workflow |
| `PayloadIds.SecondSeparatorCuts` | src/cirrus/lib/statedb.py:786-794 | nothing appended to an id behind a further separator reaches its key |
| `IdValidation.ValidatedIdsCollide` | src/cirrus/lib/statedb.py:786-794 | every id that validates at its first separator shares its row with the validated ids that append a second one |
| `IdValidation.ValidatedIdsCollideByUnderscore` | src/cirrus/lib/statedb.py:756-794 | validated one-separator ids share a row when a part of the workflow has moved to the collections |
| `IdValidation.ValidatedIdsCanCollide` | src/cirrus/lib/utils.py:24-26 | a concrete pair with a second separator |
| `IdValidation.OneSeparatorIdsCanCollide` | src/cirrus/lib/utils.py:24-26 | a concrete pair with one separator each |
| `PayloadNaming.CirrusPayload.SetId` | src/cirrus/lib/cirrus_payload.py:45-74 | keeps an id that is there, raises without features or workflow, and otherwise joins the collections of the definition, or the names of the items in ascending order, or `none`, the workflow, and the item ids in ascending code-point order |
| `PayloadNaming.JoinConcat` | src/cirrus/lib/cirrus_payload.py:70-71 | what joining two lists by slashes gives |
| `PayloadNaming.SameIdIff` | src/cirrus/lib/cirrus_payload.py:61-74 | two plain payloads get the same id if and only if collections, workflow and the multiset of item ids agree |
| `PayloadNaming.IdIgnoresOrder` | src/cirrus/lib/cirrus_payload.py:66-71 | neither the order of the features nor repeated collection names change the id |
| `PayloadNaming.SortedIsUnique` | src/cirrus/lib/cirrus_payload.py:66-71 | a multiset of strings has one ascending order by code point |
| `PayloadNaming.JoinIsInjective` | src/cirrus/lib/cirrus_payload.py:70-71 | slash-free parts can be read off their joint |
| `PayloadNaming.GeneratedIdComesBackIff` | src/cirrus/lib/cirrus_payload.py:71-74 | the id of a plain payload survives the table if and only if its workflow has no underscore and no item id begins with `workflow-` |
| `PayloadNaming.GeneratedIdValidatesIff` | src/cirrus/lib/cirrus_payload.py:39-74 | the id of a plain payload passes validation if and only if its parts are readable to the regex, or an item id that begins with `workflow-` is taken for another workflow |
| `Naming.ArnRoundTripIff` | src/cirrus/lib/payload_manager.py:415-437 | a generated execution ARN splits back into its state machine and name if and only if the name has no colon, every `:stateMachine:` of the base renamed and restored |
| `Naming.ArnText` | src/cirrus/lib/payload_manager.py:415-430 | the execution ARN under a base with one state-machine marker, in full |
| `Naming.ReplaceRoundTrip` | src/cirrus/lib/payload_manager.py:424-437 | replacing all state-machine markers and back is the identity on a base without execution markers, with a workflow appended in between |
| `Naming.UrlRoundTripIff` | src/cirrus/lib/utils.py:58-64 | the console URL kept for a record gives back its ARN if and only if the ARN has no slash |
| `Naming.AdoptionReadsWholeArnIff` | src/cirrus/lib/payload_manager.py:200-202 | adoption reads the recorded ARN whole if and only if it has no underscore |
| `Naming.ExecutionKeysAreDistinct` | src/cirrus/lib/payload_bucket.py:108-129 | distinct pairs of payload id and slash-free execution id never share an input or output object, and input and output differ |
| `Naming.ObjectNames` | src/cirrus/lib/payload_bucket.py:12-129 | input and output of an execution lie under the executions prefix, the payload id and the execution id |
| `Naming.ExecutionKeysAreNotTemporary` | src/cirrus/lib/payload_bucket.py:27-35 | no execution object lies under the tmp prefix |
| `Paging.KeyConditionSelects` | src/cirrus/lib/statedb.py:661-677 | the key condition selects by state and by time of update on rows as the table writes them, the window in code-point order |
| `Paging.JuneIsInTheYear` | src/cirrus/lib/statedb.py:663-677 | a concrete row, a window it lies in, and the reversed window it does not |
| `Paging.FilterSelects` | src/cirrus/lib/statedb.py:656-659 | at every place the filter keeps exactly the rows whose error begins with the prefix, in their order |
| `Paging.NextKeyLeadsBack` | src/cirrus/lib/statedb.py:263-282 | the `nextkey` of a page resumes right behind the row it came from |
| `Paging.NextKeyFails` | src/cirrus/lib/statedb.py:263-265 | a `nextkey` is malformed if and only if it is no payload id, and not found if and only if no row is stored under its key |
| `Paging.GetItemsPage` | src/cirrus/lib/statedb.py:236-284 | one page: a contiguous stretch of the index, filtered, and a key that resumes behind it, or the error of an unknown or malformed key |
| `Paging.GetItems` | src/cirrus/lib/statedb.py:286-316 | terminates with exactly the first `limit` matching rows behind the start, from the first row without a `nextkey`, in index order, for every page size and every cut, pages without a match included |
| `Paging.GetCounts` | src/cirrus/lib/statedb.py:184-217 | the exact total, or the cap when a limit above zero is exceeded, although reading stops early |
| `Chaining.NextPayloads` | src/cirrus/lib/payload_manager.py:95-113 | one payload per process of the next entry, each with its id removed, its own process in front of what follows that entry and its features filtered, or the error of a payload without id |
| `Chaining.KeepSelects` | src/cirrus/lib/payload_manager.py:108-112 | at every place exactly the features stay that all chain filters let through |
| `Chaining.UnrollFollowsPaths` | src/cirrus/lib/payload_manager.py:95-113 | unrolling step by step gives one payload per path of fork choices, in order: the path's last process in front, the features that pass every filter on the path |
| `Chaining.ChainingTerminatesAndCounts` | src/cirrus/lib/payload_manager.py:95-113 | at depth k there are as many payloads as the product of the fork widths, and none from the end of the chain on |
| `Chaining.PathsCount` | src/cirrus/lib/payload_manager.py:98-102 | the number of paths is that product, zero through an empty fork |
| `Chaining.KeepTwice` | src/cirrus/lib/payload_manager.py:108-112 | filtering along a path is filtering by the conjunction |
| `MigrationPlan.NoopIffNormal` | src/cirrus/management/migration.py:111-144 | the plan is empty on exactly the records in normal form |
| `MigrationPlan.MigratedAttributes` | src/cirrus/management/migration.py:111-144 | the migrated record attribute by attribute, every other attribute untouched |
| `MigrationPlan.MigratedState` | src/cirrus/management/migration.py:117-121 | COMPLETED becomes SUCCEEDED, every other state and every time stamp is kept |
| `MigrationPlan.MigratedByState` | src/cirrus/management/migration.py:66-144 | the migrated record from the text in front of the first underscore of `state_updated` |
| `MigrationPlan.MigrationNormalises` | src/cirrus/management/migration.py:66-144 | one migration reaches the normal form, and migrating again changes nothing |
| `MigrationRun.Migrator.Run` | src/cirrus/management/migration.py:181-202 | the paged scan, each page's items read before any of them is migrated, does exactly what migrating the keys one by one does |
| `MigrationRun.Migrator.ProcessPage` | src/cirrus/management/migration.py:184-197 | the same for one page |
| `MigrationObjects.TargetsHoldTheirSources` | src/cirrus/management/migration.py:181-369 | after a whole run over keys the table's methods write, in any order and with any replies, each record's input lies under its execution exactly when a real run found it unclaimed, found the source and could copy it, and its output exactly when it was recent and COMPLETED and could be fetched and stored; otherwise the place is as before, and no other record writes there |
| `MigrationObjects.LastExecutionHoldsTheObjects` | src/cirrus/management/migration.py:85-369 | after a whole run the input and output of a record lie under the part behind the last colon of its last execution, whatever the list holds before it, exactly when they were copied, and the objects of its earlier executions are as before |
| `MigrationRun.MigrateAllConcat` | src/cirrus/management/migration.py:181-202 | where the scan cuts its pages does not matter |
| `MigrationAccounting.RunAccounting` | src/cirrus/management/migration.py:187-256 | `processed` is the number of records; each falls in one category, and guarded, no-op, `db_updated`, `db_errors` and `unexpected_errors` add up to it if and only if no update failed on a record whose key gives no payload id |
| `MigrationAccounting.CountersAddUp` | src/cirrus/management/migration.py:187-256 | for keys the table's methods write, whatever AWS answers, guarded, no-op, `db_updated`, `db_errors` and `unexpected_errors` add up to `processed` |
| `MigrationAccounting.RefusedUpdateCountsTwice` | src/cirrus/management/migration.py:187-256 | one record under a key without an underscore, counted once as processed, once as a database error and once as an unexpected one |
| `MigrationAccounting.CategoryIsCounted` | src/cirrus/management/migration.py:217-256 | how one record is counted, decided without running it |
| `MigrationAccounting.CopiesAreCounted` | src/cirrus/management/migration.py:258-369 | what one record adds to the counters of copied, uploaded, skipped and failed objects, by its state, the bucket and the replies |
| `MigrationAccounting.FinalTable` | src/cirrus/management/migration.py:181-256 | every record is migrated once from what it held when the run began, and the rest of the table is left alone |
| `MigrationAccounting.DryRunChangesNothing` | src/cirrus/management/migration.py:237-277 | a dry run changes neither table nor bucket |
| `MigrationAccounting.SecondRun` | src/cirrus/management/migration.py:181-300 | after a run without database or unexpected errors a second one never changes the table, and changes nothing and counts only `processed` if and only if every record had a creation time, a claim time or no execution |
| `MigrationObjects.RunKeepsOthers` | src/cirrus/management/migration.py:181-369 | a whole run leaves every object outside the executions prefix as it was |
| `MigrationObjects.CopyHoldsBackIff` | src/cirrus/management/migration.py:217-256 | a real run writes a record without a claim time if and only if it has something to write, the update goes through and no copy raises anything but a ClientError |
| `MigrationObjects.FaultyCopyStoresNothing` | src/cirrus/management/migration.py:258-369 | an input or output copy that fails with a ClientError leaves its target as it was |
| `MigrationObjects.InputIsFinalIff` | src/cirrus/management/migration.py:217-300 | after a run with any replies, every later one leaves a record with an execution alone, its input included, if and only if it had a claim time or was updated and had a creation time |
| `MigrationObjects.OutputIsRetriedIff` | src/cirrus/management/migration.py:217-369 | after a run with any replies, a later one asks for the output again if and only if the record is COMPLETED, has no claim time and was not updated, with or without a creation time |
| `MigrationObjects.UndatedIsCopiedAgain` | src/cirrus/management/migration.py:217-300 | a concrete record without `created` whose input copy is refused, which is updated all the same, and whose input the next run copies |

## Left out

- Liveness: a claimed payload need not ever run, as the stuck row above shows.
- `set_outputs` and `delete_item`: off the protocol path. With them, `state_updated` would no longer carry the stamp in `updated` and rows could lose their history.
- `PayloadManager.Cloud.Call`: the lookup and its plan come in as the worker's state; the batch loop that makes them is `BatchProcess.Process`, which takes the outcome of each call as an input.
- `Events.Session`: one manager, EventDB disabled; two managers interleaving on one table would not each hold the whole log.
- `Paging.GetItems`: the queried rows do not change between pages; with `since`, the code computes the time window anew for every page, so rows may enter or leave it.
- `Paging.GetItemsPage`: a `nextkey` whose row is in the table but not among the queried rows is an error here, while the code resumes behind its place in the index; every row was written by the table's own methods.
- `Paging.GetCounts`: the same static rows, although the code computes a `since` window anew for every page.
- `BatchProcess.LookUpFindsRowIff`: BatchGetItem returns every row asked for; unprocessed keys, and its refusal of two ids that share a key, are not modelled.
- `ProcessHandler.LambdaHandler`: of announcing a bad message and uploading it to the invalid prefix only the exception is modelled; the failure list ends with the set of left-over groups rather than their order.
- `Chaining.UnrollFollowsPaths`: every workflow is taken to pass its features through, and the queue to give each payload a new id; a chain filter is an arbitrary predicate on a feature.
- `PayloadNaming.CirrusPayload.SetId`: the process definition's `collections` is taken to be a string; other JSON values are not modelled.
- `BatchHandling.DeliverAll`: a batchable that raises is not modelled.
- `MigrationRun.Migrator.Run`: the scan returns each key once, nobody else writes the table or the bucket meanwhile, and a call that fails has had no effect.
- `delete_from_queue_batch`, SNS and SQS publishers, the AWS clients, retries, sessions and HTTP status checks.
- `UpdateState.UpdateState`: publishing items to SNS and queueing the next payloads behind the write are not modelled.
- JSON encoding, the size limit of Step Functions input, payloads kept behind a `url`.
- `uuid5`, jsonpath, ISO time stamps and their arithmetic.
- Task logs (`task_logs.py`): event-history walks and log paging that other code does not depend on.
- EventDB, CloudWatch metrics, the API, the dashboard, the command line, templating and deployment.
