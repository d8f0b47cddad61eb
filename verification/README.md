# Marked: fulfilment protocol, stores and evidence

Marked watches a Governor proposal that has passed, lets a person arm and approve its execution, has KeeperHub send the
one transaction, and writes a receipt that says whether the proposal's first selected action really happened. This
project models that path in Dafny and proves what it promises.

`dafny verify dfyconfig.toml` checks everything.

## The protocol

`Protocol` is a state machine. A process is one call in flight (intake, arm, disarm, approve, prepare, approve and
execute, reconcile); each step runs from one `await` to the next, so any interleaving and any crash is a list of steps.
The environment is an append-only chain per network, read at any block up to its height, and a KeeperHub that may
answer, throw, answer without a hash, or never answer. Besides the store, the state keeps history that no step reads:
the log of dispatches, the holder of each claim, and the call that moved each job to EXECUTING.

`ensureReviewReadyJob` looks a job up and then saves it without a compare-and-set, so a delayed intake can put a job
back; such a write is called stale. What is proved splits accordingly.

- In every run, stale writes included: `AtMostOnce` needs only the claim table, and `Documents` only what each call builds
  from the document it read itself, so each document stays true of its own dispatch and of the chain. `Guarantees` rests
  on that: what every receipt accounts for and what a FULFILLED_VERIFIED one stands for; and `Preparation`: what a
  prepare run may ask of the table, and that the status it gives is true of the chain (`Grounds` says what a status
  needs, in terms of the reads).
- In every *orderly* run, one in which no intake replaces a job stored since it looked: the joint invariant (`Invariant`),
  kept by every step (`Growth`, `Moves`, `LocalSteps`, `Frames`, `Safety`, `Dispatching`, `Reachable`), and with it
  statuses, ownership and the audit log (`History`, `Interleaving`). Orderly runs are exactly those in which jobs only
  climb (`Interleaving.OrderlyExactlyWhenJobsClimb`); where creation is one step every run is orderly; `DelayedIntake`
  gives, for any commitment, a run that is not.

The statements about a chain assume that a new block's receipts are new and belong to it, and that the hash KeeperHub gives
for a dispatch is not found in a block mined before that dispatch. How recent the reads are that close an execution is a
parameter: with `headReads` they are of the newest block, as `resolveGovernorAuthorization` asks for the height before it
pins its reads (packages/governor/src/resolve.ts:83); without it they may be of any. `Reached` gives a run that ends in
FULFILLED_VERIFIED and meets every premise.

`Pipeline` and `Execution` hold the same actions as straight-line code with their loops, over the in-memory store, each
proved to leave the store and the dispatch log as the machine does when only that call takes steps. Their contracts also
say, in terms of the reads alone, which status, error, document and event each run ends in, and exactly when.

## Around it

- `StateMachine`: the transition table, the statuses every path to FULFILLED_VERIFIED must pass, the recovery classifier.
- `Jobs`, `JobStore`, `Tables`, `InMemoryStore`, `SqliteStore`, `PostgresStore`: the job aggregate, the abstract store,
  and three stores proved to be it. The Postgres store is a machine of interleaved transactions at READ COMMITTED: the
  first statement takes the row lock, event numbers are read after it, and a transaction may roll back anywhere. In the
  SQLite store any statement from BEGIN to COMMIT may throw; ROLLBACK gives back the tables as BEGIN found them, which is
  taken as the database's promise.
- `Abi`, `Utf8`, `Commitments`, `Domains`, `Layout`: the contract ABI's head/tail encoding ("Formal Specification of the
  Encoding" in the Contract ABI Specification) with the place of every byte, a decoder that inverts it, the five hash
  domains, and what each component of each encoding is. Keccak-256 is a parameter; a statement that needs it asks only
  that it does not collide on the finitely many strings that statement hashes.
- `Bundles`, `Intake`: the frozen action bundle followed along the chain, how a commitment is built, and why the legs
  written as literals are sound.
- `Erc20`, `Calldata`, `Ledger`: the transfer adapter, its calldata decoder as the inverse of the ABI encoding of a
  transfer's arguments, and its verdict judged against a token's movements (ERC-20, "Methods" and "Events").
- `RateLimit`, `WorkerPool`, `Units`, `HistoricalDataset`, `HistoricalStatistics`: the limiter, the worker pool, the
  wei printer and the historical pipeline, over the reals.

## Where the code is not what its comments say

- `ensureReviewReadyJob` can reset a job (`DelayedIntake`).
- Only the first selected action is verified, so FULFILLED_VERIFIED speaks of that action alone.
- `receipt.status` of the mined transaction is not checked; `Guarantees.MarkedIsEarned` rests on the other legs.
- A payment from the recipient to itself is misjudged by the balance leg (`Ledger.NetZeroDecidesExactlyWhen`).
- `prepareJobForApproval` would ask the table for two moves it does not have, VERIFYING_AUTHORIZATION to
  REFUSAL_WORKFLOW_POLICY_VIOLATION and CAPTURING_PRESTATE to POSTCONDITION_UNSUPPORTED, and throw
  (`Pipeline.PrepareJobForApproval`); no commitment intake builds brings it there (`Preparation.PrepareStaysOnTheTable`).
- The block that reconciles an EXECUTING job with a transaction hash is never entered
  (`Documents.ExecutingHasNoTransaction`).
- `classifyRestartRecovery` calls refusals settled before any dispatch "at or past EXECUTING"
  (`StateMachine.UnsafeMeansDispatchedExactlyWhen`).
- The in-memory snapshot forgets claims (`InMemoryStore.Restart`).
- The four sub-day buckets and `>24h` miss a value of exactly 86400 (`HistoricalStatistics.BucketsConserve`).
- With `limit` below one the worker pool returns holes (`WorkerPool.MapWithConcurrency`).
- A losing Postgres compare-and-set reports the status at its later SELECT, which may be the very one it expected
  (`PostgresStore.LoserIsToldExactlyWhen`, with a run in `PostgresStore.LoserToldWhatItExpected`).

## Model

| member | source | states |
|---|---|---|
| `Guarantees.MarkedIsEarned` | apps/web/src/lib/execution/approve-and-execute.ts:338-416 | In every run, stale intake writes and crashes included, a job at FULFILLED_VERIFIED has a receipt for the transaction its own dispatch of its own proposal was answered with; the proposal was seen eligible, and the live bundle hashed to the frozen hash in a block mined before that dispatch and again where it was read last; the Governor was read in state 7; the transaction was included after the dispatch and holds exactly one log of the first selected action's transfer, and the recipient's balance rose by the amount between the snapshot and the inclusion block. Where closing reads are of the head, the last bundle read and the Governor read are of blocks no older than the receipt's finality block |
| `Guarantees.MarkedOnTheLedger` | apps/web/src/lib/execution/approve-and-execute.ts:100-152 | The same in the token's own ledger, again in every run, with a hash that tells the proposal's bundles apart and a token that moves what it logs: one movement of that transaction is the action's transfer and everything else that touched the recipient in the window nets to zero (to the amount, for a payment to itself) |
| `Guarantees.MarkedWasCovered` | apps/web/src/lib/execution/approve-and-execute.ts:380-408 | In every run, for a commitment intake built: a MARKED job's live bundle was fully covered before the dispatch and at the last read, and the receipt says FULL |
| `Reached.MarkedIsReached` | apps/web/src/lib/execution/approve-and-execute.ts:70-424 | For any hash functions, chain, Governor, proposal number, token, payee address and amount below 2^256, the calldata being the ABI encoding of that payee and amount: an orderly run from intake through arm, prepare, approve, dispatch and reconciliation ends with a job at FULFILLED_VERIFIED whose commitment intake built and whose chain and ledger meet the premises of the results above |
| `Guarantees.EveryReceiptIsAccounted` | apps/web/src/lib/execution/approve-and-execute.ts:263-416 | In every run, every receipt, verified or not: version 1, coverage FULL, the job's own hashes, proposal and action; its transaction is what its own dispatch, of the call for that proposal under the stored request hash, was answered with; bundle check and snapshot are of blocks mined before the dispatch, the inclusion block is after it and the transaction's own, inclusion block + 2 <= finality block; the final hash is that of the bundle at some last-read block, and the verdict is true exactly when the transaction holds one log of that bundle's selected transfer and the balance rose by the amount; and it is FULFILLED_VERIFIED exactly when final and frozen hash agree, the state read was 7, the first binding is the selected action's and that payment was made |
| `Documents.RunKeepsDocs` | apps/web/src/lib/execution/approve-and-execute.ts:70-424 | The invariant behind these, over every run: each document, stored or held by a call, is true of its own dispatch and of the chain, whoever writes over whom |
| `Documents.DoKeepsDocs` | apps/web/src/lib/execution/approve-and-execute.ts:70-424 | One step of any call, a stale intake write included, a new block, a new call or a crash keeps that invariant |
| `Interleaving.AnswersStand` | apps/web/src/lib/execution/approve-and-execute.ts:184-200 | In every run, what KeeperHub answered a dispatch is never overwritten or lost |
| `Documents.CommitmentHashRecomputes` | packages/core/src/fulfillment-job.ts:100-109 | In every run a stored commitment hash is the hash of the stored commitment |
| `Documents.ExecutingHasNoTransaction` | apps/web/src/lib/execution/approve-and-execute.ts:227-252 | In every run a stored EXECUTING or UNKNOWN_RECONCILING job has no transaction hash, so reconciling one stops at the report and the block at lines 245-252 is never entered |
| `AtMostOnce.AtMostOnceDispatch` | apps/web/src/lib/execution/approve-and-execute.ts:164-192 | In every interleaving with crashes anywhere, whether or not job creation is atomic: no two dispatches share a request hash, so none share chain, Governor and proposal number, whichever jobs they came from |
| `AtMostOnce.RunKeeps` | packages/db/src/sqlite-fulfillment-job-store.ts:153-161 | The invariant behind it, over every run: a call between claim and dispatch holds the insert-only claim on its request hash, and nothing was ever dispatched under that hash |
| `AtMostOnce.IssueKeeps` | apps/web/src/lib/execution/approve-and-execute.ts:176-183 | Dispatching spends the claim: afterwards no other call can be about to dispatch the same request |
| `Reachable.RunKeepsInv` | apps/web/src/lib/execution/approve-and-execute.ts:70-424 | Every orderly run keeps the inductive invariant that joins the status compare-and-set, the claim table, the unconditional save, the table's paths, the dispatch log and the chain |
| `Reachable.DoKeepsInv` | apps/web/src/lib/execution/approve-and-execute.ts:70-424 | One step of any call, a new block, a new call or a crash keeps that invariant |
| `Reachable.GrowthKeeps` | apps/web/src/lib/execution/approve-and-execute.ts:254-320 | A new block makes nothing any suspended call has read false |
| `Reachable.AtomicCreationIsOrderly` | apps/web/src/lib/job-store.ts:126-135 | Where a job is looked up and created in one step, every run is orderly, so all results over orderly runs hold of every run |
| `History.EveryStep` | apps/web/src/lib/fulfillment-actions.ts:68-73 | Each step changes a stored job at most by a legal walk of the table that raises its rank, or by stamping the request hash on an EXECUTING job; and while a job is EXECUTING only the call that moved it there changes it |
| `History.JobsOnlyClimb` | packages/core/src/fulfillment-state-machine.ts:35-118 | From any moment of a run to its end: a stored job keeps its id, commitment, commitment hash and creation time, and its status climbs along a walk of the table that is legal under the job's mode |
| `History.TopIsFinal` | packages/core/src/fulfillment-state-machine.ts:80-97 | A stored refusal, disarmed, unknown or finished status never changes again |
| `History.AtMostEightChanges` | packages/core/src/fulfillment-state-machine.ts:67-70 | Although the table has cycles, no stored job changes status more than eight times in any run, and no more often than its rank |
| `Interleaving.CasComparesTheDocument` | apps/web/src/lib/fulfillment-actions.ts:68-73 | No ABA: a compare-and-set on the status that succeeds finds the very document its call had read |
| `Interleaving.OwnerCannotLose` | apps/web/src/lib/execution/approve-and-execute.ts:176-200 | Whoever is about to write an EXECUTING job owns it and holds it exactly as stored, so the unconditional save overwrites nobody and the compare-and-set out of EXECUTING succeeds |
| `Interleaving.EventLogMatchesStatus` | packages/core/src/fulfillment-job.ts:151-286 | Every stored commitment hash recomputes; every job's event log is empty, ARMED, ARMED·DISARMED or ARMED·APPROVED as its status dictates, and every event carries the hash of the job's commitment |
| `Interleaving.DispatchFollowsApproval` | apps/web/src/lib/execution/approve-and-execute.ts:155-183 | When a call is dispatched, the job's stored log already ends in an APPROVED event for exactly its commitment hash, and the call is for that commitment's chain, lower-cased Governor and proposal number, under its request hash |
| `Interleaving.DisarmedNeverDispatches` | packages/core/src/fulfillment-job.ts:191-232 | A job disarmed at any moment of a run is dispatched neither before nor after |
| `Interleaving.IntakeCreates` | apps/web/src/lib/job-store.ts:126-135 | An intake leaves a job that is there alone, and otherwise creates one at REVIEW_READY with its commitment, that commitment's hash, the current time twice, and neither record nor receipt |
| `Interleaving.PrepareWritesOnce` | apps/web/src/lib/execution/prepare.ts:53-204 | A prepare run touches nothing shared until its one compare-and-set, whichever read throws, and ends with it, won or lost |
| `Interleaving.IntakeWriteKeepsJobsExactlyWhen` | apps/web/src/lib/job-store.ts:126-135 | The get-then-save intake keeps every stored job climbing exactly when its id is still free at the write, or holds a job of the same identity nobody has armed |
| `Interleaving.OrderlyExactlyWhenJobsClimb` | apps/web/src/lib/job-store.ts:126-135 | Over whole runs: the stored jobs climb at every step exactly when no intake replaces, by another document, a job stored since it looked |
| `DelayedIntake.DelayedIntakeResetsAnArmedJob` | apps/web/src/lib/job-store.ts:126-135 | For any hash functions and any commitment whose bundle the chain shows, a run in which a delayed first intake puts an ARMED job back to REVIEW_READY with its ARMED event still in the log |
| `Safety.ReadKeepsInv` | apps/web/src/lib/fulfillment-actions.ts:75-79 | Reading a job, and one-step creation, keep the invariant |
| `Safety.CreateKeeps` | packages/core/src/fulfillment-job.ts:100-109 | Storing a new REVIEW_READY job under a free id keeps the invariant |
| `Safety.CasKeepsInv` | apps/web/src/lib/fulfillment-actions.ts:68-73 | A compare-and-set, won or lost, keeps the invariant |
| `Safety.WinKeeps` | packages/db/src/fulfillment-job-store.ts:123-131 | A winning compare-and-set leaves a well-formed document, log and dispatch history, and its call where it may go on |
| `Safety.ClaimKeepsInv` | apps/web/src/lib/execution/approve-and-execute.ts:166-174 | Winning or losing the claim keeps the invariant |
| `Safety.SaveKeepsInv` | apps/web/src/lib/execution/approve-and-execute.ts:176-177 | The unconditional save keeps the invariant although it compares nothing |
| `Dispatching.IssueKeepsInv` | apps/web/src/lib/execution/approve-and-execute.ts:179-183 | Dispatching keeps the invariant: the job has no earlier dispatch, the snapshot precedes every later block, and the bundle was the frozen one |
| `Dispatching.AnswerKeepsInv` | apps/web/src/lib/execution/approve-and-execute.ts:184-200 | Recording KeeperHub's answer, error or missing hash keeps the invariant and ties the job to its own dispatch |
| `Moves.JobOkKept` | packages/core/src/fulfillment-job.ts:151-286 | A legitimate write leaves a document whose record, event log, binding to its dispatch and chain facts are again well formed |
| `LocalSteps.PrepareEligibilityOk` | apps/web/src/lib/execution/prepare.ts:64-91 | Every outcome of the eligibility stage is fit to be written: its hops are a walk of the table, and its status is one the three reads warrant |
| `LocalSteps.PrepareSimulateOk` | apps/web/src/lib/execution/prepare.ts:137-190 | So is every outcome of the simulation stage, the mode-dependent hop included, with a snapshot of the checked action |
| `LocalSteps.ApproveSnapshotOk` | apps/web/src/lib/execution/approve-and-execute.ts:126-162 | The approval about to be written carries a snapshot of the checked bundle's first selected action: its token, the payee and amount its calldata encodes, and the balance the chain shows at that block |
| `LocalSteps.FinalVerifyOk` | apps/web/src/lib/execution/approve-and-execute.ts:355-416 | The final write carries the receipt that the bundle just read and the adapter's verdict produce, at the time of the write (what that receipt says field by field is EveryReceiptIsAccounted) |
| `LocalSteps.ReconcileFinalityOk` | apps/web/src/lib/execution/approve-and-execute.ts:273-292 | The finality write carries a height at least two above the inclusion block |
| `Pipeline.ArmJob` | apps/web/src/lib/fulfillment-actions.ts:81-105 | The arm action run alone: which error it ends in, or that it succeeds, decided by the bundle read, the commitment's hash, the bundle's hash and REVIEW_READY, in that order; on success the stored job has moved to ARMED and its log has grown by the one event, nothing else has changed, and the machine is where the code is; an error leaves the store unchanged |
| `Pipeline.DisarmJob` | apps/web/src/lib/fulfillment-actions.ts:107-125 | The disarm action succeeds exactly from the four disarmable statuses, with the exact document and event it writes and the exact error it otherwise gives |
| `Pipeline.ApproveJob` | apps/web/src/lib/fulfillment-actions.ts:127-140 | The approve action without dispatch succeeds exactly from AWAITING_APPROVAL, likewise |
| `Pipeline.SaveWithCasOrThrow` | apps/web/src/lib/fulfillment-actions.ts:68-73 | The write applies exactly when the stored status is the one read; a lost race changes nothing and reports the status found |
| `Pipeline.PrepareJobForApproval` | apps/web/src/lib/execution/prepare.ts:53-204 | The prepare run, its `status` variable moved hop by hop, ends where the machine ends, and in each status exactly when the reads say so: canceled; executed, or state 7; queued with its time not come; any of states 0, 1, 3, 4, 6; or, with the proposal queued and due, another bundle hash, or the selected action there, a transfer, its balance read, and what the simulation comes to, AWAITING_APPROVAL in APPROVE mode only. It throws on the table exactly where the action is missing, is no transfer, or the mode is AUTO. The document written carries the snapshot and the time of the last read; nothing else changes, and an error changes nothing |
| `Pipeline.CheckLifecycle` | apps/web/src/lib/execution/prepare.ts:61-87 | Its stages from WAITING_ELIGIBILITY on |
| `Pipeline.VerifyAuthorization` | apps/web/src/lib/execution/prepare.ts:87-110 | Its stages from VERIFYING_AUTHORIZATION on: each status exactly when the bundle read, its hash, the action and the later reads say so |
| `Pipeline.CaptureAndSimulate` | apps/web/src/lib/execution/prepare.ts:112-190 | Its stages from CAPTURING_PRESTATE on, likewise |
| `Pipeline.SnapshotAndSimulate` | apps/web/src/lib/execution/prepare.ts:126-137 | The snapshot pinned to the block just read, and each status that can follow |
| `Pipeline.SimulateAndFinish` | apps/web/src/lib/execution/prepare.ts:139-190 | Each status exactly on its simulation outcome |
| `Pipeline.TurnFrom` | apps/web/src/lib/execution/prepare.ts:147-190 | Which move a simulation outcome asks for, and when the table refuses it |
| `Pipeline.FinishRun` | apps/web/src/lib/execution/prepare.ts:193-204 | The single write applies exactly when the last hop is legal and the stored status is the one read; otherwise nothing is written |
| `Execution.ApproveAndExecuteJob` | apps/web/src/lib/execution/approve-and-execute.ts:70-203 | The approval run alone sends a call exactly when the job awaits approval, every revalidation passes and its request is unclaimed; then one, for its own job's chain, Governor and proposal number; the store has the one APPROVED event, the claim if it was the first, and at most this job's document changed, or is unchanged; store and dispatch log are left as the machine leaves them |
| `Execution.ApproveForExecution` | apps/web/src/lib/execution/approve-and-execute.ts:84-162 | Approval is recorded exactly when the proposal is queued and due, the bundle has the frozen hash and the selected action, the simulation is clean and the snapshot is taken |
| `Execution.SnapshotAndApprove` | apps/web/src/lib/execution/approve-and-execute.ts:133-162 | The document and the event the recorded approval writes, the fresh snapshot of that action in it |
| `Execution.ExecuteApproved` | apps/web/src/lib/execution/approve-and-execute.ts:164-203 | From the recorded approval on: nothing is sent exactly when the request was claimed; the claim made, and every other job and log untouched |
| `Execution.ClaimAndExecute` | apps/web/src/lib/execution/approve-and-execute.ts:164-202 | Nothing is sent and nothing written exactly when the request was already claimed; otherwise one call, the claim in this job's and actor's name, and the document its answer leaves |
| `Execution.Dispatch` | apps/web/src/lib/execution/approve-and-execute.ts:176-200 | The save with the request hash, the one call, and the document left: RECONCILING with the answered transaction, or UNKNOWN_RECONCILING |
| `Execution.ContinueReconciliation` | apps/web/src/lib/execution/approve-and-execute.ts:214-324 | Reconciliation from whichever status is stored: it acts only on a job it can resume, changes no document but that one, no log and no claim, never dispatches, and a receipt it returns is the one stored with its status |
| `Execution.RunPhases` | apps/web/src/lib/execution/approve-and-execute.ts:254-324 | The phases in their order, each from what the one before it wrote |
| `Execution.AwaitReceipt` | apps/web/src/lib/execution/approve-and-execute.ts:254-271 | The RECONCILING phase moves on exactly when the transaction's receipt is there, with that receipt's block |
| `Execution.AwaitFinality` | apps/web/src/lib/execution/approve-and-execute.ts:273-292 | The WAITING_FINALITY phase moves on exactly when one of ten polls is the first to show two more blocks, none having failed, with that poll's height |
| `Execution.ReadGovernor` | apps/web/src/lib/execution/approve-and-execute.ts:294-320 | The VERIFYING_GOVERNOR_STATE phase moves on with the state of the first read that shows the proposal executed, or of the third, exactly when the reads up to it resolve |
| `Execution.FinalizePostconditionVerification` | apps/web/src/lib/execution/approve-and-execute.ts:338-424 | The last phase writes a receipt exactly when its reads are all there, and then each field of it: the two literals, hashes, proposal, blocks and state, the verdict exactly when one log and the balance say the payment was made, the status exactly when every leg agrees, and the job's final status with it |
| `Execution.WriteReceipt` | apps/web/src/lib/execution/approve-and-execute.ts:380-416 | The same from the adapter's verdict on |
| `StateMachine.FulfilledPathsPassEveryGate` | packages/core/src/fulfillment-state-machine.ts:35-110 | Every path of the table from NEW to FULFILLED_VERIFIED, cycles included, passes each single-status stage exactly once (ARMED, VERIFYING_AUTHORIZATION, CAPTURING_PRESTATE, SIMULATING, EXECUTING, WAITING_FINALITY, VERIFYING_POSTCONDITION, and AWAITING_APPROVAL in APPROVE mode), and AWAITING_APPROVAL never in AUTO mode |
| `StateMachine.TableByTarget` | packages/core/src/fulfillment-state-machine.ts:35-118 | The table read by target: for every status, exactly where and under which mode it can be entered |
| `StateMachine.BottleneckOnce` | packages/core/src/fulfillment-state-machine.ts:67-78 | No path that ends in FULFILLED_VERIFIED returns to such a status |
| `StateMachine.StageVisited` | packages/core/src/fulfillment-state-machine.ts:35-103 | No such path jumps a stage |
| `StateMachine.DispatchIsIrrevocable` | packages/core/src/recovery.ts:13-45 | Nothing that entered EXECUTING is later disarmed or reported safe to resume, on any path |
| `StateMachine.SafeToResumeExactlyWhen` | packages/core/src/recovery.ts:13-45 | A status is reported safe to resume exactly when the table leads from it to EXECUTING and not back, REFUSAL_TIMELOCK_PENDING apart |
| `StateMachine.UnsafeMeansDispatchedExactlyWhen` | packages/core/src/recovery.ts:37-45 | For a status reported unsafe, "at or past EXECUTING" is true exactly when it is none of the refusals settled before dispatch; REFUSAL_TIMELOCK_PENDING is one of them |
| `Jobs.ArmExactlyWhen` | packages/core/src/fulfillment-job.ts:151-189 | Arming succeeds exactly when the reviewed hash is the job's, the bundle unchanged, coverage FULL and the job at REVIEW_READY, and otherwise gives the error of the first of these that fails; it moves the status and the update time only, and its event names old status, new status and commitment hash |
| `Jobs.DisarmExactlyWhen` | packages/core/src/fulfillment-job.ts:191-232 | Disarming succeeds exactly from the four disarmable statuses, each of which has the table's edge |
| `Jobs.ApproveExactlyWhen` | packages/core/src/fulfillment-job.ts:263-286 | Approving succeeds exactly from AWAITING_APPROVAL with the job's own hash |
| `Receipts.ReconcileForReceipt` | packages/core/src/receipt.ts:113-157 | Verified exactly when every leg agrees, and otherwise exactly the first leg that does not |
| `Calldata.TransferRoundTrip` | packages/postconditions/src/decode-transfer-calldata.ts:27-49 | For every 20-byte hex address and amount below 2^256: what the contract ABI encodes as the arguments of `transfer(address,uint256)`, whatever follows it, decodes to that address, lower-cased, and that amount |
| `Calldata.DecodesExactlyWhen` | packages/postconditions/src/decode-transfer-calldata.ts:27-61 | Arguments decode exactly when the signature is that one and two words are there; and then they are the encoding of what was decoded, but for the twelve bytes in front of the address and what follows the second word |
| `Erc20.DecodeTokenTransferLogs` | packages/postconditions/src/transfer-log-match.ts:26-46 | The loop returns the token's decodable Transfer logs of the receipt, in order |
| `Erc20.Verify` | packages/postconditions/src/erc20-transfer-adapter.ts:113-193 | The verdict's precedence of reasons, and `verified` exactly on EXACT_MATCH |
| `Ledger.MatchedExactlyWhen` | packages/postconditions/src/transfer-log-match.ts:66-78 | On the raw logs: MATCHED exactly when one pays the recipient the amount in the token, and with that log; AMBIGUOUS exactly when several do; MISMATCH exactly when none does and some credits the recipient; MISSING exactly when none credits it |
| `Ledger.VerdictExactlyWhen` | packages/postconditions/src/erc20-transfer-adapter.ts:146-193 | Each reason the adapter gives, exactly, from the raw logs and the two balances |
| `Ledger.DecodedAre` | packages/postconditions/src/transfer-log-match.ts:26-46 | The k-th decoded log is the k-th well-formed Transfer of the token: its parties, its value, its index or -1 |
| `Ledger.AcceptedExactlyWhen` | packages/postconditions/src/erc20-transfer-adapter.ts:146-193 | For any token: accepted exactly when one transfer of the transaction matches and its effect plus everything else that moved the recipient's balance in the window comes to the amount |
| `Ledger.NetZeroDecidesExactlyWhen` | packages/postconditions/src/erc20-transfer-adapter.ts:146-193 | For a token that moves what it logs, "accepted iff the rest nets to zero" is right exactly when the payment is not to itself, or is of zero, or the rest nets to neither zero nor the amount |
| `Ledger.ExactTokenAccepted` | packages/postconditions/src/erc20-transfer-adapter.ts:113-193 | The intended reading, on every input without a payment to itself |
| `Ledger.SelfPaymentIsMisjudged` | packages/postconditions/src/erc20-transfer-adapter.ts:146-147 | A concrete payment to itself accepted although the rest does not net to zero, and rejected although it does |
| `Ledger.ShortCreditNeedsTheGapFilled` | packages/postconditions/src/erc20-transfer-adapter.ts:146-193 | A token that credits less than it logs is accepted exactly when other movements make up the difference |
| `Ledger.VerdictOnChain` | packages/postconditions/src/erc20-transfer-adapter.ts:82-90 | Two balance reads pinned to blocks and the receipt between them say exactly this about the blocks after the first read up to the second |
| `Ledger.BalanceIsLedger` | packages/postconditions/src/erc20-transfer-adapter.ts:127-146 | The difference of two pinned balance reads is the net of the movements between them |
| `Abi.RoundTrip` | packages/core/src/fulfillment-commitment.ts:61-71 | The decoder inverts the head/tail encoding of every value that fits its type, nested dynamic tuples and arrays included |
| `Abi.RoundTripAt` | packages/core/src/fulfillment-commitment.ts:144-165 | The same wherever the encoding stands inside larger data |
| `Abi.EncodingIsInjective` | packages/core/src/hash-domains.ts:129-148 | No two values of one type have the same encoding |
| `Abi.LeadingBytesOf` | packages/core/src/fulfillment-commitment.ts:50-58 | The leading domain string can be read back from the bytes alone |
| `Abi.StringLayout` | packages/core/src/fulfillment-commitment.ts:62-70 | A string's bytes stand behind its length and are filled up with zeros to a whole word |
| `Abi.ComponentAt` | packages/core/src/hash-domains.ts:129-148 | Where every component of a tuple or array stands: heads in order, then the dynamic components' encodings in order, each at the offset its head word gives, an array's count first; and nothing else is in the bytes |
| `Abi.WordPlaces` | packages/core/src/fulfillment-commitment.ts:62-70 | Byte by byte, a word is the number's digits to base 256, the most significant first |
| `Abi.WholeWords` | packages/core/src/hash-domains.ts:129-148 | Every encoding is a whole number of words |
| `Utf8.Utf8Injective` | packages/core/src/fulfillment-commitment.ts:62-70 | Different strings have different UTF-8 bytes |
| `Utf8.Utf8RoundTrip` | packages/core/src/fulfillment-commitment.ts:62-70 | Decoding a string's UTF-8 bytes gives back the string |
| `Commitments.HexUpToCase` | packages/core/src/fulfillment-commitment.ts:149-149 | Hex text gives the same bytes exactly when it is the same up to letter case |
| `Commitments.BindingEncodingInjective` | packages/core/src/fulfillment-commitment.ts:61-75 | Equal binding encodings are of equal bindings, every parameter included |
| `Commitments.CommitmentHashDetermines` | packages/core/src/fulfillment-commitment.ts:120-169 | Without a Keccak collision among the strings hashed, two commitments hash alike exactly when they agree up to address case and numeric spelling: selections, mode, authorization hash and every nested binding parameter (which bytes are hashed is CommitmentLayout) |
| `Commitments.AuthorizationHashDetermines` | packages/core/src/hash-domains.ts:106-165 | Two bundles hash alike exactly when they agree, action order included, up to address case and numeric spelling |
| `Layout.CommitmentLayout` | packages/core/src/fulfillment-commitment.ts:108-165 | Every commitment whose fields fit is encoded, and the decoder reads its twelve components back in their places: the domain string, version, chain, Governor, family name, proposal number, frozen hash, selected indexes, one summary per binding with the Keccak hash of that binding's own encoding, mode name, execution surface, policy version |
| `Layout.BindingLayout` | packages/core/src/fulfillment-commitment.ts:50-71 | Likewise a binding: domain, version 1, action index, adapter id and version, required, every parameter's key and value |
| `Layout.AuthorizationLayout` | packages/core/src/hash-domains.ts:92-148 | Likewise a Bravo bundle, action by action: index, target, value, signature, calldata; no other family is encoded |
| `Layout.ReceiptLayout` | packages/core/src/receipt.ts:37-78 | Likewise the seventeen components of a receipt; `observedAt` is not among them |
| `Layout.PlanLayout` | packages/governor/src/execution-plan.ts:28-66 | The plan of a proposal is a call of `execute` that sends nothing, its calldata the selector 0xfe0d94c1 and the proposal number; and its encoding reads back likewise |
| `Domains.ReceiptHashDetermines` | packages/core/src/receipt.ts:37-82 | Two receipts hash alike exactly when they agree in everything but `observedAt`, letter case and numeric spelling |
| `Domains.PlanHashDetermines` | packages/governor/src/execution-plan.ts:28-66 | Two execution plans hash alike exactly when they are for the same chain, Governor and proposal number |
| `Domains.DomainsNeverMeet` | packages/core/src/hash-domains.ts:84-92 | One object of each of the five domains gives five different byte strings, although three encodings share a seven-word head |
| `Bundles.KeccakSeparates` | packages/core/src/hash-domains.ts:163-165 | With Keccak-256 over the canonical encoding, telling a proposal's bundles apart is no more than the absence of a collision among them |
| `Bundles.SameTransferThroughout` | apps/web/src/lib/execution/approve-and-execute.ts:100-103 | While the hash has not changed, neither has the first selected action nor the transfer it makes |
| `Intake.ResolveGovernanceIntake` | apps/web/src/lib/governance.ts:94-184 | A commitment comes out exactly when the proposal can be executed now and every action decodes; it then selects them all in order, and for every position the binding has that position, is required, names adapter erc20-transfer version 1, and its parameters are the action's target, the payee and the amount its calldata encodes; surface, policy and mode are the literals. Coverage is FULL exactly when there are actions and all decode, UNSUPPORTED exactly when none does |
| `Intake.CoverageMeans` | packages/postconditions/src/index.ts:112-122 | FULL exactly when something is required and all of it is supported; UNSUPPORTED exactly when nothing required is supported |
| `Intake.FullExactlyWhen` | apps/web/src/lib/governance.ts:155-159 | A bundle is fully covered exactly when it has an action and every action decodes |
| `Intake.UnchangedHashMeansCovered` | apps/web/src/lib/execution/approve-and-execute.ts:380-390 | For intake-built commitments an unchanged hash means: coverage really is FULL, the first selected action exists and decodes, and each binding, the first included, is of the live action at its position |
| `Intake.ArmedCoverageIsFull` | apps/web/src/lib/fulfillment-actions.ts:94-101 | When an arm goes through, the coverage it reports as a literal is the live bundle's |
| `Preparation.PrepareStaysOnTheTable` | apps/web/src/lib/execution/prepare.ts:91-125 | In every run, stale intake writes included, for an intake-built commitment: a prepare run whose bundle check passes finds its action and goes on, and whatever it carries to its snapshot, however the chain has grown since, decodes and goes on, so the table-less moves at lines 106 and 123 are never asked for |
| `Preparation.EveryOutcomeIsGrounded` | apps/web/src/lib/execution/prepare.ts:61-191 | In every run: the status a prepare run gave a stored job is true of the chain. Canceled, timelock pending, not executable and executed elsewhere are what some state, record and clock readings warrant; a payload mismatch is a bundle with another hash; and a job awaiting approval, or refused after its snapshot, was seen queued and due and holds the balance snapshot of the first selected action of a bundle with the frozen hash |
| `Preparation.RunCarries` | apps/web/src/lib/execution/prepare.ts:91-116 | In every run the action a prepare run carries past its bundle check was the first selected one of a bundle that hashed to the frozen hash |
| `Tables.NextNumberIsCount` | packages/db/src/sqlite-fulfillment-job-store.ts:82-90 | While a job's events are numbered 0, 1, 2, …, `MAX(seq) + 1` is their count |
| `Tables.ReadersSeeTheLog` | packages/db/src/sqlite-fulfillment-job-store.ts:92-95 | `ORDER BY seq` then gives the events in the order they were written |
| `Tables.InsertsAppend` | packages/db/src/postgres-fulfillment-job-store.ts:100-108 | Inserting from the next free number appends to the job's log and to no other |
| `Tables.WriteAndInserts` | packages/db/src/sqlite-fulfillment-job-store.ts:103-118 | The upsert and the inserts together are the abstract save with events |
| `InMemoryStore.InMemoryFulfillmentJobStore.constructor` | packages/db/src/fulfillment-job-store.ts:91-94 | A new store is empty |
| `InMemoryStore.InMemoryFulfillmentJobStore.Save` | packages/db/src/fulfillment-job-store.ts:96-99 | Upsert; an existing event log is untouched |
| `InMemoryStore.InMemoryFulfillmentJobStore.Get` | packages/db/src/fulfillment-job-store.ts:101-103 | The stored document, absent for an unknown job |
| `InMemoryStore.InMemoryFulfillmentJobStore.AppendEvents` | packages/db/src/fulfillment-job-store.ts:105-108 | Appends to the job's log |
| `InMemoryStore.InMemoryFulfillmentJobStore.GetEvents` | packages/db/src/fulfillment-job-store.ts:110-112 | The job's log, empty for an unknown job |
| `InMemoryStore.InMemoryFulfillmentJobStore.SaveJobAndEvents` | packages/db/src/fulfillment-job-store.ts:118-121 | Both writes |
| `InMemoryStore.InMemoryFulfillmentJobStore.SaveWithCas` | packages/db/src/fulfillment-job-store.ts:123-131 | Writes exactly when the stored status is the expected one, else reports the stored one |
| `InMemoryStore.InMemoryFulfillmentJobStore.TryClaimExecution` | packages/db/src/fulfillment-job-store.ts:133-138 | The first claimant keeps the claim for ever |
| `InMemoryStore.InMemoryFulfillmentJobStore.ExportSnapshot` | packages/db/src/fulfillment-job-store.ts:148-153 | Jobs and events, and no claims |
| `InMemoryStore.InMemoryFulfillmentJobStore.FromSnapshot` | packages/db/src/fulfillment-job-store.ts:155-160 | Restores jobs and events, and no claims |
| `InMemoryStore.Restart` | packages/db/src/fulfillment-job-store.ts:148-160 | A snapshot round trip gives back the same store exactly when no claim was held; every claim is forgotten |
| `SqliteStore.SqliteFulfillmentJobStore.Save` | packages/db/src/sqlite-fulfillment-job-store.ts:62-69 | Refines the abstract save |
| `SqliteStore.SqliteFulfillmentJobStore.Get` | packages/db/src/sqlite-fulfillment-job-store.ts:71-75 | Reads the abstract document |
| `SqliteStore.SqliteFulfillmentJobStore.GetEvents` | packages/db/src/sqlite-fulfillment-job-store.ts:92-95 | Reads the abstract log |
| `SqliteStore.SqliteFulfillmentJobStore.AppendEventsSync` | packages/db/src/sqlite-fulfillment-job-store.ts:82-90 | The insert loop adds the events numbered upward from `MAX(seq) + 1`; if a statement throws, exactly the events before it |
| `SqliteStore.SqliteFulfillmentJobStore.AppendEvents` | packages/db/src/sqlite-fulfillment-job-store.ts:78-80 | Refines the abstract append of what was inserted: all events, or those before the statement that threw, for there is no transaction around it |
| `SqliteStore.SqliteFulfillmentJobStore.SaveJobAndEvents` | packages/db/src/sqlite-fulfillment-job-store.ts:103-118 | Refines the abstract operation, or throws, at any statement from BEGIN to COMMIT, and leaves every table as it was |
| `SqliteStore.SqliteFulfillmentJobStore.SaveWithCas` | packages/db/src/sqlite-fulfillment-job-store.ts:121-143 | Refines the abstract compare-and-set with its result, or throws, at any statement from BEGIN to COMMIT, and leaves every table as it was |
| `SqliteStore.SqliteFulfillmentJobStore.TryClaimExecution` | packages/db/src/sqlite-fulfillment-job-store.ts:153-161 | Refines the abstract claim with its result |
| `PostgresStore.PostgresRefines` | packages/db/src/postgres-fulfillment-job-store.ts:128-189 | In every interleaving of transactions, rollbacks anywhere: the committed tables are the abstract store after the recorded outcomes in commit order, a request is saved or lost as the abstract store has it (what a loser is told is the next row's), event numbers are dense per job and the status column is the document's status |
| `PostgresStore.LoserIsToldExactlyWhen` | packages/db/src/postgres-fulfillment-job-store.ts:177-180 | A losing compare-and-set is told the status at its later SELECT: the abstract outcome, the status it lost to, exactly when no write of the job was committed in between or the last one put that status back; the very status it expected exactly when the last such write put the job there |
| `PostgresStore.UndisturbedLoserIsTold` | packages/db/src/postgres-fulfillment-job-store.ts:177-180 | With no committed write of the job between losing and asking, the report is the abstract outcome |
| `PostgresStore.LoserToldWhatItExpected` | packages/db/src/postgres-fulfillment-job-store.ts:157-184 | A run in which a compare-and-set expecting AWAITING_APPROVAL loses to an ARMED job and is then told AWAITING_APPROVAL |
| `PostgresStore.DoKeeps` | packages/db/src/postgres-fulfillment-job-store.ts:100-189 | Each statement keeps that: the row lock taken before `MAX(seq)` is read keeps the number valid until commit |
| `PostgresStore.PublishIsApply` | packages/db/src/postgres-fulfillment-job-store.ts:157-184 | What a transaction publishes at commit is the abstract operation on the then committed store |
| `PostgresStore.OneWinner` | packages/db/src/postgres-fulfillment-job-store.ts:157-184 | Of two compare-and-sets of one job from the same status the first wins exactly when the job is at that status; once it has, the second wins exactly when the last write from then on, the first one's own included, left the job at that status |
| `PostgresStore.StatusFollowsWrites` | packages/db/src/postgres-fulfillment-job-store.ts:157-174 | The stored status is the one the last committed write gave the job, or the earlier one if there was none |
| `PostgresStore.StatusStays` | packages/db/src/postgres-fulfillment-job-store.ts:169-174 | Without such a write the stored status does not return |
| `PostgresStore.RevisionCountsWrites` | packages/db/src/postgres-fulfillment-job-store.ts:133-141 | In every interleaving a job's revision is the number of its committed writes less one, so none is lost |
| `PostgresStore.OnlyCommitPublishes` | packages/db/src/postgres-fulfillment-job-store.ts:131-142 | Nothing but a commit changes the committed tables, and a commit publishes the job row and all its events together |
| `RateLimit.RateLimiter.AssertWithinRateLimit` | apps/web/src/lib/agent/rate-limit.ts:54-74 | A request is refused exactly when the kept list has five times of the last 60 seconds; while the clock has not gone back that is what the full history says, no window of any key ever exceeds the limit, and the reported wait is exact; past 10,000 keys only keys with a recent request are kept |
| `RateLimit.AcceptKeepsPaced` | apps/web/src/lib/agent/rate-limit.ts:41-63 | Accepting when the window that ends now has room keeps every 60-second window within five |
| `RateLimit.RetryAfterIsExact` | apps/web/src/lib/agent/rate-limit.ts:58-61 | Refused at every moment before the reported one, accepted at it |
| `RateLimit.RecordKeepsAgreement` | apps/web/src/lib/agent/rate-limit.ts:55-64 | Recording into the pruned list shows every later caller what the full history would |
| `RateLimit.CleanKeepsAgreement` | apps/web/src/lib/agent/rate-limit.ts:67-73 | So does cleaning up any key |
| `WorkerPool.MapWithConcurrency` | scripts/lib/concurrency.ts:2-14 | For every completion order: indices go out in order and once each, just after each call is made at most min(limit, n) are in flight, and exactly that many once the first round is out as long as none fails; the pool rejects exactly when a call it made fails, and otherwise the slots hold each item's own result when limit >= 1 and are all holes when it is not |
| `WorkerPool.SucceedKeeps` | scripts/lib/concurrency.ts:6-10 | A completing call stores its own result and takes the next index |
| `WorkerPool.FailKeeps` | scripts/lib/concurrency.ts:5-12 | A failing call ends its worker only |
| `Units.PrintedReadsBack` | packages/keeperhub/src/units.ts:11-21 | Reading the printed ether decimal gives back the wei, for every integer |
| `Units.PrinterInjective` | packages/keeperhub/src/units.ts:11-21 | Distinct amounts print differently |
| `Units.PrintsCanonically` | packages/keeperhub/src/units.ts:18-19 | No bare point and no trailing fractional zero |
| `Units.ConversionKeepsTheAmount` | packages/keeperhub/src/units.ts:11-14 | The same on decimal text, negative or not |
| `HistoricalDataset.ProcessGovernor` | scripts/reproduce-historical-baseline.ts:219-312 | Of the ids 1..proposalCount each is in exactly one of records and exclusions, once; records are exactly the data points with their true interval; each exclusion's reason is what was read of that proposal |
| `HistoricalDataset.OneReason` | scripts/lib/historical-baseline-math.ts:78-97 | The reasons, in terms of state numbers, logs, times and ETAs, exclude one another, and a numbered proposal is a data point exactly when none applies |
| `HistoricalDataset.ExcludeBoundary` | scripts/reproduce-historical-baseline.ts:222-226 | The migration-boundary loop |
| `HistoricalDataset.SplitByState` | scripts/reproduce-historical-baseline.ts:232-245 | The state loop loses and repeats no id |
| `HistoricalDataset.BuildRecords` | scripts/reproduce-historical-baseline.ts:264-309 | The record loop loses and repeats no id |
| `HistoricalDataset.ChunkRange` | scripts/reproduce-historical-baseline.ts:106-110 | The chunks tile the range, all but the last of exactly 80,000 blocks |
| `HistoricalDataset.EachBlockOnce` | scripts/reproduce-historical-baseline.ts:106-110 | Every block of the range lies in exactly one chunk |
| `HistoricalDataset.FindDuplicateKeys` | scripts/lib/historical-baseline-math.ts:143-152 | Exactly the keys that occur more than once |
| `HistoricalStatistics.PercentilesAgree` | scripts/verify-historical-baseline.ts:35-46 | The verifier's percentile is the primary one on every list and rank |
| `HistoricalStatistics.PercentileInterpolates` | scripts/lib/historical-baseline-math.ts:15-24 | The value `w` of the way from the k-th of n sorted values to the next is the percentile at `100 (k + w) / (n - 1)` |
| `HistoricalStatistics.PercentileMonotone` | scripts/lib/historical-baseline-math.ts:15-24 | Percentiles rise with the rank and stay within min..max |
| `HistoricalStatistics.Bucketize` | scripts/lib/historical-baseline-math.ts:40-53 | The counting loop gives the numbers of values in the stated ranges |
| `HistoricalStatistics.ComputeBuckets` | scripts/verify-historical-baseline.ts:60-74 | So does the verifier's |
| `HistoricalStatistics.BucketsConserve` | scripts/lib/historical-baseline-math.ts:32-53 | The four ranges below a day, the tail above it and the values exactly a day make up the list, so the buckets alone do exactly when no value is exactly 86400; the tails are nested |
| `HistoricalStatistics.ComputeMean` | scripts/verify-historical-baseline.ts:48-53 | The summing loop gives the mean |
| `HistoricalStatistics.MeanBalances` | scripts/lib/historical-baseline-math.ts:26-29 | The mean is the one value from which the deviations cancel out |
| `HistoricalStatistics.StatsFor` | scripts/lib/historical-baseline-math.ts:55-68 | The primary summary describes the sorted list |
| `HistoricalStatistics.Summarize` | scripts/verify-historical-baseline.ts:76-89 | So does the independent one |
| `HistoricalStatistics.Compare` | scripts/verify-historical-baseline.ts:96-153 | The two agree in every figure on every list, and min <= median <= p75 <= p90 <= p95 <= max |

## Left out

- Reconciliation liveness: stuck EXECUTING and UNKNOWN_RECONCILING jobs are part of the design; only safety is stated.
- Chain reorganisations and replaced transactions: the chain only grows, and a receipt found under a hash is that hash's.
- `Pipeline` and `Execution` run alone over a chain that does not grow meanwhile; interleaving and growth are the machine's.
- `execResult.transactionHash` as an empty string: the model's absent hash stands for absent and empty alike.
- Timestamps are numbers, reasons and log texts are dropped, and job fields no decision reads (`executionId`, `governorExecuted`) are left out.
- Digests are byte strings, so the letter case of a hex hash has no counterpart; `armFulfillmentJob` compares exactly where `reconcileForMarkedReceipt` folds case.
- Recipients read from calldata are lower-case hex where the original decodes checksummed hex; every comparison folds case.
- The address encoder's checksum test for mixed-case text: it only makes more inputs throw.
- Strings are sequences of Unicode scalar values; a lone UTF-16 surrogate, which the encoder replaces, has no counterpart.
- `BigInt` on hex, padded or empty text: numbers are decimal numerals, signed for the wei printer.
- Encodings of 2^256 bytes or more, which no offset word could hold.
- `hashContractCall`: SHA-256 over JSON is a function of chain, lower-cased Governor and proposal number, the parts of a frozen `execute` call that vary.
- `validateLifecycleExecutionPolicy`, `evaluateCallerCompatibility`, KeeperHub configuration and simulation: one nondeterministic outcome.
- `assessFulfillability`: only what intake lets vary (family, eligibility, coverage).
- Authentication, sandbox wrappers, listing of jobs, job-id construction.
- SQLite: a ROLLBACK that itself throws, and a claim insert that fails for another reason than its key; claims are written outside transactions.
- Postgres `appendEvents` outside a transaction, which takes no row lock; legacy SQLite rows with an empty status; connection errors.
- Postgres `tryClaimExecution`: one `INSERT … ON CONFLICT DO NOTHING`, the same rule as the SQLite claim.
- `classifyExecutionRecovery`, `classifyExternalExecutionRecovery`, `classifyFinalityRegression`: short branch checks no caller in the pipeline uses.
- Caching, retries and chunked fetching of the historical pipeline; floating-point rounding; deterministic sorting and grouping by DAO.
- HTTP, pages, cookies, environment parsing.
