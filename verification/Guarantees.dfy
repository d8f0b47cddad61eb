/** What a receipt stands for, in every run: stale intake writes included, crashes anywhere. */
module Guarantees {
  import AtMostOnce
  import opened Bundles
  import opened Documents
  import opened Erc20
  import opened Governor
  import opened Grounds
  import opened Intake
  import opened Invariant
  import opened Jobs
  import opened Ledger
  import opened Protocol
  import opened Receipts
  import opened StateMachine
  import opened Text
  import opened Wrappers

  // ------------------------------------------------------------------ what a receipt rests on

  /**
   * Exactly one log of the transaction is this payment, and between the two blocks the recipient's balance rose by
   * the amount.
   */
  ghost predicate Paid(chain: Chain, token: HexAddress, recipient: HexAddress, amount: nat, tx: TxHash, pre: nat,
                       post: nat) {
    && tx in chain.receipts
    && (exists i :: OnlyAt(RawTest(token, recipient, amount), chain.receipts[tx].logs, i))
    && BalanceAt(chain, token, recipient, pre).Some? && BalanceAt(chain, token, recipient, post).Some?
    && BalanceAt(chain, token, recipient, post).value - BalanceAt(chain, token, recipient, pre).value == amount
  }

  /** The receipt's transaction is the one KeeperHub named for this job's own dispatch of its own proposal. */
  ghost predicate OwnTransaction(cfg: Config, job: Job, d: Dispatch) {
    && job.receipt.Some? && job.execution.Some?
    && var c := job.commitment;
       && d.jobId == job.jobId && d.call == Call(c.chainId, ToLower(c.governor), DecimalValue(c.proposalId))
       && d.request == cfg.requestHash(d.call) && job.execution.value.requestHash == Some(d.request)
       && d.answer == Answered(Some(job.receipt.value.executionTxHash))
  }

  /**
   * The bundle was checked and the balance read in blocks mined before the dispatch, the transaction was included after
   * it, and finality was recorded at least two blocks later; the inclusion block is the transaction's own.
   */
  ghost predicate InOrder(chain: Chain, job: Job, d: Dispatch) {
    && job.receipt.Some?
    && var r := job.receipt.value;
       && r.executionTxHash in chain.receipts && chain.receipts[r.executionTxHash].block == r.executionBlock
       && d.authBlock < d.minedBlocks && d.execution.preStateBlock < d.minedBlocks <= r.executionBlock
       && r.executionBlock + 2 <= r.finalityBlock < |chain.blocks|
       && job.execution.Some? && job.execution.value.finalityBlock == Some(r.finalityBlock)
  }

  /** The receipt names the job's own proposal, hashes and action, what was recorded, and the two literals. */
  ghost predicate NamesItsJob(cfg: Config, job: Job) {
    && job.receipt.Some? && |job.commitment.selectedActionIndexes| > 0
    && var c, r := job.commitment, job.receipt.value;
       && r.version == 1 && r.coverage.Full? && r.observedAt == job.updatedAt
       && r.commitmentHash == cfg.commitmentHash(c) && r.frozenAuthorization == c.frozenAuthorization
       && r.chainId == c.chainId && r.governor == c.governor
       && r.governorFamily == c.governorFamily && r.proposalId == c.proposalId
       && r.actionIndex == c.selectedActionIndexes[0]
       && job.execution.Some? && job.execution.value.governorFinalState == Some(r.governorFinalState)
       && (r.status.Verified? <==> job.status.FulfilledVerified?)
  }

  /** Before the dispatch: the proposal was eligible, its bundle unchanged, and the record is of the selected action. */
  ghost predicate SentFor(cfg: Config, chain: Chain, job: Job, d: Dispatch) {
    && job.execution.Some? && Pristine(job.execution.value) == Pristine(d.execution)
    && Captured(cfg, chain, job.commitment, d.execution, d.authBlock)
  }

  /**
   * The receipt was closed on the bundle of block `b`: it carries that bundle's hash, and its verdict is whether the
   * transaction paid what that bundle's first selected action says, to the account and of the token on record.
   */
  ghost predicate ClosedOn(cfg: Config, chain: Chain, job: Job, b: nat) {
    && job.receipt.Some? && job.execution.Some?
    && var c, r, e := job.commitment, job.receipt.value, job.execution.value;
       && AuthorizationAt(chain, c, b).Some? && TransferAt(chain, c, b).Some?
       && r.finalAuthorization == cfg.authorizationHash(AuthorizationAt(chain, c, b).value)
       && (r.requiredAssertionsVerified <==>
             Paid(chain, e.token, e.recipient, TransferAt(chain, c, b).value.amount, r.executionTxHash,
                  e.preStateBlock, r.executionBlock))
       && (cfg.headReads ==> r.finalityBlock <= b)
  }

  /**
   * What every receipt stands for, verified or not, and when it is verified: the last bundle hashed to the frozen hash,
   * the first binding is the selected action's, the Governor was seen executed, and the payment was made.
   */
  ghost predicate Accounted(cfg: Config, chain: Chain, job: Job, d: Dispatch, finalBlock: nat, stateBlock: nat) {
    && OwnTransaction(cfg, job, d) && InOrder(chain, job, d) && NamesItsJob(cfg, job)
    && SentFor(cfg, chain, job, d) && ClosedOn(cfg, chain, job, finalBlock)
    && var c, r := job.commitment, job.receipt.value;
       && StateSeen(chain, c, stateBlock, r.governorFinalState)
       && (cfg.headReads ==> r.finalityBlock <= stateBlock)
       && (r.status.Verified? <==>
             r.finalAuthorization == r.frozenAuthorization && r.governorFinalState == 7 &&
             r.requiredAssertionsVerified &&
             (c.bindings == [] || c.bindings[0].actionIndex == c.selectedActionIndexes[0]))
  }

  /**
   * Everything a MARKED receipt stands for, said of the chain alone. Where closing reads are of the head, the bundle's
   * last check and the Governor's state are of blocks no older than the receipt's finality block.
   */
  ghost predicate Earned(cfg: Config, chain: Chain, job: Job, d: Dispatch, finalBlock: nat, stateBlock: nat) {
    && OwnTransaction(cfg, job, d) && InOrder(chain, job, d) && NamesItsJob(cfg, job)
    && var c, r := job.commitment, job.receipt.value;
       && r.finalAuthorization == r.frozenAuthorization && r.governorFinalState == 7
       && StillFrozen(cfg, chain, c, d.authBlock) && StillFrozen(cfg, chain, c, finalBlock)
       && Seen(chain, c, Executing) && StateSeen(chain, c, stateBlock, 7)
       && (cfg.headReads ==> r.finalityBlock <= finalBlock && r.finalityBlock <= stateBlock)
       && ActionAt(chain, c, d.authBlock).Some? && TransferAt(chain, c, d.authBlock).Some?
       && TransferAt(chain, c, finalBlock).Some?
       && d.execution.authorizedAmount == TransferAt(chain, c, d.authBlock).value.amount
       && Paid(chain, ActionAt(chain, c, d.authBlock).value.target, TransferAt(chain, c, d.authBlock).value.recipient,
               TransferAt(chain, c, finalBlock).value.amount, r.executionTxHash, d.execution.preStateBlock,
               r.executionBlock)
  }

  lemma VerdictMeansPaid(chain: Chain, job: Job, actions: seq<Action>)
    requires job.execution.Some? && FinalVerdict(chain, job, actions).Some?
    requires BalanceAt(chain, job.execution.value.token, job.execution.value.recipient,
                       job.execution.value.preStateBlock)
               == Some(job.execution.value.balanceBefore)
    ensures var e, a := job.execution.value, FirstSelected(job.commitment, actions);
            && a.Some? && TryDecodeTransfer(a.value.signature, a.value.calldata).Some?
            && e.transactionHash.Some? && e.inclusionBlock.Some?
            && (FinalVerdict(chain, job, actions).value <==>
                  Paid(chain, e.token, e.recipient, TryDecodeTransfer(a.value.signature, a.value.calldata).value.amount,
                       e.transactionHash.value, e.preStateBlock, e.inclusionBlock.value))
  {
    hide TokenTransfers, BalanceAt, TryDecodeTransfer, FirstSelected, MatchTransferLog;
    var e, a := job.execution.value, FirstSelected(job.commitment, actions);
    var amount := TryDecodeTransfer(a.value.signature, a.value.calldata).value.amount;
    MatchedExactlyWhen(chain.receipts[e.transactionHash.value].logs, e.token, e.recipient, amount);
  }

  lemma ClosingBundle(chain: Chain, c: Commitment, b: nat)
    requires AuthorizationAt(chain, c, b).Some?
    ensures FirstSelected(c, AuthorizationAt(chain, c, b).value.actions) == ActionAt(chain, c, b)
    ensures TransferAt(chain, c, b) ==
              if ActionAt(chain, c, b).None? then None
              else TryDecodeTransfer(ActionAt(chain, c, b).value.signature, ActionAt(chain, c, b).value.calldata)
  {
    hide TryDecodeTransfer;
  }

  lemma CapturedMeans(cfg: Config, chain: Chain, c: Commitment, e: ExecutionState, b: nat)
    requires Captured(cfg, chain, c, e, b)
    ensures StillFrozen(cfg, chain, c, b) && ActionAt(chain, c, b).Some? && TransferAt(chain, c, b).Some?
    ensures Seen(chain, c, Executing) && e.authorizedAmount == TransferAt(chain, c, b).value.amount
    ensures e.token == ActionAt(chain, c, b).value.target && e.recipient == TransferAt(chain, c, b).value.recipient
    ensures BalanceAt(chain, e.token, e.recipient, e.preStateBlock) == Some(e.balanceBefore)
  {
    hide AuthorizationAt, ActionAt, BalanceAt, TryDecodeTransfer, Seen;
  }

  lemma ReceiptFits(cfg: Config, chain: Chain, log: seq<Dispatch>, issued: map<JobId, nat>, job: Job)
    requires Terminal(job.status) && RecordShape(job) && ChainFacts(cfg, chain, job) && Bound(log, issued, job)
    requires var d := log[issued[job.jobId]]; DispatchOk(cfg, chain, job, d) && d.request == cfg.requestHash(d.call)
    requires job.commitmentHash == cfg.commitmentHash(job.commitment)
    ensures OwnTransaction(cfg, job, log[issued[job.jobId]]) && InOrder(chain, job, log[issued[job.jobId]])
    ensures NamesItsJob(cfg, job) && SentFor(cfg, chain, job, log[issued[job.jobId]])
  {
    hide Captured, StateSeen, FinalVerdict, AuthorizationAt, PrepareRefusal, ReconcileForReceipt;
    var b :| Judged(cfg, chain, job, b);
  }

  lemma ReceiptCloses(cfg: Config, chain: Chain, job: Job, b: nat)
    requires Judged(cfg, chain, job, b) && RecordShape(job) && Terminal(job.status)
    requires job.execution.value.finalityBlock.Some?
    requires BalanceAt(chain, job.execution.value.token, job.execution.value.recipient,
                       job.execution.value.preStateBlock)
               == Some(job.execution.value.balanceBefore)
    ensures ClosedOn(cfg, chain, job, b)
    ensures var c, r := job.commitment, job.receipt.value;
            r.status.Verified? <==>
              r.finalAuthorization == r.frozenAuthorization && r.governorFinalState == 7 &&
              r.requiredAssertionsVerified &&
              (c.bindings == [] || c.bindings[0].actionIndex == c.selectedActionIndexes[0])
  {
    hide StateSeen, FinalVerdict, AuthorizationAt, PrepareRefusal, ActionAt, TransferAt, Paid, FirstSelected,
      TryDecodeTransfer, BalanceAt;
    ClosingBundle(chain, job.commitment, b);
    VerdictMeansPaid(chain, job, AuthorizationAt(chain, job.commitment, b).value.actions);
  }

  lemma ReceiptIsAccounted(cfg: Config, chain: Chain, log: seq<Dispatch>, issued: map<JobId, nat>, job: Job)
    returns (finalBlock: nat, stateBlock: nat)
    requires Terminal(job.status) && RecordShape(job) && ChainFacts(cfg, chain, job) && Bound(log, issued, job)
    requires var d := log[issued[job.jobId]]; DispatchOk(cfg, chain, job, d) && d.request == cfg.requestHash(d.call)
    requires job.commitmentHash == cfg.commitmentHash(job.commitment)
    ensures Accounted(cfg, chain, job, log[issued[job.jobId]], finalBlock, stateBlock)
  {
    hide Captured, StateSeen, FinalVerdict, AuthorizationAt, PrepareRefusal, ReconcileForReceipt, OwnTransaction,
      InOrder, NamesItsJob, ClosedOn, BalanceAt, FinalReceipt;
    var d, c := log[issued[job.jobId]], job.commitment;
    ReceiptFits(cfg, chain, log, issued, job);
    CapturedMeans(cfg, chain, c, d.execution, d.authBlock);
    finalBlock :| Judged(cfg, chain, job, finalBlock);
    stateBlock :| GovernorRead(cfg, chain, job, stateBlock);
    ReceiptCloses(cfg, chain, job, finalBlock);
    assert AtEnd(cfg, job, stateBlock);
    NamesMeans(cfg, chain, job, d);
  }

  lemma NamesMeans(cfg: Config, chain: Chain, job: Job, d: Dispatch)
    requires NamesItsJob(cfg, job) && InOrder(chain, job, d)
    ensures job.receipt.Some? && job.execution.Some? && |job.commitment.selectedActionIndexes| > 0
    ensures job.execution.value.governorFinalState == Some(job.receipt.value.governorFinalState)
    ensures job.execution.value.finalityBlock == Some(job.receipt.value.finalityBlock)
    ensures job.receipt.value.status.Verified? <==> job.status.FulfilledVerified?
  {
  }

  /**
   * Every receipt of every run, verified and unverified alike. Its transaction is the one its own dispatch of its own
   * proposal was answered with; snapshot, dispatch, inclusion and finality stand in that order; its hashes, its state
   * and its verdict are what the chain showed at the blocks it was closed on; and it is verified exactly when the last
   * bundle was still the frozen one, the Governor had executed, and that transaction made the payment.
   */
  lemma EveryReceiptIsAccounted(cfg: Config, steps: seq<Step>, j: JobId)
    requires IsRun(cfg, steps) && j in Run(cfg, steps).store.jobs && Terminal(Run(cfg, steps).store.jobs[j].status)
    ensures var s := Run(cfg, steps);
            exists k, finalBlock, stateBlock :: 0 <= k < |s.log| &&
              Accounted(cfg, ChainOf(s, s.store.jobs[j]), s.store.jobs[j], s.log[k], finalBlock, stateBlock)
  {
    hide Run, RecordShape, ChainFacts, DispatchOk, Accounted, AtMostOnce.PidsBelow, AtMostOnce.HoldsClaim;
    var s := Run(cfg, steps);
    AtMostOnce.RunKeeps(cfg, steps);
    var k := StoredDocument(cfg, steps, j);
    var finalBlock, stateBlock := ReceiptIsAccounted(cfg, ChainOf(s, s.store.jobs[j]), s.log, map[j := k],
                                                     s.store.jobs[j]);
  }

  lemma VerifiedIsEarned(cfg: Config, chain: Chain, job: Job, d: Dispatch, finalBlock: nat, stateBlock: nat)
    requires job.status.FulfilledVerified? && Accounted(cfg, chain, job, d, finalBlock, stateBlock)
    ensures Earned(cfg, chain, job, d, finalBlock, stateBlock)
  {
    hide AuthorizationAt, PrepareRefusal, OwnTransaction, InOrder, Paid, BalanceAt, TryDecodeTransfer, ActionAt,
      TransferAt, Captured, Seen, NamesItsJob;
    NamesMeans(cfg, chain, job, d);
    CapturedMeans(cfg, chain, job.commitment, d.execution, d.authBlock);
    assert StillFrozen(cfg, chain, job.commitment, finalBlock) by { FrozenNamed(cfg, job); }
  }

  lemma FrozenNamed(cfg: Config, job: Job)
    requires NamesItsJob(cfg, job)
    ensures job.receipt.value.frozenAuthorization == job.commitment.frozenAuthorization
  {
  }

  /**
   * MARKED soundness: a job at FULFILLED_VERIFIED carries a receipt for the transaction its own dispatch was answered
   * with; the bundle hashed to the frozen hash in a block mined before that dispatch, and again when it was read last;
   * the Governor was seen EXECUTED; and that transaction, included after the dispatch, holds exactly one log of the
   * first selected action's transfer, which the recipient's balance confirms.
   */
  lemma MarkedIsEarned(cfg: Config, steps: seq<Step>, j: JobId)
    requires IsRun(cfg, steps)
    requires j in Run(cfg, steps).store.jobs && Run(cfg, steps).store.jobs[j].status.FulfilledVerified?
    ensures var s := Run(cfg, steps);
            exists k, finalBlock, stateBlock :: 0 <= k < |s.log| &&
              Earned(cfg, ChainOf(s, s.store.jobs[j]), s.store.jobs[j], s.log[k], finalBlock, stateBlock)
  {
    hide Run, IsRun, Accounted, Earned;
    EveryReceiptIsAccounted(cfg, steps, j);
    var s := Run(cfg, steps);
    var job, chain := s.store.jobs[j], ChainOf(s, s.store.jobs[j]);
    var k, finalBlock, stateBlock :| 0 <= k < |s.log| && Accounted(cfg, chain, job, s.log[k], finalBlock, stateBlock);
    VerifiedIsEarned(cfg, chain, job, s.log[k], finalBlock, stateBlock);
  }

  /**
   * For a commitment that intake built: a MARKED job's bundle was fully covered when the call went out and again at the
   * end, as the receipt says in a literal, although only the first action is verified.
   */
  lemma MarkedWasCovered(cfg: Config, steps: seq<Step>, j: JobId)
    requires IsRun(cfg, steps)
    requires j in Run(cfg, steps).store.jobs && Run(cfg, steps).store.jobs[j].status.FulfilledVerified?
    requires var s := Run(cfg, steps); Separates(cfg, ChainOf(s, s.store.jobs[j]), s.store.jobs[j].commitment)
    requires var s := Run(cfg, steps); IntakeBuilt(cfg, ChainOf(s, s.store.jobs[j]), s.store.jobs[j].commitment)
    ensures var s := Run(cfg, steps); var job, chain := s.store.jobs[j], ChainOf(s, s.store.jobs[j]);
            exists k, finalBlock, stateBlock :: 0 <= k < |s.log| &&
              Earned(cfg, chain, job, s.log[k], finalBlock, stateBlock) &&
              CoverageOf(AuthorizationAt(chain, job.commitment, s.log[k].authBlock).value.actions).Full? &&
              CoverageOf(AuthorizationAt(chain, job.commitment, finalBlock).value.actions).Full?
  {
    hide Run, IsRun, Earned, IntakeBuilt, Separates, CoverageOf, AuthorizationAt;
    MarkedIsEarned(cfg, steps, j);
    var s := Run(cfg, steps);
    var job, chain := s.store.jobs[j], ChainOf(s, s.store.jobs[j]);
    var k, finalBlock, stateBlock :| 0 <= k < |s.log| && Earned(cfg, chain, job, s.log[k], finalBlock, stateBlock);
    EarnedWasFrozen(cfg, chain, job, s.log[k], finalBlock, stateBlock);
    UnchangedHashMeansCovered(cfg, chain, job.commitment, s.log[k].authBlock);
    UnchangedHashMeansCovered(cfg, chain, job.commitment, finalBlock);
  }

  lemma EarnedWasFrozen(cfg: Config, chain: Chain, job: Job, d: Dispatch, finalBlock: nat, stateBlock: nat)
    requires Earned(cfg, chain, job, d, finalBlock, stateBlock)
    ensures StillFrozen(cfg, chain, job.commitment, d.authBlock) && StillFrozen(cfg, chain, job.commitment, finalBlock)
  {
    hide StateSeen, Paid;
  }

  lemma PaidIsAccepted(chain: Chain, token: HexAddress, recipient: HexAddress, amount: nat, tx: TxHash, pre: nat,
                       post: nat)
    requires Paid(chain, token, recipient, amount, tx, pre, post)
    ensures Verdict(BalanceAt(chain, token, recipient, pre).value, BalanceAt(chain, token, recipient, post).value,
                    amount,
                    token, recipient, Some(chain.receipts[tx].logs)).ExactMatch?
  {
    hide TokenTransfers, MatchTransferLog, BalanceAt;
    MatchedExactlyWhen(chain.receipts[tx].logs, token, recipient, amount);
  }

  /**
   * With a hash that tells bundles apart and a token that moves exactly what it logs: a MARKED job's first selected
   * action, the same before the dispatch and at the end, was carried out by its transaction once, and everything else
   * that touched the recipient between the snapshot and the inclusion block netted to zero (to the amount, if the
   * action pays its own sender).
   */
  lemma MarkedOnTheLedger(cfg: Config, steps: seq<Step>, j: JobId, ledger: seq<seq<Movement>>)
    requires IsRun(cfg, steps)
    requires j in Run(cfg, steps).store.jobs && Run(cfg, steps).store.jobs[j].status.FulfilledVerified?
    requires var s := Run(cfg, steps); Separates(cfg, ChainOf(s, s.store.jobs[j]), s.store.jobs[j].commitment)
    requires var s := Run(cfg, steps); var job := s.store.jobs[j];
             job.receipt.Some? && job.execution.Some? ==>
               var e, chain := job.execution.value, ChainOf(s, job);
               KeepsLedger(chain, e.token, e.recipient, ledger) &&
               LogsKept(chain, e.token, ledger, job.receipt.value.executionTxHash) &&
               forall b :: 0 <= b < |ledger| ==> Exact(ledger[b])
    ensures var s := Run(cfg, steps); var job, chain := s.store.jobs[j], ChainOf(s, s.store.jobs[j]);
            exists k, finalBlock, stateBlock :: 0 <= k < |s.log| &&
              Earned(cfg, chain, job, s.log[k], finalBlock, stateBlock) &&
              CarriedOut(chain, job, s.log[k], TransferAt(chain, job.commitment, finalBlock), ledger)
  {
    hide Run, IsRun, Accounted, Earned, CarriedOut, KeepsLedger, LogsKept, Exact, Separates;
    EveryReceiptIsAccounted(cfg, steps, j);
    var s := Run(cfg, steps);
    var job, chain := s.store.jobs[j], ChainOf(s, s.store.jobs[j]);
    var k, finalBlock, stateBlock :| 0 <= k < |s.log| && Accounted(cfg, chain, job, s.log[k], finalBlock, stateBlock);
    var d := s.log[k];
    VerifiedIsEarned(cfg, chain, job, d, finalBlock, stateBlock);
    AccountedMeans(cfg, chain, job, d, finalBlock, stateBlock);
    EarnedIsCarriedOut(cfg, chain, job, d, finalBlock, stateBlock, ledger);
  }

  lemma AccountedMeans(cfg: Config, chain: Chain, job: Job, d: Dispatch, finalBlock: nat, stateBlock: nat)
    requires Accounted(cfg, chain, job, d, finalBlock, stateBlock)
    ensures job.receipt.Some? && job.execution.Some?
    ensures Pristine(job.execution.value) == Pristine(d.execution)
    ensures Captured(cfg, chain, job.commitment, d.execution, d.authBlock)
    ensures job.execution.value.token == d.execution.token && job.execution.value.recipient == d.execution.recipient
  {
    hide Captured, ClosedOn, InOrder, NamesItsJob, StateSeen;
  }

  /** One movement of the window is the action's transfer, made by the receipt's transaction; the rest nets to zero. */
  ghost predicate CarriedOut(chain: Chain, job: Job, d: Dispatch, t: Option<Transfer>, ledger: seq<seq<Movement>>) {
    && job.receipt.Some? && t.Some?
    && d.execution.preStateBlock <= job.receipt.value.executionBlock < |ledger|
    && var ms := Window(ledger, d.execution.preStateBlock, job.receipt.value.executionBlock);
       exists i ::
         && OnlyAt(MoveTest(job.receipt.value.executionTxHash, t.value.recipient, t.value.amount), ms, i)
         && Net(Without(ms, i), t.value.recipient) ==
              (if SameAddress(ms[i].from, t.value.recipient) then t.value.amount else 0)
  }

  lemma {:induction false} FlattenExact(ledger: seq<seq<Movement>>)
    requires forall b :: 0 <= b < |ledger| ==> Exact(ledger[b])
    ensures Exact(Flatten(ledger))
  {
    if ledger != [] { FlattenExact(ledger[1..]); }
  }

  lemma EarnedIsCarriedOut(cfg: Config, chain: Chain, job: Job, d: Dispatch, finalBlock: nat, stateBlock: nat,
                           ledger: seq<seq<Movement>>)
    requires Earned(cfg, chain, job, d, finalBlock, stateBlock) && Separates(cfg, chain, job.commitment)
    requires job.execution.Some? && Pristine(job.execution.value) == Pristine(d.execution)
    requires Captured(cfg, chain, job.commitment, d.execution, d.authBlock)
    requires KeepsLedger(chain, d.execution.token, d.execution.recipient, ledger)
    requires LogsKept(chain, d.execution.token, ledger, job.receipt.value.executionTxHash)
    requires forall b :: 0 <= b < |ledger| ==> Exact(ledger[b])
    ensures CarriedOut(chain, job, d, TransferAt(chain, job.commitment, finalBlock), ledger)
  {
    hide StillFrozen, StateSeen, Paid, Captured, ActionAt, TransferAt, BalanceAt, KeepsLedger, Verdict, LogsKept, Exact,
      Net, Flatten, Separates;
    var c, e, r := job.commitment, d.execution, job.receipt.value;
    CapturedMeans(cfg, chain, c, e, d.authBlock);
    SameTransferThroughout(cfg, chain, c, d.authBlock, finalBlock);
    var t := TransferAt(chain, c, finalBlock).value;
    PaidIsAccepted(chain, e.token, t.recipient, t.amount, r.executionTxHash, e.preStateBlock, r.executionBlock);
    assert r.executionBlock < |ledger| && BalanceAt(chain, e.token, t.recipient, r.executionBlock).Some? by {
      PaidReads(chain, e.token, t.recipient, t.amount, r.executionTxHash, e.preStateBlock, r.executionBlock);
      LedgerCovers(chain, e.token, ledger, r.executionTxHash);
    }
    VerdictOnChain(chain, e.token, t.recipient, t.amount, ledger, r.executionTxHash, e.preStateBlock, r.executionBlock);
    FlattenExact(ledger[e.preStateBlock + 1..r.executionBlock + 1]);
    var ms := Window(ledger, e.preStateBlock, r.executionBlock);
    var i :| OnlyAt(MoveTest(r.executionTxHash, t.recipient, t.amount), ms, i) &&
             Net(Without(ms, i), t.recipient) + Effect(ms[i], t.recipient) == t.amount;
    assert Effect(ms[i], t.recipient) == (if SameAddress(ms[i].from, t.recipient) then 0 else t.amount) by {
      ExactEffect(ms, i, r.executionTxHash, t.recipient, t.amount);
    }
  }

  lemma PaidReads(chain: Chain, token: HexAddress, recipient: HexAddress, amount: nat, tx: TxHash, pre: nat, post: nat)
    requires Paid(chain, token, recipient, amount, tx, pre, post)
    ensures BalanceAt(chain, token, recipient, post).Some?
  {
  }

  lemma LedgerCovers(chain: Chain, token: HexAddress, ledger: seq<seq<Movement>>, tx: TxHash)
    requires LogsKept(chain, token, ledger, tx)
    ensures chain.receipts[tx].block < |ledger|
  {
  }

  lemma ExactEffect(ms: seq<Movement>, i: int, tx: TxHash, recipient: HexAddress, amount: nat)
    requires Exact(ms) && OnlyAt(MoveTest(tx, recipient, amount), ms, i)
    ensures ms[i].Transferred?
    ensures Effect(ms[i], recipient) == (if SameAddress(ms[i].from, recipient) then 0 else amount)
  {
  }
}
