/**
 * The fulfilment protocol as processes over one shared store and a growing chain. A process is one call in flight;
 * every step below runs from one `await` to the next, so any interleaving and any crash is a list of steps.
 */
module Protocol {
  import opened Erc20
  import opened Governor
  import opened Jobs
  import opened JobStore
  import opened Receipts
  import opened StateMachine
  import opened Text
  import opened Wrappers

  /** The lifecycle call an approval dispatches, in the canonical form its request hash is taken over. */
  datatype Call = Call(chainId: nat, governor: string, proposalId: nat)

  /**
   * The hash functions are parameters. With `atomicCreation` a job is looked up and created in one step; without
   * it, intake is the two awaits of `ensureReviewReadyJob`. With `headReads` the reads that close an execution, of the
   * Governor's state and of the bundle, are of the newest block, the height `resolveGovernorAuthorization` asks for
   * before it pins its reads; without it, a lagging node may serve any block it has seen.
   */
  datatype Config = Config(
    authorizationHash: Authorization -> Digest,
    commitmentHash: Commitment -> Digest,
    requestHash: Call -> Digest,
    atomicCreation: bool,
    headReads: bool)

  datatype Op =
    | Intake(jobId: JobId, commitment: Commitment)
    | Arm(jobId: JobId, actor: string)
    | Disarm(jobId: JobId, actor: string, reason: Option<string>)
    | ApproveOnly(jobId: JobId, actor: string)
    | Prepare(jobId: JobId)
    | Approve(jobId: JobId, actor: string)
    | Reconcile(jobId: JobId)

  /** What a call goes on to do once its compare-and-set has won. */
  datatype Then =
    | Finish
    | ClaimAndDispatch(authBlock: nat, actor: string)
    | Resume
    | Continue

  /** Where a call stands: the await it is suspended on and the locals it holds across it. */
  datatype Proc =
    | Start(op: Op)
    | IntakeSave(job: Job)
    | ArmAuthorization(base: Job, actor: string)
    | PrepareEligibility(base: Job)
    | PrepareAuthorization(base: Job, trail: seq<Status>)
    | PrepareBlock(base: Job, trail: seq<Status>, action: Action)
    | PrepareSnapshot(base: Job, trail: seq<Status>, action: Action, preBlock: nat)
    | PrepareSimulate(base: Job, trail: seq<Status>, execution: ExecutionState)
    | ApproveEligibility(base: Job, actor: string)
    | ApproveAuthorization(base: Job, actor: string)
    | ApproveSimulate(base: Job, actor: string, actions: seq<Action>, authBlock: nat)
    | ApproveBlock(base: Job, actor: string, action: Action, authBlock: nat)
    | ApproveSnapshot(base: Job, actor: string, action: Action, authBlock: nat, preBlock: nat)
    | Casing(base: Job, next: Job, events: seq<Event>, trail: seq<Status>, andThen: Then)
    | Claiming(base: Job, actor: string, authBlock: nat)
    | Saving(base: Job, authBlock: nat)
    | Issuing(base: Job, authBlock: nat)
    | Awaiting(base: Job, index: nat)
    | ReconcileReceipt(base: Job)
    | ReconcileFinality(base: Job, attempt: nat)
    | ReconcileGovernor(base: Job, attempt: nat)
    | FinalAuthorization(base: Job)
    | FinalVerify(base: Job, actions: seq<Action>, authBlock: nat)

  /** What KeeperHub has said about a dispatched call so far. */
  datatype Answer = Silent | Threw | Answered(txHash: Option<TxHash>)

  /** One `executeContractCall`, with what was known when it was issued. */
  datatype Dispatch = Dispatch(
    jobId: JobId,
    call: Call,
    request: Digest,
    execution: ExecutionState,
    authBlock: nat,
    minedBlocks: nat,
    answer: Answer)

  /**
   * The last four fields are history: every dispatch ever issued, which call holds each claim, which call moved each
   * job to EXECUTING, and where each job's dispatch stands in the log.
   */
  datatype State = State(
    store: Store,
    chains: map<nat, Chain>,
    procs: map<nat, Proc>,
    nextPid: nat,
    log: seq<Dispatch>,
    claimant: map<Digest, nat>,
    owner: map<JobId, nat>,
    issued: map<JobId, nat>)

  const INIT := State(EMPTY, map[], map[], 0, [], map[], map[], map[])

  /** What a KeeperHub simulation, its configuration and the caller check come to. */
  datatype Simulation = PolicyRefused | RevertPredicted | CallerIncompatible | Compatible

  /** Everything the environment decides about one step. */
  datatype Observation = Observation(
    now: Timestamp, fails: bool, block: nat, recordBlock: nat, clockBlock: nat, simulation: Simulation, answer: Answer)

  datatype Step =
    | Spawn(op: Op)
    | Crash(pid: nat)
    | Mine(chainId: nat, block: Block, receipts: map<TxHash, TxReceipt>)
    | Advance(pid: nat, seen: Observation)

  function ChainFor(chains: map<nat, Chain>, chainId: nat): Chain {
    if chainId in chains then chains[chainId] else Chain([], map[])
  }

  function ChainOf(s: State, job: Job): Chain {
    ChainFor(s.chains, job.commitment.chainId)
  }

  function CallOf(c: Commitment): Call {
    Call(c.chainId, ToLower(c.governor), DecimalValue(c.proposalId))
  }

  // ------------------------------------------------------------------ steps that only read the chain

  datatype Outcome = Stop | Go(proc: Proc)

  /** One more hop of a local `status` variable; absent where `transition` throws. */
  function Hop(trail: seq<Status>, to: Status, mode: Option<Mode>): Option<seq<Status>>
    requires |trail| > 0
  {
    if IsLegalTransition(trail[|trail| - 1], to, mode) then Some(trail + [to]) else None
  }

  /** The single durable write a prepare run ends in. */
  function FinishPrepare(base: Job, trail: seq<Status>, to: Status, mode: Option<Mode>,
                         execution: Option<ExecutionState>, now: Timestamp)
    : Outcome
    requires |trail| > 0
  {
    match Hop(trail, to, mode)
    case None => Stop
    case Some(t) =>
      Go(Casing(base, base.(status := to, updatedAt := now, execution := execution), [], t, Finish))
  }

  function Eligible(chain: Chain, c: Commitment, o: Observation): Option<(Eligibility, nat, bool)> {
    var state := ViewAt(chain, KeyOf(c), o.block);
    var record := ViewAt(chain, KeyOf(c), o.recordBlock);
    if o.fails || state.None? || record.None? || o.clockBlock >= |chain.blocks| then None
    else
      match EligibilityOf(state.value.state, record.value, chain.blocks[o.clockBlock].timestamp)
      case None => None
      case Some(e) => Some((e, state.value.state, record.value.executed))
  }

  function CasMove(base: Job, r: Result<Move, JobError>, andThen: Then): Outcome {
    match r
    case Err(_) => Stop
    case Ok(m) => Go(Casing(base, m.job, [m.event], [base.status, m.job.status], andThen))
  }

  function PrepareEligibilityStep(chain: Chain, base: Job, o: Observation): Outcome {
    var waiting := [Armed, WaitingEligibility];
    match Eligible(chain, base.commitment, o)
    case None => Stop
    case Some((TimelockPending, _, _)) => FinishPrepare(base, waiting, RefusalTimelockPending, None, None, o.now)
    case Some((Canceled, _, _)) => FinishPrepare(base, waiting, RefusalCanceled, None, None, o.now)
    case Some((NotExecutable, _, _)) => FinishPrepare(base, waiting, RefusalNotExecutable, None, None, o.now)
    case Some((AlreadyExecuted, _, _)) =>
      FinishPrepare(base, waiting + [Status.Eligible, VerifyingLifecycle], FulfilledExternallyUnverified, None, None,
                    o.now)
    case Some((EligibleToExecute, _, _)) =>
      Go(PrepareAuthorization(base, waiting + [Status.Eligible, VerifyingLifecycle, VerifyingAuthorization]))
  }

  function PrepareAuthorizationStep(cfg: Config, chain: Chain, base: Job, trail: seq<Status>, o: Observation): Outcome
    requires |trail| > 0
  {
    match AuthorizationAt(chain, base.commitment, o.block)
    case None => Stop
    case Some(auth) =>
      if o.fails then Stop
      else if cfg.authorizationHash(auth) != base.commitment.frozenAuthorization then
        FinishPrepare(base, trail, RefusalPayloadMismatch, None, None, o.now)
      else
        match FirstSelected(base.commitment, auth.actions)
        case None => FinishPrepare(base, trail, RefusalWorkflowPolicyViolation, None, None, o.now)
        case Some(action) =>
          match Hop(trail, CapturingPrestate, None)
          case None => Stop
          case Some(t) => Go(PrepareBlock(base, t, action))
  }

  /** `actions[selectedActionIndexes[0]]`, if both exist. */
  function FirstSelected(c: Commitment, actions: seq<Action>): Option<Action> {
    if |c.selectedActionIndexes| > 0 && c.selectedActionIndexes[0] < |actions|
    then Some(actions[c.selectedActionIndexes[0]]) else None
  }

  function PrepareBlockStep(chain: Chain, base: Job, trail: seq<Status>, action: Action, o: Observation): Outcome
    requires |trail| > 0
  {
    if o.fails || o.block >= |chain.blocks| then Stop
    else if TryDecodeTransfer(action.signature, action.calldata).None? then
      FinishPrepare(base, trail, PostconditionUnsupported, None, None, o.now)
    else Go(PrepareSnapshot(base, trail, action, o.block))
  }

  /** The pre-state snapshot of an action's recipient, pinned to one block. */
  function Snapshot(chain: Chain, action: Action, preBlock: nat): Option<ExecutionState> {
    match TryDecodeTransfer(action.signature, action.calldata)
    case None => None
    case Some(t) =>
      match BalanceAt(chain, action.target, t.recipient, preBlock)
      case None => None
      case Some(balance) =>
        Some(ExecutionState(preBlock, balance, action.target, t.recipient, t.amount, None, None, None, None, None))
  }

  function PrepareSnapshotStep(chain: Chain, base: Job, trail: seq<Status>, action: Action, preBlock: nat,
                               o: Observation): Outcome
    requires |trail| > 0
  {
    match Snapshot(chain, action, preBlock)
    case None => Stop
    case Some(e) =>
      if o.fails then Stop
      else
        match Hop(trail, Simulating, None)
        case None => Stop
        case Some(t) => Go(PrepareSimulate(base, t, e))
  }

  function PrepareSimulateStep(base: Job, trail: seq<Status>, e: ExecutionState, o: Observation): Outcome
    requires |trail| > 0
  {
    if o.fails then Stop
    else
      match o.simulation
      case PolicyRefused => FinishPrepare(base, trail, RefusalWorkflowPolicyViolation, None, Some(e), o.now)
      case RevertPredicted => FinishPrepare(base, trail, RefusalSimulationRevert, None, Some(e), o.now)
      case CallerIncompatible => FinishPrepare(base, trail, BlockedCallerNotAuthorized, None, Some(e), o.now)
      case Compatible => FinishPrepare(base, trail, AwaitingApproval, Some(base.commitment.mode), Some(e), o.now)
  }

  function ApproveAuthorizationStep(cfg: Config, chain: Chain, base: Job, actor: string, o: Observation): Outcome {
    match AuthorizationAt(chain, base.commitment, o.block)
    case None => Stop
    case Some(auth) =>
      if o.fails || cfg.authorizationHash(auth) != base.commitment.frozenAuthorization then Stop
      else Go(ApproveSimulate(base, actor, auth.actions, o.block))
  }

  function ApproveSimulateStep(base: Job, actor: string, actions: seq<Action>, authBlock: nat,
                               o: Observation): Outcome {
    if o.fails || !o.simulation.Compatible? then Stop
    else
      match FirstSelected(base.commitment, actions)
      case None => Stop
      case Some(action) => Go(ApproveBlock(base, actor, action, authBlock))
  }

  function ApproveSnapshotStep(
    chain: Chain, base: Job, actor: string, action: Action, authBlock: nat, preBlock: nat, o: Observation): Outcome
  {
    match Snapshot(chain, action, preBlock)
    case None => Stop
    case Some(e) =>
      if o.fails then Stop
      else
        match ApproveJob(base, base.commitmentHash, actor, o.now)
        case Err(_) => Stop
        case Ok(m) =>
          Go(Casing(base, m.job.(execution := Some(e)), [m.event], [base.status, m.job.status],
                    ClaimAndDispatch(authBlock, actor)))
  }

  /** Where `continueReconciliation` goes from a job's durable status. */
  function NextPhase(job: Job, now: Timestamp): Outcome {
    if job.execution.None? then Stop
    else
      var e := job.execution.value;
      if job.status.Executing? || job.status.UnknownReconciling? then
        Go(Casing(job, job.(status := Reconciling, updatedAt := now), [], [job.status, Reconciling], Continue))
      else if job.status.Reconciling? then
        (if e.transactionHash.None? then Stop else Go(ReconcileReceipt(job)))
      else if job.status.WaitingFinality? then
        // `!inclusionBlock` holds of block zero too.
        (if e.inclusionBlock.None? || e.inclusionBlock.value == 0 then Stop else Go(ReconcileFinality(job, 0)))
      else if job.status.VerifyingGovernorState? then Go(ReconcileGovernor(job, 0))
      else if job.status.VerifyingPostcondition? then
        (if e.transactionHash.None? || e.inclusionBlock.None? || e.governorFinalState.None? then Stop
         else Go(FinalAuthorization(job)))
      else Stop
  }

  function ReconcileStart(job: Job, now: Timestamp): Outcome {
    if job.execution.None? then Stop
    else if job.status.Executing? && job.execution.value.requestHash.None? then Stop
    else if (job.status.Executing? || job.status.UnknownReconciling?) &&
            job.execution.value.transactionHash.None? then Stop
    else NextPhase(job, now)
  }

  function Updated(base: Job, to: Status, e: ExecutionState, now: Timestamp): Job {
    base.(status := to, updatedAt := now, execution := Some(e))
  }

  function ReconcileReceiptStep(chain: Chain, base: Job, o: Observation): Outcome {
    if base.execution.None? || base.execution.value.transactionHash.None? || o.fails then Stop
    else
      var t := base.execution.value.transactionHash.value;
      if t !in chain.receipts then Stop
      else
        var e := base.execution.value.(inclusionBlock := Some(chain.receipts[t].block));
        Go(Casing(base, Updated(base, WaitingFinality, e, o.now), [], [base.status, WaitingFinality], Continue))
  }

  const FINALITY_CONFIRMATIONS := 2
  const MAX_FINALITY_POLL_ATTEMPTS := 10
  const GOVERNOR_STATE_RECHECK_ATTEMPTS := 3
  const GOVERNOR_EXECUTED := 7

  function ReconcileFinalityStep(chain: Chain, base: Job, attempt: nat, o: Observation): Outcome {
    if base.execution.None? || base.execution.value.inclusionBlock.None? ||
       o.fails || o.block >= |chain.blocks| then Stop
    else if o.block >= base.execution.value.inclusionBlock.value + FINALITY_CONFIRMATIONS then
      var e := base.execution.value.(finalityBlock := Some(o.block));
      Go(Casing(base, Updated(base, VerifyingGovernorState, e, o.now), [], [base.status, VerifyingGovernorState],
                Continue))
    else if attempt + 1 < MAX_FINALITY_POLL_ATTEMPTS then Go(ReconcileFinality(base, attempt + 1))
    else Stop
  }

  function ReconcileGovernorStep(chain: Chain, base: Job, attempt: nat, o: Observation): Outcome {
    match Eligible(chain, base.commitment, o)
    case None => Stop
    case Some((_, state, executed)) =>
      if base.execution.None? then Stop
      else if !executed && attempt < GOVERNOR_STATE_RECHECK_ATTEMPTS - 1 then Go(ReconcileGovernor(base, attempt + 1))
      else
        var e := base.execution.value.(governorFinalState := Some(state));
        Go(Casing(base, Updated(base, VerifyingPostcondition, e, o.now), [], [base.status, VerifyingPostcondition],
                  Continue))
  }

  /** The reconciliation legs of one finished execution, hard-coded ones included. */
  function Legs(c: Commitment, finalHash: Digest, governorFinalState: nat, verified: bool): ReconciliationInput
    requires |c.selectedActionIndexes| > 0
  {
    ReconciliationInput(
      c.frozenAuthorization, c.frozenAuthorization, finalHash, c.selectedActionIndexes[0],
      if |c.bindings| > 0 then c.bindings[0].actionIndex else c.selectedActionIndexes[0],
      governorFinalState, GOVERNOR_EXECUTED, Full, verified)
  }

  function FinalReceipt(base: Job, finalHash: Digest, verified: bool, now: Timestamp): Receipt
    requires base.execution.Some? && |base.commitment.selectedActionIndexes| > 0
    requires base.execution.value.transactionHash.Some? && base.execution.value.inclusionBlock.Some?
    requires base.execution.value.governorFinalState.Some?
  {
    var c, e := base.commitment, base.execution.value;
    var legs := Legs(c, finalHash, e.governorFinalState.value, verified);
    Receipt(
      1, base.commitmentHash, c.frozenAuthorization, finalHash, c.chainId, c.governor, c.governorFamily, c.proposalId,
      c.selectedActionIndexes[0], e.transactionHash.value, e.inclusionBlock.value,
      if e.finalityBlock.Some? then e.finalityBlock.value else e.inclusionBlock.value,
      e.governorFinalState.value, Full, verified, if ReconcileForReceipt(legs).None? then Verified else Unverified, now)
  }

  /** Whether the adapter accepts, for the action the final read of the bundle names; absent where a read throws. */
  function FinalVerdict(chain: Chain, base: Job, actions: seq<Action>): Option<bool>
    requires base.execution.Some?
  {
    var e := base.execution.value;
    match FirstSelected(base.commitment, actions)
    case None => None
    case Some(action) =>
      match TryDecodeTransfer(action.signature, action.calldata)
      case None => None
      case Some(t) =>
        if e.transactionHash.None? || e.inclusionBlock.None? || e.transactionHash.value !in chain.receipts then None
        else
          match BalanceAt(chain, e.token, e.recipient, e.inclusionBlock.value)
          case None => None
          case Some(after) =>
            var logs := chain.receipts[e.transactionHash.value].logs;
            Some(Verdict(e.balanceBefore, after, t.amount, e.token, e.recipient, Some(logs)).ExactMatch?)
  }

  function FinalVerifyStep(cfg: Config, chain: Chain, base: Job, actions: seq<Action>, o: Observation): Outcome {
    if o.fails || base.execution.None? || base.execution.value.governorFinalState.None? then Stop
    else
      match FinalVerdict(chain, base, actions)
      case None => Stop
      case Some(verified) =>
        var finalHash := cfg.authorizationHash(AuthorizationOf(base.commitment, actions));
        var r := FinalReceipt(base, finalHash, verified, o.now);
        var to := if r.status.Verified? then FulfilledVerified else FulfilledUnverified;
        Go(Casing(base, base.(status := to, updatedAt := o.now, receipt := Some(r)), [], [base.status, to], Finish))
  }

  /** A step that reads the chain or KeeperHub and touches nothing shared. */
  function Local(cfg: Config, chain: Chain, p: Proc, o: Observation): Outcome {
    match p
    case ArmAuthorization(base, actor) =>
      (match AuthorizationAt(chain, base.commitment, o.block)
       case None => Stop
       case Some(auth) =>
         if o.fails then Stop
         else
           CasMove(base, ArmJob(base, base.commitment, cfg.commitmentHash(base.commitment), cfg.authorizationHash(auth),
                                Full, actor, o.now), Finish))
    case PrepareEligibility(base) => PrepareEligibilityStep(chain, base, o)
    case PrepareAuthorization(base, trail) =>
      if trail == [] then Stop else PrepareAuthorizationStep(cfg, chain, base, trail, o)
    case PrepareBlock(base, trail, action) =>
      if trail == [] then Stop else PrepareBlockStep(chain, base, trail, action, o)
    case PrepareSnapshot(base, trail, action, preBlock) =>
      if trail == [] then Stop else PrepareSnapshotStep(chain, base, trail, action, preBlock, o)
    case PrepareSimulate(base, trail, e) => if trail == [] then Stop else PrepareSimulateStep(base, trail, e, o)
    case ApproveEligibility(base, actor) =>
      (match Eligible(chain, base.commitment, o)
       case Some((EligibleToExecute, _, _)) => Go(ApproveAuthorization(base, actor))
       case _ => Stop)
    case ApproveAuthorization(base, actor) => ApproveAuthorizationStep(cfg, chain, base, actor, o)
    case ApproveSimulate(base, actor, actions, authBlock) => ApproveSimulateStep(base, actor, actions, authBlock, o)
    case ApproveBlock(base, actor, action, authBlock) =>
      if o.fails || o.block >= |chain.blocks| then Stop
      else Go(ApproveSnapshot(base, actor, action, authBlock, o.block))
    case ApproveSnapshot(base, actor, action, authBlock, preBlock) =>
      ApproveSnapshotStep(chain, base, actor, action, authBlock, preBlock, o)
    case ReconcileReceipt(base) => ReconcileReceiptStep(chain, base, o)
    case ReconcileFinality(base, attempt) => ReconcileFinalityStep(chain, base, attempt, o)
    case ReconcileGovernor(base, attempt) => ReconcileGovernorStep(chain, base, attempt, o)
    case FinalAuthorization(base) =>
      (match AuthorizationAt(chain, base.commitment, o.block)
       case None => Stop
       case Some(auth) => if o.fails then Stop else Go(FinalVerify(base, auth.actions, o.block)))
    case FinalVerify(base, actions, _) => FinalVerifyStep(cfg, chain, base, actions, o)
    case _ => Stop
  }

  // ------------------------------------------------------------------ steps that touch the store

  function Set(s: State, pid: nat, next: Outcome): State {
    match next
    case Stop => s.(procs := s.procs - {pid})
    case Go(p) => s.(procs := s.procs[pid := p])
  }

  /** What each operation does with the job it has just read; most reads are followed by more reads. */
  function AfterRead(op: Op, base: Job, now: Timestamp): Outcome {
    match op
    case Intake(_, _) => Stop
    case Arm(_, actor) => Go(ArmAuthorization(base, actor))
    case Disarm(_, actor, reason) => CasMove(base, DisarmJob(base, actor, reason, now), Finish)
    case ApproveOnly(_, actor) => CasMove(base, ApproveJob(base, base.commitmentHash, actor, now), Finish)
    case Prepare(_) => if base.status.Armed? then Go(PrepareEligibility(base)) else Stop
    case Approve(_, actor) => if base.status.AwaitingApproval? then Go(ApproveEligibility(base, actor)) else Stop
    case Reconcile(_) => ReconcileStart(base, now)
  }

  function Read(cfg: Config, s: State, pid: nat, op: Op, now: Timestamp): State {
    if op.jobId in s.store.jobs then Set(s, pid, AfterRead(op, s.store.jobs[op.jobId], now))
    else if !op.Intake? then Set(s, pid, Stop)
    else
      var job := CreateReviewReadyJob(op.jobId, op.commitment, cfg.commitmentHash(op.commitment), now);
      if cfg.atomicCreation then Set(s.(store := Save(s.store, job)), pid, Stop) else Set(s, pid, Go(IntakeSave(job)))
  }

  function AfterCas(next: Job, andThen: Then, now: Timestamp): Outcome {
    match andThen
    case Finish => Stop
    case ClaimAndDispatch(authBlock, actor) => Go(Claiming(next, actor, authBlock))
    case Resume => Go(Start(Reconcile(next.jobId)))
    case Continue => NextPhase(next, now)
  }

  function Cas(s: State, pid: nat, p: Proc, now: Timestamp): State
    requires p.Casing?
  {
    var (store, result) := SaveWithCas(s.store, p.next, p.events, Some(p.base.status));
    if result.Conflict? then Set(s, pid, Stop)
    else
      Set(s.(store := store, owner := if p.next.status.Executing? then s.owner[p.next.jobId := pid] else s.owner),
          pid, AfterCas(p.next, p.andThen, now))
  }

  function ClaimStep(cfg: Config, s: State, pid: nat, p: Proc): State
    requires p.Claiming?
  {
    var request := cfg.requestHash(CallOf(p.base.commitment));
    var (store, result) := TryClaim(s.store, request, p.base.jobId, p.actor);
    if result.Claimed? then
      Set(s.(store := store, claimant := s.claimant[request := pid]), pid, Go(Saving(p.base, p.authBlock)))
    else Set(s, pid, Go(Start(Reconcile(p.base.jobId))))
  }

  /** The one unconditional write: the EXECUTING job with its request hash. */
  function SaveStep(cfg: Config, s: State, pid: nat, p: Proc): State
    requires p.Saving?
  {
    if p.base.execution.None? then Set(s, pid, Stop)
    else
      var e := p.base.execution.value.(requestHash := Some(cfg.requestHash(CallOf(p.base.commitment))));
      var mine := p.base.(execution := Some(e));
      Set(s.(store := Save(s.store, mine)), pid, Go(Issuing(mine, p.authBlock)))
  }

  function IssueStep(cfg: Config, s: State, pid: nat, p: Proc): State
    requires p.Issuing?
  {
    if p.base.execution.None? then Set(s, pid, Stop)
    else
      var call := CallOf(p.base.commitment);
      var d := Dispatch(p.base.jobId, call, cfg.requestHash(call), p.base.execution.value, p.authBlock,
                        |ChainOf(s, p.base).blocks|, Silent);
      Set(s.(log := s.log + [d], issued := s.issued[p.base.jobId := |s.log|]), pid, Go(Awaiting(p.base, |s.log|)))
  }

  function AnswerStep(s: State, pid: nat, p: Proc, answer: Answer, now: Timestamp): State
    requires p.Awaiting?
  {
    if p.index >= |s.log| || p.base.execution.None? then Set(s, pid, Stop)
    else
      var s' := s.(log := s.log[p.index := s.log[p.index].(answer := answer)]);
      match answer
      case Silent => s
      case Threw =>
        Set(s', pid, Go(Casing(p.base, p.base.(status := UnknownReconciling, updatedAt := now), [],
                               [p.base.status, UnknownReconciling], Finish)))
      case Answered(txHash) =>
        var e := p.base.execution.value.(transactionHash := txHash);
        Set(s', pid, Go(Casing(p.base, Updated(p.base, Reconciling, e, now), [], [p.base.status, Reconciling], Resume)))
  }

  function AdvanceProc(cfg: Config, s: State, pid: nat, o: Observation): State
    requires pid in s.procs
  {
    var p := s.procs[pid];
    match p
    case Start(op) => Read(cfg, s, pid, op, o.now)
    case IntakeSave(job) => Set(s.(store := Save(s.store, job)), pid, Stop)
    case Casing(_, _, _, _, _) => Cas(s, pid, p, o.now)
    case Claiming(_, _, _) => ClaimStep(cfg, s, pid, p)
    case Saving(_, _) => SaveStep(cfg, s, pid, p)
    case Issuing(_, _) => IssueStep(cfg, s, pid, p)
    case Awaiting(_, _) => AnswerStep(s, pid, p, o.answer, o.now)
    case _ => Set(s, pid, Local(cfg, ChainOf(s, p.base), p, o))
  }

  function MineBlock(c: Chain, block: Block, receipts: map<TxHash, TxReceipt>): Chain {
    Chain(c.blocks + [block], c.receipts + receipts)
  }

  function Do(cfg: Config, s: State, step: Step): State {
    match step
    case Spawn(op) => s.(procs := s.procs[s.nextPid := Start(op)], nextPid := s.nextPid + 1)
    case Crash(pid) => s.(procs := s.procs - {pid})
    case Mine(id, block, receipts) => s.(chains := s.chains[id := MineBlock(ChainFor(s.chains, id), block, receipts)])
    case Advance(pid, o) => if pid in s.procs then AdvanceProc(cfg, s, pid, o) else s
  }

  /** The transaction KeeperHub names is in no block mined before the dispatch it answers. */
  ghost predicate AnswerIsNew(s: State, p: Proc, answer: Answer) {
    p.Awaiting? && p.index < |s.log| && answer.Answered? && answer.txHash.Some? ==>
      var t, c := answer.txHash.value, ChainOf(s, p.base);
      t in c.receipts ==> c.receipts[t].block >= s.log[p.index].minedBlocks
  }

  /** A closing read is of the newest block, where the configuration says so. */
  predicate ClosingRead(cfg: Config, chain: Chain, p: Proc, o: Observation) {
    cfg.headReads && (p.ReconcileGovernor? || p.FinalAuthorization?) ==> o.block + 1 >= |chain.blocks|
  }

  /**
   * What the environment promises: a new block's receipts are new and belong to it, a transaction hash KeeperHub gives
   * for a dispatch is not found in a block mined before that dispatch, and closing reads are as the configuration says.
   */
  ghost predicate Fair(cfg: Config, s: State, step: Step) {
    match step
    case Mine(id, _, receipts) =>
      var c := ChainFor(s.chains, id);
      forall t :: t in receipts ==> t !in c.receipts && receipts[t].block == |c.blocks|
    case Advance(pid, o) =>
      pid in s.procs ==>
        && AnswerIsNew(s, s.procs[pid], o.answer)
        && (!s.procs[pid].Start? && !s.procs[pid].IntakeSave? ==>
              ClosingRead(cfg, ChainOf(s, s.procs[pid].base), s.procs[pid], o))
    case _ => true
  }

  /** The state after a list of steps. */
  function Run(cfg: Config, steps: seq<Step>): State {
    if steps == [] then INIT else Do(cfg, Run(cfg, steps[..|steps| - 1]), steps[|steps| - 1])
  }

  /** A list of steps whose every step the environment may take. */
  ghost predicate IsRun(cfg: Config, steps: seq<Step>) {
    steps != [] ==>
      var front := steps[..|steps| - 1];
      IsRun(cfg, front) && Fair(cfg, Run(cfg, front), steps[|steps| - 1])
  }
}
