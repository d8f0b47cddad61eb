/** What every reachable state satisfies as long as no intake writes over a job created since it looked. */
module Invariant {
  import opened Governor
  import opened Grounds
  import opened Jobs
  import opened JobStore
  import opened Protocol
  import opened StateMachine
  import opened Wrappers

  /** Durable statuses climb this ladder; everything off the route to a receipt is at the top. */
  function Rank(st: Status): nat {
    if st.ReviewReady? then 0
    else if st.Armed? then 1
    else if st.AwaitingApproval? then 2
    else if st.Executing? then 3
    else if st.Reconciling? then 4
    else if st.WaitingFinality? then 5
    else if st.VerifyingGovernorState? then 6
    else if st.VerifyingPostcondition? then 7
    else 8
  }

  /** The refusals a prepare run can write. */
  predicate PrepareRefusal(st: Status) {
    st.RefusalTimelockPending? || st.RefusalCanceled? || st.RefusalNotExecutable? || st.RefusalPayloadMismatch? ||
    st.RefusalSimulationRevert? || st.RefusalWorkflowPolicyViolation? || st.BlockedCallerNotAuthorized? ||
    st.FulfilledExternallyUnverified?
  }

  /** Everything a prepare run can write. */
  predicate Prepared(st: Status) {
    PrepareRefusal(st) || st.AwaitingApproval?
  }

  predicate Terminal(st: Status) {
    st.FulfilledVerified? || st.FulfilledUnverified?
  }

  /** From the durable record of a transaction on. */
  predicate PastDispatch(st: Status) {
    st.Reconciling? || st.WaitingFinality? || st.VerifyingGovernorState? || st.VerifyingPostcondition? || Terminal(st)
  }

  predicate PastApproval(st: Status) {
    st.Executing? || st.UnknownReconciling? || PastDispatch(st)
  }

  /** The only statuses ever stored. */
  predicate Durable(st: Status) {
    st.ReviewReady? || st.Armed? || st.AwaitingApproval? || st.DisarmedByUser? || PrepareRefusal(st) || PastApproval(st)
  }

  // ------------------------------------------------------------------ one job

  predicate IsArm(job: Job, e: Event) {
    e.kind.ArmedEvent? && e.previousState.ReviewReady? && e.nextState.Armed? && e.commitmentHash == job.commitmentHash
  }

  predicate IsDisarm(job: Job, e: Event) {
    e.kind.DisarmedEvent? && (e.previousState.Armed? || e.previousState.AwaitingApproval?) &&
    e.nextState.DisarmedByUser? &&
    e.commitmentHash == job.commitmentHash
  }

  predicate IsApproval(job: Job, e: Event) {
    e.kind.ApprovedEvent? && e.previousState.AwaitingApproval? && e.nextState.Executing? &&
    e.commitmentHash == job.commitmentHash
  }

  /** The audit trail is determined by the status: empty, ARMED, ARMED·DISARMED or ARMED·APPROVED. */
  predicate LogShape(job: Job, events: seq<Event>) {
    if job.status.ReviewReady? then events == []
    else if job.status.DisarmedByUser? then |events| == 2 && IsArm(job, events[0]) && IsDisarm(job, events[1])
    else if PastApproval(job.status) then |events| == 2 && IsArm(job, events[0]) && IsApproval(job, events[1])
    else |events| == 1 && IsArm(job, events[0])
  }

  /** The part of an execution record that the pre-state snapshot fixed. */
  function Pristine(e: ExecutionState): ExecutionState {
    ExecutionState(e.preStateBlock, e.balanceBefore, e.token, e.recipient, e.authorizedAmount, None, None, None,
                   None, None)
  }

  /** Which observations a job of each status carries. */
  predicate RecordShape(job: Job) {
    && (!Terminal(job.status) ==> job.receipt.None?)
    && (job.status.ReviewReady? ==> job.updatedAt == job.createdAt)
    && (job.status.ReviewReady? || job.status.Armed? ==> job.execution.None?)
    && (job.status.AwaitingApproval? || PastApproval(job.status) ==> job.execution.Some?)
    && (job.status.AwaitingApproval? ==> job.execution.value == Pristine(job.execution.value))
    && (job.status.Executing? || job.status.UnknownReconciling? ==>
          job.execution.value.(requestHash := None) == Pristine(job.execution.value))
    && (PastDispatch(job.status) && !job.status.Reconciling? ==>
          job.execution.value.transactionHash.Some? && job.execution.value.inclusionBlock.Some?)
    && (job.status.VerifyingGovernorState? || job.status.VerifyingPostcondition? || Terminal(job.status) ==>
          job.execution.value.finalityBlock.Some?)
    && (job.status.VerifyingPostcondition? || Terminal(job.status) ==> job.execution.value.governorFinalState.Some?)
    && (Terminal(job.status) ==>
          job.receipt.Some? && |job.commitment.selectedActionIndexes| > 0 &&
          (job.status.FulfilledVerified? <==> job.receipt.value.status.Verified?))
  }

  /** A dispatch in the log against the job it was issued for. */
  ghost predicate DispatchOk(cfg: Config, chain: Chain, job: Job, d: Dispatch) {
    && d.jobId == job.jobId
    && d.call == CallOf(job.commitment) && d.execution.requestHash == Some(d.request)
    && PastApproval(job.status)
    && Captured(cfg, chain, job.commitment, d.execution, d.authBlock)
    && d.authBlock < d.minedBlocks && d.execution.preStateBlock < d.minedBlocks <= |chain.blocks|
    && (d.answer.Answered? && d.answer.txHash.Some? && d.answer.txHash.value in chain.receipts ==>
          chain.receipts[d.answer.txHash.value].block >= d.minedBlocks)
  }

  /** The job's record continues the dispatch the log holds for it: same snapshot, the transaction it was answered. */
  ghost predicate Bound(log: seq<Dispatch>, issued: map<JobId, nat>, job: Job) {
    && job.execution.Some?
    && job.jobId in issued && issued[job.jobId] < |log|
    && var d := log[issued[job.jobId]];
       d.jobId == job.jobId && Pristine(job.execution.value) == Pristine(d.execution) &&
       job.execution.value.requestHash == d.execution.requestHash &&
       d.answer == Answered(job.execution.value.transactionHash)
  }

  /** `state()` was really read as `state`, at block `b`. */
  ghost predicate StateSeen(chain: Chain, c: Commitment, b: nat, state: nat) {
    ViewAt(chain, KeyOf(c), b).Some? && ViewAt(chain, KeyOf(c), b).value.state == state
  }

  /** The block a job recorded as its finality block was there when it was read. */
  predicate FinalityMined(chain: Chain, job: Job) {
    && job.execution.Some? && job.execution.value.finalityBlock.Some?
    && job.execution.value.finalityBlock.value < |chain.blocks|
  }

  /** A block read to close an execution is not older than its finality block, where closing reads are of the head. */
  predicate AtEnd(cfg: Config, job: Job, b: nat) {
    cfg.headReads ==>
      job.execution.Some? && job.execution.value.finalityBlock.Some? && job.execution.value.finalityBlock.value <= b
  }

  /** The Governor's state in the job's record was read at block `b`. */
  ghost predicate GovernorRead(cfg: Config, chain: Chain, job: Job, b: nat) {
    && job.execution.Some? && job.execution.value.governorFinalState.Some?
    && StateSeen(chain, job.commitment, b, job.execution.value.governorFinalState.value)
    && AtEnd(cfg, job, b)
  }

  /** The receipt is the one the bundle of block `b` and the adapter's verdict on it produce. */
  ghost predicate Judged(cfg: Config, chain: Chain, job: Job, b: nat) {
    && job.execution.Some? && job.receipt.Some? && |job.commitment.selectedActionIndexes| > 0
    && job.execution.value.transactionHash.Some? && job.execution.value.inclusionBlock.Some?
    && job.execution.value.governorFinalState.Some? && AtEnd(cfg, job, b)
    && var auth, r := AuthorizationAt(chain, job.commitment, b), job.receipt.value;
       && auth.Some?
       && FinalVerdict(chain, job, auth.value.actions) == Some(r.requiredAssertionsVerified)
       && r == FinalReceipt(job, cfg.authorizationHash(auth.value), r.requiredAssertionsVerified, job.updatedAt)
  }

  /** What the chain says about the transaction a job is bound to, as far as the job has followed it. */
  ghost predicate ChainFacts(cfg: Config, chain: Chain, job: Job)
    requires RecordShape(job)
  {
    && (PastDispatch(job.status) && !job.status.Reconciling? ==>
          var t, b := job.execution.value.transactionHash.value, job.execution.value.inclusionBlock.value;
          t in chain.receipts && chain.receipts[t].block == b)
    && (job.status.VerifyingGovernorState? || job.status.VerifyingPostcondition? || Terminal(job.status) ==>
          FinalityMined(chain, job) &&
          job.execution.value.inclusionBlock.value + FINALITY_CONFIRMATIONS <= job.execution.value.finalityBlock.value)
    && (job.status.VerifyingPostcondition? || Terminal(job.status) ==> exists b :: GovernorRead(cfg, chain, job, b))
    && (Terminal(job.status) ==> exists b :: Judged(cfg, chain, job, b))
    && (Prepared(job.status) ==> Grounded(cfg, chain, job.commitment, job.status, job.execution))
  }

  /** What a job's document says of itself, of its own dispatch and of the chain. */
  ghost predicate RecordOk(cfg: Config, chain: Chain, log: seq<Dispatch>, issued: map<JobId, nat>, job: Job) {
    && job.commitmentHash == cfg.commitmentHash(job.commitment)
    && Durable(job.status)
    && RecordShape(job)
    && (PastDispatch(job.status) ==> Bound(log, issued, job))
    && ChainFacts(cfg, chain, job)
  }

  ghost predicate JobOk(cfg: Config, chain: Chain, log: seq<Dispatch>, issued: map<JobId, nat>, job: Job,
                        events: seq<Event>) {
    RecordOk(cfg, chain, log, issued, job) && LogShape(job, events)
  }

  // ------------------------------------------------------------------ one pending write

  predicate SameIdentity(a: Job, b: Job) {
    a.jobId == b.jobId && a.commitment == b.commitment &&
    a.commitmentHash == b.commitmentHash && a.createdAt == b.createdAt
  }

  /** The change of record each move of status makes. */
  ghost predicate Legit(cfg: Config, chain: Chain, log: seq<Dispatch>, issued: map<JobId, nat>, base: Job, next: Job,
                        events: seq<Event>)
  {
    && SameIdentity(base, next)
    && (next.status.Armed? ==>
          base.status.ReviewReady? && next.execution == base.execution && next.receipt == base.receipt &&
          |events| == 1 && IsArm(base, events[0]))
    && (next.status.DisarmedByUser? ==>
          (base.status.Armed? || base.status.AwaitingApproval?) && next.receipt == base.receipt &&
          |events| == 1 && IsDisarm(base, events[0]))
    && (next.status.AwaitingApproval? ==>
          next.execution.Some? && next.execution.value == Pristine(next.execution.value))
    && (Prepared(next.status) ==>
          base.status.Armed? && next.receipt == base.receipt && events == [] &&
          Grounded(cfg, chain, next.commitment, next.status, next.execution))
    && (next.status.Executing? ==>
          base.status.AwaitingApproval? && next.receipt == base.receipt &&
          next.execution.Some? && next.execution.value == Pristine(next.execution.value) &&
          |events| == 1 && IsApproval(base, events[0]))
    && (next.status.UnknownReconciling? ==>
          base.status.Executing? && next.execution == base.execution && next.receipt == base.receipt && events == [])
    && (next.status.Reconciling? ==>
          base.status.Executing? && next.receipt == base.receipt && events == [] &&
          next.execution.Some? && Bound(log, issued, next))
    && (next.status.WaitingFinality? || next.status.VerifyingGovernorState? || next.status.VerifyingPostcondition? ==>
          next.receipt == base.receipt && next.execution.Some? && base.execution.Some? && events == [])
    && (next.status.WaitingFinality? ==>
          base.status.Reconciling? && next.execution.value.inclusionBlock.Some? &&
          next.execution.value == base.execution.value.(inclusionBlock := next.execution.value.inclusionBlock) &&
          next.execution.value.transactionHash.Some? &&
          next.execution.value.transactionHash.value in chain.receipts &&
          chain.receipts[next.execution.value.transactionHash.value].block == next.execution.value.inclusionBlock.value)
    && (next.status.VerifyingGovernorState? ==>
          base.status.WaitingFinality? && next.execution.value.finalityBlock.Some? &&
          next.execution.value == base.execution.value.(finalityBlock := next.execution.value.finalityBlock) &&
          FinalityMined(chain, next) && next.execution.value.inclusionBlock.Some? &&
          next.execution.value.inclusionBlock.value + FINALITY_CONFIRMATIONS <=
            next.execution.value.finalityBlock.value)
    && (next.status.VerifyingPostcondition? ==>
          base.status.VerifyingGovernorState? && next.execution.value.governorFinalState.Some? &&
          next.execution.value ==
            base.execution.value.(governorFinalState := next.execution.value.governorFinalState) &&
          FinalityMined(chain, next) && exists b :: GovernorRead(cfg, chain, next, b))
    && (Terminal(next.status) ==>
          base.status.VerifyingPostcondition? && next.execution == base.execution && events == [] &&
          next.receipt.Some? && (next.status.FulfilledVerified? <==> next.receipt.value.status.Verified?) &&
          exists b :: Judged(cfg, chain, next, b))
  }

  // ------------------------------------------------------------------ one process

  /**
   * A call's copy of a job is never ahead of the store, and while the stored status is still the one the copy has,
   * the stored document is the copy: a compare-and-set on the status compares the whole document.
   */
  ghost predicate Fresh(store: Store, base: Job) {
    && base.jobId in store.jobs
    && Durable(base.status)
    && SameIdentity(base, store.jobs[base.jobId])
    && Rank(base.status) <= Rank(store.jobs[base.jobId].status)
    && (store.jobs[base.jobId].status == base.status ==> store.jobs[base.jobId] == base)
  }

  /** The call that moved the job to EXECUTING, holding the document exactly as stored. */
  ghost predicate Owns(s: State, pid: nat, base: Job) {
    && base.status.Executing?
    && base.jobId in s.store.jobs && s.store.jobs[base.jobId] == base
    && base.jobId in s.owner && s.owner[base.jobId] == pid
  }

  predicate Trail(base: Job, trail: seq<Status>, at: Status) {
    |trail| > 0 && trail[0] == base.status && trail[|trail| - 1] == at
  }

  ghost predicate CasOk(cfg: Config, s: State, pid: nat, p: Proc)
    requires p.Casing?
  {
    && (p.base.status.Executing? ==> Owns(s, pid, p.base))
    && !p.base.status.UnknownReconciling?
    && Durable(p.next.status) && Rank(p.base.status) < Rank(p.next.status)
    && Trail(p.base, p.trail, p.next.status) && IsPath(p.trail, p.base.commitment.mode)
    && Legit(cfg, ChainOf(s, p.base), s.log, s.issued, p.base, p.next, p.events)
    && (p.andThen.ClaimAndDispatch? ==>
          p.next.status.Executing? &&
          Captured(cfg, ChainOf(s, p.base), p.base.commitment, p.next.execution.value, p.andThen.authBlock))
    && (p.andThen.Continue? ==>
          p.next.status.WaitingFinality? || p.next.status.VerifyingGovernorState? ||
          p.next.status.VerifyingPostcondition?)
  }

  /** An approval has found the proposal eligible, and the bundle of this block unchanged. */
  ghost predicate Checked(cfg: Config, chain: Chain, c: Commitment, authBlock: nat, actions: seq<Action>) {
    && Seen(chain, c, Executing) && StillFrozen(cfg, chain, c, authBlock)
    && AuthorizationAt(chain, c, authBlock) == Some(AuthorizationOf(c, actions))
  }

  ghost predicate CheckedAction(cfg: Config, chain: Chain, c: Commitment, authBlock: nat, action: Action) {
    && Seen(chain, c, Executing) && StillFrozen(cfg, chain, c, authBlock)
    && ActionAt(chain, c, authBlock) == Some(action)
  }

  /** A prepare run has found the proposal eligible, and carries the action of a bundle it found unchanged. */
  ghost predicate Carries(cfg: Config, chain: Chain, c: Commitment, action: Action) {
    Seen(chain, c, Executing) && FrozenAction(cfg, chain, c, action)
  }

  /** A prepare run's local `status` has walked the table from ARMED. */
  ghost predicate Walked(base: Job, trail: seq<Status>, at: Status) {
    base.status.Armed? && Trail(base, trail, at) && IsPath(trail, base.commitment.mode)
  }

  /** The record carries the hash of the call the job is about to dispatch. */
  predicate CarriesRequest(cfg: Config, job: Job) {
    job.execution.Some? && job.execution.value.requestHash == Some(cfg.requestHash(CallOf(job.commitment)))
  }

  /** A job as intake creates it. */
  ghost predicate Newborn(cfg: Config, job: Job) {
    job.status.ReviewReady? && job.execution.None? && job.receipt.None? && job.updatedAt == job.createdAt &&
    job.commitmentHash == cfg.commitmentHash(job.commitment)
  }

  /** What a suspended call may rely on, whatever the others do meanwhile. */
  ghost predicate ProcOk(cfg: Config, s: State, pid: nat, p: Proc) {
    match p
    case Start(_) => true
    case IntakeSave(job) => !cfg.atomicCreation && Newborn(cfg, job)
    case ArmAuthorization(base, _) => base.status.ReviewReady? ==> Fresh(s.store, base)
    case PrepareEligibility(base) => Fresh(s.store, base) && base.status.Armed?
    case PrepareAuthorization(base, trail) =>
      Fresh(s.store, base) && Walked(base, trail, VerifyingAuthorization) &&
      Seen(ChainOf(s, base), base.commitment, Executing)
    case PrepareBlock(base, trail, action) =>
      Fresh(s.store, base) && Walked(base, trail, CapturingPrestate) &&
      Carries(cfg, ChainOf(s, base), base.commitment, action)
    case PrepareSnapshot(base, trail, action, _) =>
      Fresh(s.store, base) && Walked(base, trail, CapturingPrestate) &&
      Carries(cfg, ChainOf(s, base), base.commitment, action)
    case PrepareSimulate(base, trail, e) =>
      Fresh(s.store, base) && Walked(base, trail, Simulating) && e == Pristine(e) &&
      exists b: nat :: Captured(cfg, ChainOf(s, base), base.commitment, e, b)
    case ApproveEligibility(base, _) => Fresh(s.store, base) && base.status.AwaitingApproval?
    case ApproveAuthorization(base, _) =>
      Fresh(s.store, base) && base.status.AwaitingApproval? && Seen(ChainOf(s, base), base.commitment, Executing)
    case ApproveSimulate(base, _, actions, b) =>
      Fresh(s.store, base) && base.status.AwaitingApproval? &&
      Checked(cfg, ChainOf(s, base), base.commitment, b, actions)
    case ApproveBlock(base, _, action, b) =>
      Fresh(s.store, base) && base.status.AwaitingApproval? &&
      CheckedAction(cfg, ChainOf(s, base), base.commitment, b, action)
    case ApproveSnapshot(base, _, action, b, _) =>
      Fresh(s.store, base) && base.status.AwaitingApproval? &&
      CheckedAction(cfg, ChainOf(s, base), base.commitment, b, action)
    case Casing(base, _, _, _, _) => Fresh(s.store, base) && CasOk(cfg, s, pid, p)
    case Claiming(base, _, b) =>
      Owns(s, pid, base) && base.execution.Some? &&
      Captured(cfg, ChainOf(s, base), base.commitment, base.execution.value, b)
    case Saving(base, b) =>
      Owns(s, pid, base) && base.execution.Some? &&
      Captured(cfg, ChainOf(s, base), base.commitment, base.execution.value, b)
    case Issuing(base, b) =>
      Owns(s, pid, base) && base.execution.Some? && CarriesRequest(cfg, base) &&
      Captured(cfg, ChainOf(s, base), base.commitment, base.execution.value, b)
    case Awaiting(base, k) =>
      Owns(s, pid, base) && base.execution.Some? && k < |s.log| && s.log[k].jobId == base.jobId &&
      s.log[k].execution == base.execution.value &&
      base.jobId in s.issued && s.issued[base.jobId] == k
    case ReconcileReceipt(base) => Fresh(s.store, base) && base.status.Reconciling? && base.execution.Some?
    case ReconcileFinality(base, _) => Fresh(s.store, base) && base.status.WaitingFinality? && base.execution.Some?
    case ReconcileGovernor(base, _) =>
      Fresh(s.store, base) && base.status.VerifyingGovernorState? && FinalityMined(ChainOf(s, base), base)
    case FinalAuthorization(base) =>
      Fresh(s.store, base) && base.status.VerifyingPostcondition? && FinalityMined(ChainOf(s, base), base)
    case FinalVerify(base, actions, b) =>
      Fresh(s.store, base) && base.status.VerifyingPostcondition? && AtEnd(cfg, base, b) &&
      AuthorizationAt(ChainOf(s, base), base.commitment, b) == Some(AuthorizationOf(base.commitment, actions))
  }

  // ------------------------------------------------------------------ the whole state

  ghost predicate JobsOk(cfg: Config, s: State) {
    && (forall j :: j in s.store.jobs ==> s.store.jobs[j].jobId == j)
    && (forall j :: j in s.store.jobs ==>
          JobOk(cfg, ChainOf(s, s.store.jobs[j]), s.log, s.issued, s.store.jobs[j], EventsOf(s.store, j)))
    && (forall j :: j !in s.store.jobs ==> EventsOf(s.store, j) == [])
  }

  ghost predicate EntryOk(cfg: Config, s: State, k: nat, d: Dispatch) {
    && d.jobId in s.store.jobs && d.jobId in s.issued && s.issued[d.jobId] == k
    && DispatchOk(cfg, ChainOf(s, s.store.jobs[d.jobId]), s.store.jobs[d.jobId], d)
  }

  ghost predicate LogOk(cfg: Config, s: State) {
    forall k :: 0 <= k < |s.log| ==> EntryOk(cfg, s, k, s.log[k])
  }

  ghost predicate ProcsOk(cfg: Config, s: State) {
    forall pid :: pid in s.procs ==> ProcOk(cfg, s, pid, s.procs[pid])
  }

  ghost predicate Inv(cfg: Config, s: State) {
    JobsOk(cfg, s) && LogOk(cfg, s) && ProcsOk(cfg, s)
  }
}
