/**
 * The actions as the straight-line code they are, over an in-memory store, no other call running. Each is proved to
 * do to the store exactly what the interleaved machine does when only this call takes steps.
 */
module Pipeline {
  import opened Erc20
  import opened Governor
  import opened Grounds
  import Memory = InMemoryStore
  import opened Jobs
  import opened JobStore
  import opened Protocol
  import opened StateMachine
  import opened Wrappers

  // ------------------------------------------------------------------ the machine beside the code

  ghost function RunFrom(cfg: Config, s: State, steps: seq<Step>): State {
    if steps == [] then s else Do(cfg, RunFrom(cfg, s, steps[..|steps| - 1]), steps[|steps| - 1])
  }

  /** `t` is where the machine gets from `s` by steps of the one call. */
  ghost predicate Tracks(cfg: Config, s: State, pid: nat, steps: seq<Step>, t: State) {
    && (forall i :: 0 <= i < |steps| ==> steps[i].Advance? && steps[i].pid == pid)
    && RunFrom(cfg, s, steps) == t
  }

  /** The call is over, nothing was dispatched, and the machine's store is the code's. */
  ghost predicate Finished(cfg: Config, s: State, pid: nat, steps: seq<Step>, t: State, store: Store) {
    Tracks(cfg, s, pid, steps, t) && pid !in t.procs && t.store == store && t.chains == s.chains && t.log == s.log
  }

  /** The call is suspended at `p`, and the machine's store is the code's. */
  ghost predicate At(cfg: Config, s: State, pid: nat, steps: seq<Step>, t: State, store: Store, p: Proc) {
    && Tracks(cfg, s, pid, steps, t) && pid in t.procs && t.procs[pid] == p && t.store == store && t.chains == s.chains
    && t.log == s.log
  }

  /** Finished or suspended, as a step's outcome says. */
  ghost predicate Outcomes(cfg: Config, s: State, pid: nat, steps: seq<Step>, t: State, store: Store, r: Outcome) {
    match r
    case Stop => Finished(cfg, s, pid, steps, t, store)
    case Go(p) => At(cfg, s, pid, steps, t, store, p)
  }

  lemma Tick(cfg: Config, s: State, pid: nat, steps: seq<Step>, t: State, o: Observation)
    requires Tracks(cfg, s, pid, steps, t)
    ensures Tracks(cfg, s, pid, steps + [Advance(pid, o)], Do(cfg, t, Advance(pid, o)))
  {
    hide Do;
    assert (steps + [Advance(pid, o)])[..|steps|] == steps;
  }

  lemma AwaitRead(cfg: Config, s: State, pid: nat, op: Op, o: Observation) returns (steps: seq<Step>, t: State)
    requires pid in s.procs && s.procs[pid] == Start(op) && !op.Intake?
    ensures Outcomes(cfg, s, pid, steps, t, s.store,
                     if op.jobId in s.store.jobs then AfterRead(op, s.store.jobs[op.jobId], o.now) else Stop)
  {
    hide AfterRead;
    Tick(cfg, s, pid, [], s, o);
    steps, t := [Advance(pid, o)], Do(cfg, s, Advance(pid, o));
    assert [] + [Advance(pid, o)] == steps;
    StartAdvance(cfg, s, pid, op, o);
  }

  lemma StartAdvance(cfg: Config, s: State, pid: nat, op: Op, o: Observation)
    requires pid in s.procs && s.procs[pid] == Start(op) && !op.Intake?
    ensures Do(cfg, s, Advance(pid, o)) ==
              Set(s, pid, if op.jobId in s.store.jobs then AfterRead(op, s.store.jobs[op.jobId], o.now) else Stop)
  {
    hide AfterRead, Local, Cas, ClaimStep, SaveStep, IssueStep, AnswerStep, Set;
  }

  predicate IsLocal(p: Proc) {
    !p.Start? && !p.IntakeSave? && !p.Casing? && !p.Claiming? && !p.Saving? && !p.Issuing? && !p.Awaiting?
  }

  lemma LocalAdvance(cfg: Config, t: State, pid: nat, p: Proc, o: Observation)
    requires pid in t.procs && t.procs[pid] == p && IsLocal(p)
    ensures Do(cfg, t, Advance(pid, o)) == Set(t, pid, Local(cfg, ChainOf(t, p.base), p, o))
  {
    hide Read, Local, Cas, ClaimStep, SaveStep, IssueStep, AnswerStep, Set, ChainOf;
  }

  lemma AwaitLocal(cfg: Config, s: State, pid: nat, steps: seq<Step>, t: State, store: Store, p: Proc, o: Observation)
    returns (steps': seq<Step>, t': State)
    requires At(cfg, s, pid, steps, t, store, p) && IsLocal(p)
    ensures Outcomes(cfg, s, pid, steps', t', store, Local(cfg, ChainOf(s, p.base), p, o))
  {
    hide Do, Local;
    Tick(cfg, s, pid, steps, t, o);
    LocalAdvance(cfg, t, pid, p, o);
    steps', t' := steps + [Advance(pid, o)], Do(cfg, t, Advance(pid, o));
  }

  lemma CasAdvance(cfg: Config, t: State, pid: nat, p: Proc, o: Observation)
    requires pid in t.procs && t.procs[pid] == p && p.Casing?
    ensures Do(cfg, t, Advance(pid, o)) == Cas(t, pid, p, o.now)
  {
    hide Read, Local, Cas, ClaimStep, SaveStep, IssueStep, AnswerStep, Set;
  }

  /** The outcome of a compare-and-set, and the store after it. */
  lemma AwaitCas(cfg: Config, s: State, pid: nat, steps: seq<Step>, t: State, store: Store, p: Proc, o: Observation)
    returns (steps': seq<Step>, t': State)
    requires At(cfg, s, pid, steps, t, store, p) && p.Casing?
    ensures var (store', result) := SaveWithCas(store, p.next, p.events, Some(p.base.status));
            Outcomes(cfg, s, pid, steps', t', store',
                     if result.Saved? then AfterCas(p.next, p.andThen, o.now) else Stop)
  {
    hide Do, AfterCas, SaveJobAndEvents, StatusOf;
    Tick(cfg, s, pid, steps, t, o);
    CasAdvance(cfg, t, pid, p, o);
    steps', t' := steps + [Advance(pid, o)], Do(cfg, t, Advance(pid, o));
  }

  // ------------------------------------------------------------------ arm, disarm, approve

  datatype ActionError = JobNotFound | ReadFailed | Refused(error: JobError) | JobNotArmed(status: Status)
                       | ConcurrentModification(actual: Option<Status>) | Illegal

  /** What the machine and the code start from. */
  ghost predicate Ready(s: State, pid: nat, op: Op, store: Store, chains: map<nat, Chain>) {
    pid in s.procs && s.procs[pid] == Start(op) && s.store == store && s.chains == chains
  }

  /** The one document is another, these events have been added to its log, and nothing else has changed. */
  ghost predicate Writes(before: Store, after: Store, job: Job, events: seq<Event>) {
    && after.jobs == before.jobs[job.jobId := job] && after.claims == before.claims
    && forall j :: EventsOf(after, j) == EventsOf(before, j) + if j == job.jobId then events else []
  }

  lemma CasWrites(before: Store, base: Job, next: Job, events: seq<Event>)
    requires StatusOf(before, next.jobId) == Some(base.status)
    ensures Writes(before, SaveWithCas(before, next, events, Some(base.status)).0, next, events)
  {
  }

  /** Every action ends in one compare-and-set on the status it read. */
  method SaveWithCasOrThrow(store: Memory.InMemoryFulfillmentJobStore, base: Job, next: Job, events: seq<Event>,
                            cfg: Config, ghost s: State, ghost pid: nat, ghost steps: seq<Step>, ghost t: State,
                            ghost trail: seq<Status>, o: Observation)
    returns (result: Result<Job, ActionError>, ghost steps': seq<Step>, ghost t': State)
    requires At(cfg, s, pid, steps, t, store.Contents(), Casing(base, next, events, trail, Finish))
    modifies store
    ensures store.Contents() == SaveWithCas(old(store.Contents()), next, events, Some(base.status)).0
    ensures Finished(cfg, s, pid, steps', t', store.Contents())
    ensures result.Ok? <==> StatusOf(old(store.Contents()), next.jobId) == Some(base.status)
    ensures result.Ok? ==>
        result.value == next && next.jobId in store.Contents().jobs && store.Contents().jobs[next.jobId] == next
    ensures result.Err? ==>
        store.Contents() == old(store.Contents()) &&
        result == Err(ConcurrentModification(StatusOf(old(store.Contents()), next.jobId)))
  {
    hide At, Finished;
    steps', t' := AwaitCas(cfg, s, pid, steps, t, store.Contents(), Casing(base, next, events, trail, Finish), o);
    var saved := store.SaveWithCas(next, events, Some(base.status));
    result := match saved case Saved => Ok(next) case Conflict(actual) => Err(ConcurrentModification(actual));
  }

  /** Why an arm fails, and that it succeeds otherwise: the checks in the order they are made. */
  predicate ArmEnds(cfg: Config, chain: Chain, job: Job, seen: nat -> Observation, result: Result<Job, ActionError>) {
    var a := AuthorizationAt(chain, job.commitment, seen(1).block);
    if seen(1).fails || a.None? then result == Err(ReadFailed)
    else if cfg.commitmentHash(job.commitment) != job.commitmentHash then result == Err(Refused(CommitmentHashMismatch))
    else if cfg.authorizationHash(a.value) != job.commitment.frozenAuthorization then
      result == Err(Refused(AuthorizationChanged))
    else if !job.status.ReviewReady? then result == Err(Refused(IllegalMove(job.status, Armed)))
    else result.Ok?
  }

  method ArmJob(store: Memory.InMemoryFulfillmentJobStore, cfg: Config, chains: map<nat, Chain>, jobId: JobId,
                actor: string, seen: nat -> Observation, ghost s: State, ghost pid: nat)
    returns (result: Result<Job, ActionError>, ghost steps: seq<Step>, ghost t: State)
    requires Ready(s, pid, Arm(jobId, actor), store.Contents(), chains)
    requires jobId in store.Contents().jobs ==> store.Contents().jobs[jobId].jobId == jobId
    modifies store
    ensures Finished(cfg, s, pid, steps, t, store.Contents())
    ensures result.Err? ==> store.Contents() == old(store.Contents())
    ensures result == Err(JobNotFound) <==> jobId !in old(store.Contents()).jobs
    ensures jobId in old(store.Contents()).jobs ==>
        var job := old(store.Contents()).jobs[jobId];
        ArmEnds(cfg, ChainFor(chains, job.commitment.chainId), job, seen, result)
    ensures result.Ok? ==>
        && jobId in old(store.Contents()).jobs
        && var job := old(store.Contents()).jobs[jobId];
           && result.value == job.(status := Armed, updatedAt := seen(1).now)
           && Writes(old(store.Contents()), store.Contents(), result.value,
                     [Event(ArmedEvent, actor, None, seen(1).now, ReviewReady, Armed, job.commitmentHash)])
  {
    hide Do, At, Finished, Tracks, Jobs.ArmJob, AuthorizationAt, Local, Writes;
    steps, t := AwaitRead(cfg, s, pid, Arm(jobId, actor), seen(0));
    var found := store.Get(jobId);
    if found.None? { return Err(JobNotFound), steps, t; }
    var job := found.value;
    var chain := ChainFor(chains, job.commitment.chainId);

    // Live re-verification immediately before arming.
    steps, t := AwaitLocal(cfg, s, pid, steps, t, store.Contents(), ArmAuthorization(job, actor), seen(1));
    ArmIs(cfg, chain, job, actor, seen(1));
    var authorization := AuthorizationAt(chain, job.commitment, seen(1).block);
    if authorization.None? || seen(1).fails { return Err(ReadFailed), steps, t; }
    var current := cfg.authorizationHash(authorization.value);

    ArmExactlyWhen(job, job.commitment, cfg.commitmentHash(job.commitment), current, Full, actor, seen(1).now);
    var moved := Jobs.ArmJob(job, job.commitment, cfg.commitmentHash(job.commitment), current, Full, actor,
                             seen(1).now);
    if moved.Err? { return Err(Refused(moved.error)), steps, t; }
    CasWrites(store.Contents(), job, moved.value.job, [moved.value.event]);
    result, steps, t := SaveWithCasOrThrow(store, job, moved.value.job, [moved.value.event], cfg, s, pid, steps, t,
                                           [job.status, moved.value.job.status], seen(2));
  }

  lemma ArmIs(cfg: Config, chain: Chain, base: Job, actor: string, o: Observation)
    ensures Local(cfg, chain, ArmAuthorization(base, actor), o) ==
              if AuthorizationAt(chain, base.commitment, o.block).None? || o.fails then Stop
              else
                CasMove(base,
                        Jobs.ArmJob(base, base.commitment, cfg.commitmentHash(base.commitment),
                                    cfg.authorizationHash(AuthorizationAt(chain, base.commitment, o.block).value),
                                    Full, actor, o.now),
                        Finish)
  {
    hide AuthorizationAt, Jobs.ArmJob, CasMove;
  }

  method DisarmJob(store: Memory.InMemoryFulfillmentJobStore, cfg: Config, chains: map<nat, Chain>, jobId: JobId,
                   actor: string, reason: Option<string>, seen: nat -> Observation, ghost s: State, ghost pid: nat)
    returns (result: Result<Job, ActionError>, ghost steps: seq<Step>, ghost t: State)
    requires Ready(s, pid, Disarm(jobId, actor, reason), store.Contents(), chains)
    requires jobId in store.Contents().jobs ==> store.Contents().jobs[jobId].jobId == jobId
    modifies store
    ensures result.Ok? <==>
              jobId in old(store.Contents()).jobs &&
              var st := old(store.Contents()).jobs[jobId].status;
              st.Armed? || st.WaitingEligibility? || st.Eligible? || st.AwaitingApproval?
    ensures Finished(cfg, s, pid, steps, t, store.Contents())
    ensures result.Err? ==>
        && store.Contents() == old(store.Contents())
        && result == Err(if jobId in old(store.Contents()).jobs
                         then Refused(IllegalDisarm(old(store.Contents()).jobs[jobId].status)) else JobNotFound)
    ensures result.Ok? ==>
        var job := old(store.Contents()).jobs[jobId];
        && result.value == job.(status := DisarmedByUser, updatedAt := seen(0).now)
        && Writes(old(store.Contents()), store.Contents(), result.value,
                  [Event(DisarmedEvent, actor, reason, seen(0).now, job.status, DisarmedByUser, job.commitmentHash)])
  {
    hide Do, At, Finished, Tracks, Writes;
    steps, t := AwaitRead(cfg, s, pid, Disarm(jobId, actor, reason), seen(0));
    var found := store.Get(jobId);
    if found.None? { return Err(JobNotFound), steps, t; }
    var job := found.value;
    var moved := Jobs.DisarmJob(job, actor, reason, seen(0).now);
    if moved.Err? { return Err(Refused(moved.error)), steps, t; }
    CasWrites(store.Contents(), job, moved.value.job, [moved.value.event]);
    result, steps, t := SaveWithCasOrThrow(store, job, moved.value.job, [moved.value.event], cfg, s, pid, steps, t,
                                           [job.status, moved.value.job.status], seen(1));
  }

  method ApproveJob(store: Memory.InMemoryFulfillmentJobStore, cfg: Config, chains: map<nat, Chain>, jobId: JobId,
                    actor: string, seen: nat -> Observation, ghost s: State, ghost pid: nat)
    returns (result: Result<Job, ActionError>, ghost steps: seq<Step>, ghost t: State)
    requires Ready(s, pid, ApproveOnly(jobId, actor), store.Contents(), chains)
    requires jobId in store.Contents().jobs ==> store.Contents().jobs[jobId].jobId == jobId
    modifies store
    ensures result.Ok? <==>
        jobId in old(store.Contents()).jobs && old(store.Contents()).jobs[jobId].status.AwaitingApproval?
    ensures Finished(cfg, s, pid, steps, t, store.Contents())
    ensures result.Err? ==>
        && store.Contents() == old(store.Contents())
        && result == Err(if jobId in old(store.Contents()).jobs
                         then Refused(IllegalApproval(old(store.Contents()).jobs[jobId].status)) else JobNotFound)
    ensures result.Ok? ==>
        var job := old(store.Contents()).jobs[jobId];
        && result.value == job.(status := Executing, updatedAt := seen(0).now)
        && Writes(old(store.Contents()), store.Contents(), result.value,
                  [Event(ApprovedEvent, actor, None, seen(0).now, AwaitingApproval, Executing, job.commitmentHash)])
  {
    hide Do, At, Finished, Tracks, Writes;
    steps, t := AwaitRead(cfg, s, pid, ApproveOnly(jobId, actor), seen(0));
    var found := store.Get(jobId);
    if found.None? { return Err(JobNotFound), steps, t; }
    var job := found.value;
    var moved := Jobs.ApproveJob(job, job.commitmentHash, actor, seen(0).now);
    if moved.Err? { return Err(Refused(moved.error)), steps, t; }
    CasWrites(store.Contents(), job, moved.value.job, [moved.value.event]);
    result, steps, t := SaveWithCasOrThrow(store, job, moved.value.job, [moved.value.event], cfg, s, pid, steps, t,
                                           [job.status, moved.value.job.status], seen(1));
  }

  // ------------------------------------------------------------------ prepare

  lemma PrepareEligibilityIs(cfg: Config, chain: Chain, base: Job, o: Observation)
    ensures Local(cfg, chain, PrepareEligibility(base), o) == PrepareEligibilityStep(chain, base, o)
  {
    hide PrepareEligibilityStep;
  }

  lemma PrepareAuthorizationIs(cfg: Config, chain: Chain, base: Job, trail: seq<Status>, o: Observation)
    requires trail != []
    ensures Local(cfg, chain, PrepareAuthorization(base, trail), o) ==
              PrepareAuthorizationStep(cfg, chain, base, trail, o)
  {
    hide PrepareAuthorizationStep;
  }

  lemma PrepareBlockIs(cfg: Config, chain: Chain, base: Job, trail: seq<Status>, action: Action, o: Observation)
    requires trail != []
    ensures Local(cfg, chain, PrepareBlock(base, trail, action), o) == PrepareBlockStep(chain, base, trail, action, o)
  {
    hide PrepareBlockStep;
  }

  lemma PrepareSnapshotIs(cfg: Config, chain: Chain, base: Job, trail: seq<Status>, action: Action, b: nat,
                          o: Observation)
    requires trail != []
    ensures Local(cfg, chain, PrepareSnapshot(base, trail, action, b), o) ==
              PrepareSnapshotStep(chain, base, trail, action, b, o)
  {
    hide PrepareSnapshotStep;
  }

  lemma PrepareSimulateIs(cfg: Config, chain: Chain, base: Job, trail: seq<Status>, e: ExecutionState, o: Observation)
    requires trail != []
    ensures Local(cfg, chain, PrepareSimulate(base, trail, e), o) == PrepareSimulateStep(base, trail, e, o)
  {
    hide PrepareSimulateStep;
  }

  /** `status = transition(status, to)`: on, or the throw that ends the call. */
  method Hopped(status: Status, to: Status, mode: Option<Mode>) returns (next: Option<Status>)
    ensures next == if IsLegalTransition(status, to, mode) then Some(to) else None
  {
    var r := Transition(status, to, mode);
    next := match r case Ok(st) => Some(st) case Err(_) => None;
  }

  /** The last hop of a run and its single write. */
  method FinishRun(store: Memory.InMemoryFulfillmentJobStore, cfg: Config, job: Job, status: Status, to: Status,
                   mode: Option<Mode>, execution: Option<ExecutionState>, now: Timestamp, o: Observation,
                   ghost s: State, ghost pid: nat, ghost steps: seq<Step>, ghost t: State, ghost trail: seq<Status>)
    returns (result: Result<Job, ActionError>, ghost steps': seq<Step>, ghost t': State)
    requires trail != [] && trail[|trail| - 1] == status
    requires Outcomes(cfg, s, pid, steps, t, store.Contents(), FinishPrepare(job, trail, to, mode, execution, now))
    modifies store
    ensures Finished(cfg, s, pid, steps', t', store.Contents())
    ensures result.Err? ==> store.Contents() == old(store.Contents())
    ensures result.Ok? <==>
        IsLegalTransition(status, to, mode) && StatusOf(old(store.Contents()), job.jobId) == Some(job.status)
    ensures result.Ok? ==> result.value == job.(status := to, updatedAt := now, execution := execution)
    ensures result.Ok? ==> Writes(old(store.Contents()), store.Contents(), result.value, [])
    ensures !IsLegalTransition(status, to, mode) ==> result == Err(Illegal)
    ensures result.Err? ==> result.error.Illegal? || result.error.ConcurrentModification?
  {
    hide At, Finished, Writes, StatusOf, SaveWithCas;
    var last := Hopped(status, to, mode);
    if last.None? { return Err(Illegal), steps, t; }
    var next := job.(status := last.value, updatedAt := now, execution := execution);
    if StatusOf(store.Contents(), job.jobId) == Some(job.status) { CasWrites(store.Contents(), job, next, []); }
    result, steps', t' := SaveWithCasOrThrow(store, job, next, [], cfg, s, pid, steps, t, trail + [to], o);
  }

  lemma HopsOfPrepare(mode: Mode)
    ensures IsLegalTransition(WaitingEligibility, RefusalTimelockPending, None) &&
            IsLegalTransition(WaitingEligibility, RefusalCanceled, None) &&
            IsLegalTransition(WaitingEligibility, RefusalNotExecutable, None)
    ensures IsLegalTransition(VerifyingLifecycle, FulfilledExternallyUnverified, None)
    ensures IsLegalTransition(VerifyingAuthorization, RefusalPayloadMismatch, None) &&
            !IsLegalTransition(VerifyingAuthorization, RefusalWorkflowPolicyViolation, None)
    ensures IsLegalTransition(VerifyingAuthorization, CapturingPrestate, None) &&
            IsLegalTransition(CapturingPrestate, Simulating, None)
    ensures !IsLegalTransition(CapturingPrestate, PostconditionUnsupported, None)
    ensures IsLegalTransition(Simulating, RefusalWorkflowPolicyViolation, None) &&
            IsLegalTransition(Simulating, RefusalSimulationRevert, None) &&
            IsLegalTransition(Simulating, BlockedCallerNotAuthorized, None)
    ensures IsLegalTransition(Simulating, AwaitingApproval, Some(mode)) <==> mode.Approve?
  {
  }

  // What a prepare run has to read to end in each status.

  /** The three reads of the lifecycle check come back, and they warrant this status. */
  predicate Finds(chain: Chain, c: Commitment, o: Observation, to: Status) {
    !o.fails && SeenAt(chain, c, to, o.block, o.recordBlock, o.clockBlock)
  }

  /** The bundle read comes back. */
  predicate BundleRead(chain: Chain, c: Commitment, o: Observation) {
    !o.fails && AuthorizationAt(chain, c, o.block).Some?
  }

  /** The action is a transfer, and its token gives the payee's balance at the pinned block. */
  predicate Snapshottable(chain: Chain, action: Action, pre: nat) {
    var t := TryDecodeTransfer(action.signature, action.calldata);
    t.Some? && BalanceAt(chain, action.target, t.value.recipient, pre).Some?
  }

  /** The height, the balance and the simulation come back. */
  predicate Captures(chain: Chain, action: Action, seen: nat -> Observation) {
    && !seen(3).fails && seen(3).block < |chain.blocks|
    && !seen(4).fails && Snapshottable(chain, action, seen(3).block)
    && !seen(5).fails
  }

  /** What the simulation has to come to for each of the statuses it decides between. */
  predicate Decides(simulation: Simulation, mode: Mode, to: Status) {
    match to
    case RefusalWorkflowPolicyViolation => simulation.PolicyRefused?
    case RefusalSimulationRevert => simulation.RevertPredicted?
    case BlockedCallerNotAuthorized => simulation.CallerIncompatible?
    case AwaitingApproval => simulation.Compatible? && mode.Approve?
    case _ => false
  }

  predicate Lifecycle(to: Status) {
    to.RefusalTimelockPending? || to.RefusalCanceled? || to.RefusalNotExecutable? || to.FulfilledExternallyUnverified?
  }

  /** With the proposal eligible: the bundle has another hash, or its action is there and the simulation decides. */
  ghost predicate BundleEnds(cfg: Config, chain: Chain, job: Job, seen: nat -> Observation, to: Status) {
    var c, b := job.commitment, seen(2).block;
    && BundleRead(chain, c, seen(2))
    && if !StillFrozen(cfg, chain, c, b) then to.RefusalPayloadMismatch?
       else
         && ActionAt(chain, c, b).Some?
         && Captures(chain, ActionAt(chain, c, b).value, seen)
         && Decides(seen(5).simulation, job.commitment.mode, to)
  }

  /** The reads with which a prepare run of an ARMED job ends in this status. */
  ghost predicate EndsIn(cfg: Config, chain: Chain, job: Job, seen: nat -> Observation, to: Status) {
    job.status.Armed? && Finds(chain, job.commitment, seen(1), to) &&
    (Lifecycle(to) || BundleEnds(cfg, chain, job, seen, to))
  }

  /**
   * Moves the table lacks, so `transition` throws: with an unchanged bundle, no action where the selection points, an
   * action that is no transfer, and a clean simulation for a job not meant for human approval.
   */
  ghost predicate Strays(cfg: Config, chain: Chain, job: Job, seen: nat -> Observation) {
    job.status.Armed? && Finds(chain, job.commitment, seen(1), Executing) && StraysPast(cfg, chain, job, seen)
  }

  ghost predicate StraysPast(cfg: Config, chain: Chain, job: Job, seen: nat -> Observation) {
    var c, b := job.commitment, seen(2).block;
    && BundleRead(chain, c, seen(2)) && StillFrozen(cfg, chain, c, b)
    && (ActionAt(chain, c, b).Some? ==> StraysLate(chain, job, ActionAt(chain, c, b).value, seen))
  }

  predicate StraysLate(chain: Chain, job: Job, action: Action, seen: nat -> Observation) {
    || (!seen(3).fails && seen(3).block < |chain.blocks| &&
         TryDecodeTransfer(action.signature, action.calldata).None?)
    || (Captures(chain, action, seen) && seen(5).simulation.Compatible? && job.commitment.mode.Auto?)
  }

  /** A snapshot of this action at this block, and nothing of an execution yet. */
  ghost predicate FreshSnapshot(chain: Chain, action: Action, pre: nat, e: Option<ExecutionState>) {
    && e.Some? && Snapshots(chain, action, e.value) && e.value.preStateBlock == pre
    && e.value.requestHash.None? && e.value.transactionHash.None? && e.value.inclusionBlock.None?
    && e.value.finalityBlock.None? && e.value.governorFinalState.None?
  }

  /** The document a prepare run writes: the snapshot, if it got that far, and the time of its last read. */
  ghost predicate Leaves(cfg: Config, chain: Chain, job: Job, seen: nat -> Observation, next: Job) {
    var c, b := job.commitment, seen(2).block;
    if Lifecycle(next.status) then next == job.(status := next.status, updatedAt := seen(1).now, execution := None)
    else LeavesLate(cfg, chain, job, seen, next)
  }

  ghost predicate LeavesLate(cfg: Config, chain: Chain, job: Job, seen: nat -> Observation, next: Job) {
    var c, b := job.commitment, seen(2).block;
    if !StillFrozen(cfg, chain, c, b) then
      next == job.(status := next.status, updatedAt := seen(2).now, execution := None)
    else
      next == job.(status := next.status, updatedAt := seen(5).now, execution := next.execution) &&
      ActionAt(chain, c, b).Some? && FreshSnapshot(chain, ActionAt(chain, c, b).value, seen(3).block, next.execution)
  }

  predicate Ends(result: Result<Job, ActionError>, to: Status) {
    result.Ok? && result.value.status == to
  }

  lemma SnapshotIsThere(chain: Chain, action: Action, pre: nat)
    ensures Snapshot(chain, action, pre).Some? <==> Snapshottable(chain, action, pre)
    ensures Snapshot(chain, action, pre).Some? ==> FreshSnapshot(chain, action, pre, Snapshot(chain, action, pre))
  {
  }

  /** The lifecycle check on the three reads. */
  lemma EligibleExactlyWhen(chain: Chain, c: Commitment, o: Observation)
    ensures var e := Protocol.Eligible(chain, c, o);
            && (e.Some? && e.value.0.TimelockPending? <==> Finds(chain, c, o, RefusalTimelockPending))
            && (e.Some? && e.value.0.Canceled? <==> Finds(chain, c, o, RefusalCanceled))
            && (e.Some? && e.value.0.NotExecutable? <==> Finds(chain, c, o, RefusalNotExecutable))
            && (e.Some? && e.value.0.AlreadyExecuted? <==> Finds(chain, c, o, FulfilledExternallyUnverified))
            && (e.Some? && e.value.0.EligibleToExecute? <==> Finds(chain, c, o, Executing))
            && forall to :: !Lifecycle(to) ==> (Finds(chain, c, o, to) <==> Finds(chain, c, o, Executing))
  {
    hide ViewAt;
  }

  /** Which move the simulation leads to, and under which mode. */
  method TurnFrom(job: Job, ghost trail: seq<Status>, ghost e: ExecutionState, o: Observation)
    returns (to: Status, mode: Option<Mode>)
    requires trail != [] && !o.fails
    ensures PrepareSimulateStep(job, trail, e, o) == FinishPrepare(job, trail, to, mode, Some(e), o.now)
    ensures forall st :: st == to && IsLegalTransition(Simulating, to, mode) <==>
                         Decides(o.simulation, job.commitment.mode, st)
    ensures !IsLegalTransition(Simulating, to, mode) <==> o.simulation.Compatible? && job.commitment.mode.Auto?
  {
    HopsOfPrepare(job.commitment.mode);
    hide IsLegalTransition, FinishPrepare;
    to, mode := AwaitingApproval, None;
    if o.simulation.PolicyRefused? {
      to := RefusalWorkflowPolicyViolation;
    } else if o.simulation.RevertPredicted? {
      to := RefusalSimulationRevert;
    } else if o.simulation.CallerIncompatible? {
      to := BlockedCallerNotAuthorized;
    } else {
      mode := Some(job.commitment.mode);
    }
  }

  lemma FailedSimulation(job: Job, trail: seq<Status>, e: ExecutionState, o: Observation)
    requires trail != [] && o.fails
    ensures PrepareSimulateStep(job, trail, e, o).Stop?
  {
  }

  /** From SIMULATING on: the simulation's outcome and the single write. */
  method SimulateAndFinish(store: Memory.InMemoryFulfillmentJobStore, cfg: Config, chain: Chain, job: Job,
                           execution: ExecutionState, from: Status, seen: nat -> Observation, ghost s: State,
                           ghost pid: nat, ghost steps0: seq<Step>, ghost t0: State, ghost trail: seq<Status>)
    returns (result: Result<Job, ActionError>, ghost steps: seq<Step>, ghost t: State)
    requires ChainOf(s, job) == chain
    requires At(cfg, s, pid, steps0, t0, store.Contents(), PrepareSimulate(job, trail, execution))
    requires trail != [] && trail[|trail| - 1] == from && from.Simulating?
    modifies store
    ensures Finished(cfg, s, pid, steps, t, store.Contents())
    ensures result.Err? ==> store.Contents() == old(store.Contents())
    ensures StatusOf(old(store.Contents()), job.jobId) == Some(job.status) ==>
              && (result.Err? ==> result.error.ReadFailed? || result.error.Illegal?)
              && (forall to :: Ends(result, to) <==>
                    !seen(5).fails && Decides(seen(5).simulation, job.commitment.mode, to))
              && (result == Err(Illegal) <==>
                    !seen(5).fails && seen(5).simulation.Compatible? && job.commitment.mode.Auto?)
    ensures result.Ok? ==>
              && result.value ==
                   job.(status := result.value.status, updatedAt := seen(5).now, execution := Some(execution))
              && Writes(old(store.Contents()), store.Contents(), result.value, [])
  {
    HopsOfPrepare(job.commitment.mode);
    hide Do, At, Finished, Tracks, Local, FinishPrepare, IsLegalTransition, ChainOf, StatusOf, Writes, Decides,
      PrepareSimulateStep;
    steps, t := steps0, t0;
    var status := from;
    steps, t := AwaitLocal(cfg, s, pid, steps, t, store.Contents(), PrepareSimulate(job, trail, execution), seen(5));
    PrepareSimulateIs(cfg, chain, job, trail, execution, seen(5));
    if seen(5).fails {
      FailedSimulation(job, trail, execution, seen(5));
      return Err(ReadFailed), steps, t;
    }
    var to, mode := TurnFrom(job, trail, execution, seen(5));
    result, steps, t := FinishRun(store, cfg, job, status, to, mode, Some(execution), seen(5).now, seen(6), s, pid,
                                  steps, t, trail);
  }

  /** Takes the snapshot at the block just read, and goes on to the simulation. */
  method SnapshotAndSimulate(store: Memory.InMemoryFulfillmentJobStore, cfg: Config, chain: Chain, job: Job,
                             action: Action, preStateBlock: nat, from: Status, seen: nat -> Observation, ghost s: State,
                             ghost pid: nat, ghost steps0: seq<Step>, ghost t0: State, ghost trail0: seq<Status>)
    returns (result: Result<Job, ActionError>, ghost steps: seq<Step>, ghost t: State)
    requires ChainOf(s, job) == chain
    requires At(cfg, s, pid, steps0, t0, store.Contents(), PrepareSnapshot(job, trail0, action, preStateBlock))
    requires trail0 != [] && trail0[|trail0| - 1] == from && from.CapturingPrestate?
    modifies store
    ensures Finished(cfg, s, pid, steps, t, store.Contents())
    ensures result.Err? ==> store.Contents() == old(store.Contents())
    ensures StatusOf(old(store.Contents()), job.jobId) == Some(job.status) ==>
              && (result.Err? ==> result.error.ReadFailed? || result.error.Illegal?)
              && (forall to :: Ends(result, to) <==>
                    !seen(4).fails && Snapshottable(chain, action, preStateBlock) &&
                    !seen(5).fails && Decides(seen(5).simulation, job.commitment.mode, to))
              && (result == Err(Illegal) <==>
                    !seen(4).fails && Snapshottable(chain, action, preStateBlock) &&
                    !seen(5).fails && seen(5).simulation.Compatible? && job.commitment.mode.Auto?)
    ensures result.Ok? ==>
              && result.value ==
                   job.(status := result.value.status, updatedAt := seen(5).now, execution := result.value.execution)
              && FreshSnapshot(chain, action, preStateBlock, result.value.execution)
              && Writes(old(store.Contents()), store.Contents(), result.value, [])
  {
    HopsOfPrepare(job.commitment.mode);
    SnapshotIsThere(chain, action, preStateBlock);
    hide Do, At, Finished, Tracks, Local, IsLegalTransition, Snapshot, ChainOf, StatusOf, Writes, Snapshottable,
      FreshSnapshot, Decides;
    steps, t := steps0, t0;
    var status := from;
    ghost var trail := trail0;
    steps, t := AwaitLocal(cfg, s, pid, steps, t, store.Contents(), PrepareSnapshot(job, trail, action, preStateBlock),
                           seen(4));
    PrepareSnapshotIs(cfg, chain, job, trail, action, preStateBlock, seen(4));
    var snapshot := Snapshot(chain, action, preStateBlock);
    if snapshot.None? || seen(4).fails { return Err(ReadFailed), steps, t; }
    var execution := snapshot.value;
    var simulating := Hopped(status, Simulating, None);
    if simulating.None? { return Err(Illegal), steps, t; }
    status, trail := simulating.value, trail + [Simulating];

    result, steps, t := SimulateAndFinish(store, cfg, chain, job, execution, status, seen, s, pid, steps, t, trail);
  }

  /** From CAPTURING_PRESTATE on: the snapshot, the simulation, and the single write. */
  method CaptureAndSimulate(store: Memory.InMemoryFulfillmentJobStore, cfg: Config, chain: Chain, job: Job,
                            action: Action, from: Status, seen: nat -> Observation, ghost s: State, ghost pid: nat,
                            ghost steps0: seq<Step>, ghost t0: State, ghost trail0: seq<Status>)
    returns (result: Result<Job, ActionError>, ghost steps: seq<Step>, ghost t: State)
    requires ChainOf(s, job) == chain
    requires At(cfg, s, pid, steps0, t0, store.Contents(), PrepareBlock(job, trail0, action))
    requires trail0 != [] && trail0[|trail0| - 1] == from && from.CapturingPrestate?
    modifies store
    ensures Finished(cfg, s, pid, steps, t, store.Contents())
    ensures result.Err? ==> store.Contents() == old(store.Contents())
    ensures StatusOf(old(store.Contents()), job.jobId) == Some(job.status) ==>
              && (result.Err? ==> result.error.ReadFailed? || result.error.Illegal?)
              && (forall to :: Ends(result, to) <==>
                    Captures(chain, action, seen) && Decides(seen(5).simulation, job.commitment.mode, to))
              && (result == Err(Illegal) <==> StraysLate(chain, job, action, seen))
    ensures result.Ok? ==>
              && result.value ==
                   job.(status := result.value.status, updatedAt := seen(5).now, execution := result.value.execution)
              && FreshSnapshot(chain, action, seen(3).block, result.value.execution)
              && Writes(old(store.Contents()), store.Contents(), result.value, [])
  {
    HopsOfPrepare(job.commitment.mode);
    hide Do, At, Finished, Tracks, Local, FinishPrepare, IsLegalTransition, Snapshot, TryDecodeTransfer, BalanceAt,
      AuthorizationAt, FirstSelected, Protocol.Eligible, ChainOf, StatusOf, Writes, FreshSnapshot, Decides;
    steps, t := steps0, t0;
    var status := from;
    ghost var trail := trail0;

    steps, t := AwaitLocal(cfg, s, pid, steps, t, store.Contents(), PrepareBlock(job, trail, action), seen(3));
    PrepareBlockIs(cfg, chain, job, trail, action, seen(3));
    if seen(3).fails || seen(3).block >= |chain.blocks| { return Err(ReadFailed), steps, t; }
    var preStateBlock := seen(3).block;
    if TryDecodeTransfer(action.signature, action.calldata).None? {
      result, steps, t := FinishRun(store, cfg, job, status, PostconditionUnsupported, None, None, seen(3).now, seen(4),
                                    s, pid, steps, t, trail);
      return;
    }

    result, steps, t := SnapshotAndSimulate(store, cfg, chain, job, action, preStateBlock, status, seen, s, pid, steps,
                                            t, trail);
  }

  /** From VERIFYING_AUTHORIZATION on: the live bundle must still hash to the frozen hash. */
  method VerifyAuthorization(store: Memory.InMemoryFulfillmentJobStore, cfg: Config, chain: Chain, job: Job,
                             seen: nat -> Observation, ghost s: State, ghost pid: nat, ghost steps0: seq<Step>,
                             ghost t0: State, ghost trail: seq<Status>)
    returns (result: Result<Job, ActionError>, ghost steps: seq<Step>, ghost t: State)
    requires ChainOf(s, job) == chain
    requires At(cfg, s, pid, steps0, t0, store.Contents(), PrepareAuthorization(job, trail))
    requires trail != [] && trail[|trail| - 1].VerifyingAuthorization?
    modifies store
    ensures Finished(cfg, s, pid, steps, t, store.Contents())
    ensures result.Err? ==> store.Contents() == old(store.Contents())
    ensures StatusOf(old(store.Contents()), job.jobId) == Some(job.status) ==>
              && (result.Err? ==> result.error.ReadFailed? || result.error.Illegal?)
              && (forall to :: Ends(result, to) <==> BundleEnds(cfg, chain, job, seen, to))
              && (result == Err(Illegal) <==> StraysPast(cfg, chain, job, seen))
    ensures result.Ok? ==>
              LeavesLate(cfg, chain, job, seen, result.value) &&
              Writes(old(store.Contents()), store.Contents(), result.value, [])
  {
    HopsOfPrepare(job.commitment.mode);
    hide Do, At, Finished, Tracks, Local, FinishPrepare, IsLegalTransition, Snapshot, TryDecodeTransfer,
      AuthorizationAt, FirstSelected, ActionAt, Protocol.Eligible, ChainOf, StatusOf, Writes, FreshSnapshot, Decides,
      Captures, StraysLate;
    if AuthorizationAt(chain, job.commitment, seen(2).block).Some? {
      FirstIsActionAt(chain, job.commitment, seen(2).block);
    }
    steps, t := steps0, t0;
    var status := VerifyingAuthorization;
    steps, t := AwaitLocal(cfg, s, pid, steps, t, store.Contents(), PrepareAuthorization(job, trail), seen(2));
    PrepareAuthorizationIs(cfg, chain, job, trail, seen(2));
    var authorization := AuthorizationAt(chain, job.commitment, seen(2).block);
    if authorization.None? || seen(2).fails { return Err(ReadFailed), steps, t; }
    if cfg.authorizationHash(authorization.value) != job.commitment.frozenAuthorization {
      result, steps, t := FinishRun(store, cfg, job, status, RefusalPayloadMismatch, None, None, seen(2).now, seen(3),
                                    s, pid, steps, t, trail);
      return;
    }
    var selected := FirstSelected(job.commitment, authorization.value.actions);
    if selected.None? {
      result, steps, t := FinishRun(store, cfg, job, status, RefusalWorkflowPolicyViolation, None, None, seen(2).now,
                                    seen(3), s, pid, steps, t, trail);
      return;
    }
    var action := selected.value;
    var captured := Hopped(status, CapturingPrestate, None);
    if captured.None? { return Err(Illegal), steps, t; }
    result, steps, t := CaptureAndSimulate(store, cfg, chain, job, action, captured.value, seen, s, pid, steps, t,
                                           trail + [CapturingPrestate]);
  }

  lemma BundleEndsLate(cfg: Config, chain: Chain, job: Job, seen: nat -> Observation, to: Status)
    requires BundleEnds(cfg, chain, job, seen, to)
    ensures !Lifecycle(to)
  {
    hide StillFrozen, ActionAt, Captures, AuthorizationAt;
  }

  /** From WAITING_ELIGIBILITY on: the lifecycle check, and whatever follows from it. */
  method CheckLifecycle(store: Memory.InMemoryFulfillmentJobStore, cfg: Config, chain: Chain, job: Job,
                        seen: nat -> Observation, ghost s: State, ghost pid: nat, ghost steps0: seq<Step>,
                        ghost t0: State)
    returns (result: Result<Job, ActionError>, ghost steps: seq<Step>, ghost t: State)
    requires ChainOf(s, job) == chain && StatusOf(store.Contents(), job.jobId) == Some(job.status)
    requires At(cfg, s, pid, steps0, t0, store.Contents(), PrepareEligibility(job))
    modifies store
    ensures Finished(cfg, s, pid, steps, t, store.Contents())
    ensures result.Err? ==> store.Contents() == old(store.Contents())
    ensures result.Err? ==> result.error.ReadFailed? || result.error.Illegal?
    ensures forall to :: Ends(result, to) <==>
        Finds(chain, job.commitment, seen(1), to) && (Lifecycle(to) || BundleEnds(cfg, chain, job, seen, to))
    ensures result == Err(Illegal) <==>
        Finds(chain, job.commitment, seen(1), Executing) && StraysPast(cfg, chain, job, seen)
    ensures result.Ok? ==>
        Leaves(cfg, chain, job, seen, result.value) && Writes(old(store.Contents()), store.Contents(), result.value, [])
  {
    HopsOfPrepare(job.commitment.mode);
    hide Do, At, Finished, Tracks, Local, FinishPrepare, IsLegalTransition, Protocol.Eligible, Finds, BundleEnds,
      LeavesLate, StraysPast, Writes, StatusOf, ChainOf;
    var status := WaitingEligibility;
    ghost var trail := [Armed, WaitingEligibility];
    steps, t := AwaitLocal(cfg, s, pid, steps0, t0, store.Contents(), PrepareEligibility(job), seen(1));
    PrepareEligibilityIs(cfg, chain, job, seen(1));
    EligibleExactlyWhen(chain, job.commitment, seen(1));
    var read := Protocol.Eligible(chain, job.commitment, seen(1));
    if read.None? { return Err(ReadFailed), steps, t; }
    var eligibility := read.value.0;
    if eligibility.EligibleToExecute? || eligibility.AlreadyExecuted? {
      status := Status.Eligible;
      status := VerifyingLifecycle;
      trail := trail + [Status.Eligible, VerifyingLifecycle];
    }
    if eligibility.EligibleToExecute? {
      status := VerifyingAuthorization;
      result, steps, t := VerifyAuthorization(store, cfg, chain, job, seen, s, pid, steps, t,
                                              [Armed, WaitingEligibility] + [Status.Eligible, VerifyingLifecycle,
                                                                             VerifyingAuthorization]);
      if result.Ok? {
        assert Ends(result, result.value.status);
        BundleEndsLate(cfg, chain, job, seen, result.value.status);
      }
      return;
    }
    var to := match eligibility
      case TimelockPending => RefusalTimelockPending
      case Canceled => RefusalCanceled
      case NotExecutable => RefusalNotExecutable
      case _ => FulfilledExternallyUnverified;
    result, steps, t := FinishRun(store, cfg, job, status, to, None, None, seen(1).now, seen(2), s, pid, steps, t,
                                  trail);
  }

  /** The whole run, from ARMED to whichever status it ends in; a refusal is a result, not an error. */
  method PrepareJobForApproval(store: Memory.InMemoryFulfillmentJobStore, cfg: Config, chains: map<nat, Chain>,
                               jobId: JobId, seen: nat -> Observation, ghost s: State, ghost pid: nat)
    returns (result: Result<Job, ActionError>, ghost steps: seq<Step>, ghost t: State)
    requires Ready(s, pid, Prepare(jobId), store.Contents(), chains)
    requires jobId in store.Contents().jobs ==> store.Contents().jobs[jobId].jobId == jobId
    modifies store
    ensures Finished(cfg, s, pid, steps, t, store.Contents())
    ensures result.Err? ==> store.Contents() == old(store.Contents())
    ensures forall to :: Ends(result, to) <==>
        jobId in old(store.Contents()).jobs &&
        var job := old(store.Contents()).jobs[jobId];
        EndsIn(cfg, ChainFor(chains, job.commitment.chainId), job, seen, to)
    ensures result.Ok? ==>
        && jobId in old(store.Contents()).jobs
        && Leaves(cfg, ChainFor(chains, old(store.Contents()).jobs[jobId].commitment.chainId),
                  old(store.Contents()).jobs[jobId], seen, result.value)
        && Writes(old(store.Contents()), store.Contents(), result.value, [])
    ensures result == Err(JobNotFound) <==> jobId !in old(store.Contents()).jobs
    ensures forall st :: result == Err(JobNotArmed(st)) <==>
        jobId in old(store.Contents()).jobs && st == old(store.Contents()).jobs[jobId].status && !st.Armed?
    ensures result == Err(Illegal) <==>
        jobId in old(store.Contents()).jobs &&
        var job := old(store.Contents()).jobs[jobId];
        Strays(cfg, ChainFor(chains, job.commitment.chainId), job, seen)
    ensures result.Err? ==>
        result.error.JobNotFound? || result.error.JobNotArmed? || result.error.ReadFailed? || result.error.Illegal?
  {
    hide Do, At, Finished, Tracks, Finds, BundleEnds, Leaves, StraysPast, Writes, Lifecycle;
    steps, t := AwaitRead(cfg, s, pid, Prepare(jobId), seen(0));
    var found := store.Get(jobId);
    if found.None? { return Err(JobNotFound), steps, t; }
    var job := found.value;
    if !job.status.Armed? { return Err(JobNotArmed(job.status)), steps, t; }
    result, steps, t := CheckLifecycle(store, cfg, ChainFor(chains, job.commitment.chainId), job, seen, s, pid, steps,
                                       t);
  }
}
