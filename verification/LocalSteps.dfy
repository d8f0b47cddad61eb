/** Steps that only read the chain: what they compute is fit to be written. */
module LocalSteps {
  import opened Erc20
  import opened Governor
  import opened Grounds
  import opened Invariant
  import opened Jobs
  import opened Protocol
  import opened Receipts
  import opened StateMachine
  import opened Wrappers

  /** An edge that needs no mode is there under any mode. */
  lemma HopWalks(base: Job, trail: seq<Status>, at: Status, to: Status, mode: Option<Mode>)
    requires Walked(base, trail, at) && (mode.None? || mode.value == base.commitment.mode)
    ensures Hop(trail, to, mode).Some? ==> Walked(base, trail + [to], to)
  {
    if Hop(trail, to, mode).Some? {
      assert IsLegalTransition(at, to, Some(base.commitment.mode));
      PathExtends(trail, to, base.commitment.mode);
    }
  }

  ghost predicate OutcomeOk(cfg: Config, s: State, pid: nat, r: Outcome) {
    r.Go? ==> ProcOk(cfg, s, pid, r.proc)
  }

  lemma FinishPrepareOk(cfg: Config, s: State, pid: nat, base: Job, trail: seq<Status>, at: Status, to: Status,
                        mode: Option<Mode>, execution: Option<ExecutionState>, now: Timestamp)
    requires Fresh(s.store, base) && Walked(base, trail, at) && (mode.None? || mode.value == base.commitment.mode)
    requires PrepareRefusal(to) ||
             (to.AwaitingApproval? && execution.Some? && execution.value == Pristine(execution.value))
    requires Grounded(cfg, ChainOf(s, base), base.commitment, to, execution)
    ensures OutcomeOk(cfg, s, pid, FinishPrepare(base, trail, to, mode, execution, now))
  {
    hide IsPath, IsLegalTransition, Owns, Captured, Legit, Fresh, Pristine, PrepareRefusal, Grounded;
    if Hop(trail, to, mode).Some? {
      HopWalks(base, trail, at, to, mode);
      PrepareLegit(cfg, ChainOf(s, base), s.log, s.issued, base, to, execution, now);
    }
  }

  lemma PrepareLegit(cfg: Config, chain: Chain, log: seq<Dispatch>, issued: map<JobId, nat>, base: Job, to: Status,
                     execution: Option<ExecutionState>, now: Timestamp)
    requires base.status.Armed?
    requires PrepareRefusal(to) ||
             (to.AwaitingApproval? && execution.Some? && execution.value == Pristine(execution.value))
    requires Grounded(cfg, chain, base.commitment, to, execution)
    ensures Legit(cfg, chain, log, issued, base, base.(status := to, updatedAt := now, execution := execution), [])
    ensures Durable(to) && Rank(base.status) < Rank(to)
  {
    hide PrepareRefusal, Grounded;
    if PrepareRefusal(to) { RefusalsStandApart(to); }
  }

  lemma RouteIsNoRefusal()
    ensures !PrepareRefusal(Armed) && !PrepareRefusal(Executing) && !PrepareRefusal(WaitingFinality)
    ensures !PrepareRefusal(VerifyingGovernorState) && !PrepareRefusal(VerifyingPostcondition)
    ensures !PrepareRefusal(FulfilledVerified) && !PrepareRefusal(FulfilledUnverified)
  {
  }

  lemma RefusalsStandApart(st: Status)
    requires PrepareRefusal(st)
    ensures !st.Armed? && !st.DisarmedByUser? && !st.AwaitingApproval? && !PastApproval(st) && Rank(st) == 8
  {
    if st.RefusalTimelockPending? {} else if st.RefusalCanceled? {} else if st.RefusalNotExecutable? {}
    else if st.RefusalPayloadMismatch? {} else if st.RefusalSimulationRevert? {} else {}
  }

  /** What the lifecycle check came to is what the three reads warrant. */
  lemma EligibleMeans(chain: Chain, c: Commitment, o: Observation, to: Status)
    requires Protocol.Eligible(chain, c, o).Some?
    requires match Protocol.Eligible(chain, c, o).value.0
             case TimelockPending => to.RefusalTimelockPending?
             case Canceled => to.RefusalCanceled?
             case NotExecutable => to.RefusalNotExecutable?
             case AlreadyExecuted => to.FulfilledExternallyUnverified?
             case EligibleToExecute => to.Executing?
    ensures Seen(chain, c, to)
  {
    assert SeenAt(chain, c, to, o.block, o.recordBlock, o.clockBlock);
  }

  lemma SeenGrounds(cfg: Config, chain: Chain, c: Commitment, to: Status)
    requires Seen(chain, c, to) && (to.RefusalTimelockPending? || to.RefusalCanceled? || to.RefusalNotExecutable? ||
                                    to.FulfilledExternallyUnverified?)
    ensures Grounded(cfg, chain, c, to, None)
  {
    hide Seen;
  }

  /** Past the lifecycle check it is all one which status is at stake. */
  lemma SeenAlike(chain: Chain, c: Commitment, to: Status)
    requires Seen(chain, c, Executing)
    requires to.RefusalPayloadMismatch? || to.RefusalWorkflowPolicyViolation? || to.RefusalSimulationRevert? ||
             to.BlockedCallerNotAuthorized? || to.AwaitingApproval?
    ensures Seen(chain, c, to)
  {
    hide ViewAt;
    var b: nat, r: nat, k: nat :| SeenAt(chain, c, Executing, b, r, k);
    assert SeenAt(chain, c, to, b, r, k);
  }

  /** A check of the bundle that fails is ground for its refusal. */
  lemma MismatchGrounds(cfg: Config, chain: Chain, c: Commitment, b: nat)
    requires Seen(chain, c, Executing) && AuthorizationAt(chain, c, b).Some? && !StillFrozen(cfg, chain, c, b)
    ensures Grounded(cfg, chain, c, RefusalPayloadMismatch, None)
  {
    hide Seen, StillFrozen, AuthorizationAt;
    SeenAlike(chain, c, RefusalPayloadMismatch);
  }

  lemma SnapshotGrounds(cfg: Config, chain: Chain, c: Commitment, e: ExecutionState, to: Status)
    requires exists b: nat :: Captured(cfg, chain, c, e, b)
    requires to.RefusalWorkflowPolicyViolation? || to.RefusalSimulationRevert? || to.BlockedCallerNotAuthorized? ||
             to.AwaitingApproval?
    ensures Grounded(cfg, chain, c, to, Some(e))
  {
    hide Seen, Snapshots, StillFrozen, ActionAt;
    SeenAlike(chain, c, to);
  }

  lemma SnapshotIs(chain: Chain, action: Action, b: nat)
    ensures Snapshot(chain, action, b).Some? ==> Snapshots(chain, action, Snapshot(chain, action, b).value)
  {
  }

  lemma PrepareEligibilityOk(cfg: Config, s: State, pid: nat, base: Job, o: Observation)
    requires Fresh(s.store, base) && base.status.Armed?
    ensures OutcomeOk(cfg, s, pid, PrepareEligibilityStep(ChainOf(s, base), base, o))
  {
    hide OutcomeOk, FinishPrepare, Fresh, Protocol.Eligible, Seen, Grounded;
    var read := Protocol.Eligible(ChainOf(s, base), base.commitment, o);
    if read.None? {
      Simply(cfg, s, pid, FinalAuthorization(base));
      return;
    }
    var waiting := [Armed, WaitingEligibility];
    var lifecycle := waiting + [Status.Eligible, VerifyingLifecycle];
    assert IsPath(waiting, base.commitment.mode);
    assert IsPath(lifecycle, base.commitment.mode);
    assert IsPath(lifecycle + [VerifyingAuthorization], base.commitment.mode);
    assert waiting + [Status.Eligible, VerifyingLifecycle, VerifyingAuthorization] ==
             lifecycle + [VerifyingAuthorization];
    match read.value.0
    case EligibleToExecute =>
      EligibleMeans(ChainOf(s, base), base.commitment, o, Executing);
      Simply(cfg, s, pid, PrepareAuthorization(base, lifecycle + [VerifyingAuthorization]));
    case AlreadyExecuted =>
      EligibleEnds(cfg, s, pid, base, lifecycle, VerifyingLifecycle, FulfilledExternallyUnverified, o);
    case TimelockPending => EligibleEnds(cfg, s, pid, base, waiting, WaitingEligibility, RefusalTimelockPending, o);
    case Canceled => EligibleEnds(cfg, s, pid, base, waiting, WaitingEligibility, RefusalCanceled, o);
    case NotExecutable => EligibleEnds(cfg, s, pid, base, waiting, WaitingEligibility, RefusalNotExecutable, o);
  }

  lemma EligibleEnds(cfg: Config, s: State, pid: nat, base: Job, trail: seq<Status>, at: Status, to: Status,
                     o: Observation)
    requires Fresh(s.store, base) && Walked(base, trail, at)
    requires Protocol.Eligible(ChainOf(s, base), base.commitment, o).Some?
    requires match Protocol.Eligible(ChainOf(s, base), base.commitment, o).value.0
             case TimelockPending => to.RefusalTimelockPending?
             case Canceled => to.RefusalCanceled?
             case NotExecutable => to.RefusalNotExecutable?
             case AlreadyExecuted => to.FulfilledExternallyUnverified?
             case EligibleToExecute => false
    ensures OutcomeOk(cfg, s, pid, FinishPrepare(base, trail, to, None, None, o.now))
  {
    hide OutcomeOk, FinishPrepare, Fresh, Protocol.Eligible, Seen, Grounded, Walked;
    EligibleMeans(ChainOf(s, base), base.commitment, o, to);
    SeenGrounds(cfg, ChainOf(s, base), base.commitment, to);
    FinishPrepareOk(cfg, s, pid, base, trail, at, to, None, None, o.now);
  }

  /** Unfolds the two definitions for a process that is plainly well placed. */
  lemma Simply(cfg: Config, s: State, pid: nat, p: Proc)
    ensures ProcOk(cfg, s, pid, p) ==> OutcomeOk(cfg, s, pid, Go(p))
    ensures OutcomeOk(cfg, s, pid, Stop)
    ensures p.PrepareAuthorization? && Fresh(s.store, p.base) && Walked(p.base, p.trail, VerifyingAuthorization) &&
            Seen(ChainOf(s, p.base), p.base.commitment, Executing) ==>
              OutcomeOk(cfg, s, pid, Go(p))
    ensures p.PrepareBlock? && Fresh(s.store, p.base) && Walked(p.base, p.trail, CapturingPrestate) &&
            Carries(cfg, ChainOf(s, p.base), p.base.commitment, p.action) ==>
              OutcomeOk(cfg, s, pid, Go(p))
    ensures p.PrepareSnapshot? && Fresh(s.store, p.base) && Walked(p.base, p.trail, CapturingPrestate) &&
            Carries(cfg, ChainOf(s, p.base), p.base.commitment, p.action) ==>
              OutcomeOk(cfg, s, pid, Go(p))
    ensures p.PrepareSimulate? && Fresh(s.store, p.base) &&
            Walked(p.base, p.trail, Simulating) && p.execution == Pristine(p.execution) &&
            (exists b: nat :: Captured(cfg, ChainOf(s, p.base), p.base.commitment, p.execution, b)) ==>
              OutcomeOk(cfg, s, pid, Go(p))
  {
    hide Fresh, Walked, Seen, Captured, Carries;
  }

  /** The table has no edge from VERIFYING_AUTHORIZATION to this refusal, so the run ends with a throw. */
  lemma NoSuchEdge(base: Job, trail: seq<Status>, now: Timestamp)
    requires trail != [] && trail[|trail| - 1].VerifyingAuthorization?
    ensures FinishPrepare(base, trail, RefusalWorkflowPolicyViolation, None, None, now).Stop?
  {
  }

  lemma PrepareAuthorizationOk(cfg: Config, s: State, pid: nat, base: Job, trail: seq<Status>, o: Observation)
    requires Fresh(s.store, base) && Walked(base, trail, VerifyingAuthorization)
    requires Seen(ChainOf(s, base), base.commitment, Executing)
    ensures OutcomeOk(cfg, s, pid, PrepareAuthorizationStep(cfg, ChainOf(s, base), base, trail, o))
  {
    hide OutcomeOk, FinishPrepare, Fresh, AuthorizationAt, FirstSelected, ActionAt, Seen, Grounded;
    var chain, c := ChainOf(s, base), base.commitment;
    var auth := AuthorizationAt(chain, c, o.block);
    Simply(cfg, s, pid, FinalAuthorization(base));
    if auth.Some? {
      FirstIsActionAt(chain, c, o.block);
      if cfg.authorizationHash(auth.value) != c.frozenAuthorization {
        MismatchGrounds(cfg, chain, c, o.block);
        FinishPrepareOk(cfg, s, pid, base, trail, VerifyingAuthorization, RefusalPayloadMismatch, None, None, o.now);
      } else if ActionAt(chain, c, o.block).None? {
        assert FinishPrepare(base, trail, RefusalWorkflowPolicyViolation, None, None, o.now).Stop? by {
          NoSuchEdge(base, trail, o.now);
        }
      } else {
        HopWalks(base, trail, VerifyingAuthorization, CapturingPrestate, None);
        assert Carries(cfg, chain, c, ActionAt(chain, c, o.block).value);
        Simply(cfg, s, pid, PrepareBlock(base, trail + [CapturingPrestate], ActionAt(chain, c, o.block).value));
      }
    }
  }

  lemma PrepareBlockOk(cfg: Config, s: State, pid: nat, base: Job, trail: seq<Status>, action: Action, o: Observation)
    requires Fresh(s.store, base) && Walked(base, trail, CapturingPrestate)
    requires Carries(cfg, ChainOf(s, base), base.commitment, action)
    ensures OutcomeOk(cfg, s, pid, PrepareBlockStep(ChainOf(s, base), base, trail, action, o))
  {
    hide OutcomeOk, Fresh, TryDecodeTransfer, Carries;
    assert FinishPrepare(base, trail, PostconditionUnsupported, None, None, o.now).Stop?;
    Simply(cfg, s, pid, PrepareSnapshot(base, trail, action, o.block));
  }

  lemma SnapshotIsPristine(chain: Chain, action: Action, b: nat)
    ensures Snapshot(chain, action, b).Some? ==>
              Snapshot(chain, action, b).value == Pristine(Snapshot(chain, action, b).value) &&
              Snapshot(chain, action, b).value.preStateBlock == b && b < |chain.blocks|
  {
  }

  lemma CarriedIsCaptured(cfg: Config, chain: Chain, c: Commitment, action: Action, pre: nat)
    requires Carries(cfg, chain, c, action) && Snapshot(chain, action, pre).Some?
    ensures exists b: nat :: Captured(cfg, chain, c, Snapshot(chain, action, pre).value, b)
  {
    hide Seen, StillFrozen, ActionAt, Snapshot, Snapshots;
    SnapshotIs(chain, action, pre);
    var b: nat :| StillFrozen(cfg, chain, c, b) && ActionAt(chain, c, b) == Some(action);
    assert Captured(cfg, chain, c, Snapshot(chain, action, pre).value, b);
  }

  lemma PrepareSnapshotOk(cfg: Config, s: State, pid: nat, base: Job, trail: seq<Status>, action: Action, b: nat,
                          o: Observation)
    requires Fresh(s.store, base) && Walked(base, trail, CapturingPrestate)
    requires Carries(cfg, ChainOf(s, base), base.commitment, action)
    ensures OutcomeOk(cfg, s, pid, PrepareSnapshotStep(ChainOf(s, base), base, trail, action, b, o))
  {
    hide OutcomeOk, Fresh, Snapshot, Carries, Captured;
    HopWalks(base, trail, CapturingPrestate, Simulating, None);
    SnapshotIsPristine(ChainOf(s, base), action, b);
    Simply(cfg, s, pid, FinalAuthorization(base));
    if Snapshot(ChainOf(s, base), action, b).Some? {
      CarriedIsCaptured(cfg, ChainOf(s, base), base.commitment, action, b);
      Simply(cfg, s, pid, PrepareSimulate(base, trail + [Simulating], Snapshot(ChainOf(s, base), action, b).value));
    }
  }

  lemma PrepareSimulateOk(cfg: Config, s: State, pid: nat, base: Job, trail: seq<Status>, e: ExecutionState,
                          o: Observation)
    requires Fresh(s.store, base) && Walked(base, trail, Simulating) && e == Pristine(e)
    requires exists b: nat :: Captured(cfg, ChainOf(s, base), base.commitment, e, b)
    ensures OutcomeOk(cfg, s, pid, PrepareSimulateStep(base, trail, e, o))
  {
    hide OutcomeOk, FinishPrepare, Fresh, Walked, Captured, Grounded;
    assert trail != [] by { WalkedIsSome(base, trail, Simulating); }
    var chain, c := ChainOf(s, base), base.commitment;
    SnapshotGrounds(cfg, chain, c, e, RefusalWorkflowPolicyViolation);
    SnapshotGrounds(cfg, chain, c, e, RefusalSimulationRevert);
    SnapshotGrounds(cfg, chain, c, e, BlockedCallerNotAuthorized);
    SnapshotGrounds(cfg, chain, c, e, AwaitingApproval);
    FinishPrepareOk(cfg, s, pid, base, trail, Simulating, RefusalWorkflowPolicyViolation, None, Some(e), o.now);
    FinishPrepareOk(cfg, s, pid, base, trail, Simulating, RefusalSimulationRevert, None, Some(e), o.now);
    FinishPrepareOk(cfg, s, pid, base, trail, Simulating, BlockedCallerNotAuthorized, None, Some(e), o.now);
    FinishPrepareOk(cfg, s, pid, base, trail, Simulating, AwaitingApproval, Some(base.commitment.mode), Some(e), o.now);
    Simply(cfg, s, pid, FinalAuthorization(base));
  }

  lemma WalkedIsSome(base: Job, trail: seq<Status>, at: Status)
    requires Walked(base, trail, at)
    ensures trail != []
  {
  }

  /** The one-edge walk of every write outside prepare. */
  lemma OneEdge(base: Job, to: Status)
    requires IsLegalTransition(base.status, to, None)
    ensures Trail(base, [base.status, to], to) && IsPath([base.status, to], base.commitment.mode)
  {
    assert IsLegalTransition(base.status, to, Some(base.commitment.mode));
  }

  /** A legitimate write along a walk of the table may be attempted. */
  lemma CasingOk(cfg: Config, s: State, pid: nat, base: Job, next: Job, events: seq<Event>, trail: seq<Status>,
                 andThen: Then)
    requires Fresh(s.store, base) && !base.status.UnknownReconciling? && (base.status.Executing? ==> Owns(s, pid, base))
    requires Durable(next.status) && Rank(base.status) < Rank(next.status)
    requires Trail(base, trail, next.status) && IsPath(trail, base.commitment.mode)
    requires Legit(cfg, ChainOf(s, base), s.log, s.issued, base, next, events)
    requires !andThen.ClaimAndDispatch?
    requires andThen.Continue? ==>
               next.status.WaitingFinality? || next.status.VerifyingGovernorState? ||
               next.status.VerifyingPostcondition?
    ensures OutcomeOk(cfg, s, pid, Go(Casing(base, next, events, trail, andThen)))
  {
    hide Fresh, Owns, Durable, Rank, Trail, IsPath, Legit, Captured;
  }

  lemma ArmOk(cfg: Config, s: State, pid: nat, base: Job, actor: string, o: Observation)
    requires base.status.ReviewReady? ==> Fresh(s.store, base)
    ensures OutcomeOk(cfg, s, pid, Local(cfg, ChainOf(s, base), ArmAuthorization(base, actor), o))
  {
    hide Fresh, AuthorizationAt, IsPath, Bound, Judged, GovernorRead, Captured, Owns, PrepareRefusal;
    RouteIsNoRefusal();
    if base.status.ReviewReady? { OneEdge(base, Armed); }
  }

  lemma ApproveEligibilityOk(cfg: Config, s: State, pid: nat, base: Job, actor: string, o: Observation)
    requires Fresh(s.store, base) && base.status.AwaitingApproval?
    ensures OutcomeOk(cfg, s, pid, Local(cfg, ChainOf(s, base), ApproveEligibility(base, actor), o))
  {
    hide Fresh, CasOk, Owns, Captured, Seen, Protocol.Eligible;
    var read := Protocol.Eligible(ChainOf(s, base), base.commitment, o);
    if read.Some? && read.value.0.EligibleToExecute? {
      EligibleMeans(ChainOf(s, base), base.commitment, o, Executing);
    }
  }

  lemma ApproveAuthorizationOk(cfg: Config, s: State, pid: nat, base: Job, actor: string, o: Observation)
    requires Fresh(s.store, base) && base.status.AwaitingApproval? && Seen(ChainOf(s, base), base.commitment, Executing)
    ensures OutcomeOk(cfg, s, pid, ApproveAuthorizationStep(cfg, ChainOf(s, base), base, actor, o))
  {
    hide Fresh, CasOk, Owns, Captured, Seen, Grounded;
  }

  lemma ApproveSimulateOk(cfg: Config, s: State, pid: nat, base: Job, actor: string, actions: seq<Action>, b: nat,
                          o: Observation)
    requires Fresh(s.store, base) && base.status.AwaitingApproval?
    requires Checked(cfg, ChainOf(s, base), base.commitment, b, actions)
    ensures OutcomeOk(cfg, s, pid, ApproveSimulateStep(base, actor, actions, b, o))
  {
    hide Fresh, CasOk, Owns, Captured, Seen, Grounded, FirstSelected, ActionAt;
    FirstIsActionAt(ChainOf(s, base), base.commitment, b);
  }

  lemma ApproveSnapshotOk(cfg: Config, s: State, pid: nat, base: Job, actor: string, action: Action, b: nat, pre: nat,
                          o: Observation)
    requires Fresh(s.store, base) && base.status.AwaitingApproval?
    requires CheckedAction(cfg, ChainOf(s, base), base.commitment, b, action)
    ensures OutcomeOk(cfg, s, pid, ApproveSnapshotStep(ChainOf(s, base), base, actor, action, b, pre, o))
  {
    hide Fresh, Snapshot, IsPath, Bound, Judged, GovernorRead, Owns, StillFrozen, ActionAt, Seen, Snapshots, Grounded,
      PrepareRefusal;
    RouteIsNoRefusal();
    SnapshotIsPristine(ChainOf(s, base), action, pre);
    SnapshotIs(ChainOf(s, base), action, pre);
    OneEdge(base, Executing);
  }

  lemma NextPhaseOk(cfg: Config, s: State, pid: nat, job: Job, now: Timestamp)
    requires job.execution.Some? && (PastDispatch(job.status) ==> Fresh(s.store, job))
    requires job.status.VerifyingGovernorState? || job.status.VerifyingPostcondition? ==>
        FinalityMined(ChainOf(s, job), job)
    requires !job.status.Executing? && !job.status.UnknownReconciling?
    ensures OutcomeOk(cfg, s, pid, NextPhase(job, now))
  {
    hide Fresh, CasOk, Owns, Captured;
  }

  lemma WaitingLegit(cfg: Config, chain: Chain, log: seq<Dispatch>, issued: map<JobId, nat>, base: Job, next: Job)
    requires base.status.Reconciling? && base.execution.Some? && base.execution.value.transactionHash.Some?
    requires base.execution.value.transactionHash.value in chain.receipts
    requires var e := base.execution.value;
             next == base.(status := WaitingFinality, updatedAt := next.updatedAt,
                           execution := Some(e.(inclusionBlock := Some(chain.receipts[e.transactionHash.value].block))))
    ensures Legit(cfg, chain, log, issued, base, next, []) &&
            Durable(next.status) && Rank(base.status) < Rank(next.status)
  {
    hide Bound, Judged, GovernorRead, PrepareRefusal;
    RouteIsNoRefusal();
  }

  lemma ReconcileReceiptOk(cfg: Config, s: State, pid: nat, base: Job, o: Observation)
    requires Fresh(s.store, base) && base.status.Reconciling? && base.execution.Some?
    ensures OutcomeOk(cfg, s, pid, ReconcileReceiptStep(ChainOf(s, base), base, o))
  {
    hide Fresh, IsPath, Legit, Durable, Rank, OutcomeOk, Trail;
    OneEdge(base, WaitingFinality);
    var r := ReconcileReceiptStep(ChainOf(s, base), base, o);
    if r.Go? {
      WaitingLegit(cfg, ChainOf(s, base), s.log, s.issued, base, r.proc.next);
      CasingOk(cfg, s, pid, base, r.proc.next, [], r.proc.trail, Continue);
    } else {
      Simply(cfg, s, pid, FinalAuthorization(base));
    }
  }

  lemma ReconcileFinalityOk(cfg: Config, s: State, pid: nat, base: Job, attempt: nat, o: Observation)
    requires Fresh(s.store, base) && base.status.WaitingFinality? && base.execution.Some?
    ensures OutcomeOk(cfg, s, pid, ReconcileFinalityStep(ChainOf(s, base), base, attempt, o))
  {
    hide Fresh, IsPath, Bound, Judged, GovernorRead, Owns, Captured, PrepareRefusal;
    RouteIsNoRefusal();
    OneEdge(base, VerifyingGovernorState);
  }

  lemma EligibleSees(chain: Chain, c: Commitment, o: Observation)
    ensures Protocol.Eligible(chain, c, o).Some? ==>
        o.block < |chain.blocks| && StateSeen(chain, c, o.block, Protocol.Eligible(chain, c, o).value.1)
  {
  }

  lemma GovernorIsRead(cfg: Config, chain: Chain, base: Job, next: Job, attempt: nat, o: Observation)
    requires FinalityMined(chain, base) && ClosingRead(cfg, chain, ReconcileGovernor(base, attempt), o)
    requires o.block < |chain.blocks| && next.commitment == base.commitment && next.execution.Some?
    requires next.execution.value.finalityBlock == base.execution.value.finalityBlock
    requires next.execution.value.governorFinalState.Some?
    requires StateSeen(chain, base.commitment, o.block, next.execution.value.governorFinalState.value)
    ensures GovernorRead(cfg, chain, next, o.block)
  {
    hide StateSeen;
  }

  lemma GovernorLegit(cfg: Config, chain: Chain, log: seq<Dispatch>, issued: map<JobId, nat>, base: Job, next: Job,
                      b: nat)
    requires base.status.VerifyingGovernorState? && base.execution.Some? && next.execution.Some?
    requires next == base.(status := VerifyingPostcondition, updatedAt := next.updatedAt,
                           execution :=
                             Some(base.execution.value.(governorFinalState := next.execution.value.governorFinalState)))
    requires next.execution.value.governorFinalState.Some?
    requires FinalityMined(chain, base) && GovernorRead(cfg, chain, next, b)
    ensures Legit(cfg, chain, log, issued, base, next, []) &&
            Durable(next.status) && Rank(base.status) < Rank(next.status)
  {
    hide Bound, Judged, GovernorRead, PrepareRefusal;
    RouteIsNoRefusal();
  }

  lemma ReconcileGovernorOk(cfg: Config, s: State, pid: nat, base: Job, attempt: nat, o: Observation)
    requires Fresh(s.store, base) && base.status.VerifyingGovernorState? && FinalityMined(ChainOf(s, base), base)
    requires ClosingRead(cfg, ChainOf(s, base), ReconcileGovernor(base, attempt), o)
    ensures OutcomeOk(cfg, s, pid, ReconcileGovernorStep(ChainOf(s, base), base, attempt, o))
  {
    hide Fresh, IsPath, Legit, Durable, Rank, OutcomeOk, Trail, GovernorRead, StateSeen, Protocol.Eligible;
    OneEdge(base, VerifyingPostcondition);
    EligibleSees(ChainOf(s, base), base.commitment, o);
    var r := ReconcileGovernorStep(ChainOf(s, base), base, attempt, o);
    if r.Go? && r.proc.Casing? {
      GovernorIsRead(cfg, ChainOf(s, base), base, r.proc.next, attempt, o);
      GovernorLegit(cfg, ChainOf(s, base), s.log, s.issued, base, r.proc.next, o.block);
      CasingOk(cfg, s, pid, base, r.proc.next, [], r.proc.trail, Continue);
    } else if r.Go? {
      Rechecks(cfg, s, pid, base, attempt + 1);
    } else {
      Simply(cfg, s, pid, FinalAuthorization(base));
    }
  }

  lemma Rechecks(cfg: Config, s: State, pid: nat, base: Job, attempt: nat)
    requires Fresh(s.store, base) && base.status.VerifyingGovernorState? && FinalityMined(ChainOf(s, base), base)
    ensures OutcomeOk(cfg, s, pid, Go(ReconcileGovernor(base, attempt)))
  {
    hide Fresh;
  }

  lemma FinalAuthorizationOk(cfg: Config, s: State, pid: nat, base: Job, o: Observation)
    requires Fresh(s.store, base) && base.status.VerifyingPostcondition? && FinalityMined(ChainOf(s, base), base)
    requires ClosingRead(cfg, ChainOf(s, base), FinalAuthorization(base), o)
    ensures OutcomeOk(cfg, s, pid, Local(cfg, ChainOf(s, base), FinalAuthorization(base), o))
  {
    hide Fresh, CasOk, Owns, Captured;
  }

  /** The verdict and the receipt look at the commitment and the execution record, not at status or receipt. */
  lemma JudgedAsWritten(cfg: Config, chain: Chain, base: Job, actions: seq<Action>, b: nat, verified: bool, r: Receipt,
                        to: Status, now: Timestamp)
    requires base.execution.Some? && base.execution.value.governorFinalState.Some?
    requires AuthorizationAt(chain, base.commitment, b) == Some(AuthorizationOf(base.commitment, actions))
    requires FinalVerdict(chain, base, actions) == Some(verified) && AtEnd(cfg, base, b)
    requires |base.commitment.selectedActionIndexes| > 0
    requires base.execution.value.transactionHash.Some? && base.execution.value.inclusionBlock.Some?
    requires r == FinalReceipt(base, cfg.authorizationHash(AuthorizationOf(base.commitment, actions)), verified, now)
    ensures Judged(cfg, chain, base.(status := to, updatedAt := now, receipt := Some(r)), b)
  {
    hide AuthorizationAt, Verdict, BalanceAt, TryDecodeTransfer;
  }

  lemma VerdictNeeds(chain: Chain, base: Job, actions: seq<Action>)
    requires base.execution.Some? && FinalVerdict(chain, base, actions).Some?
    ensures |base.commitment.selectedActionIndexes| > 0
    ensures base.execution.value.transactionHash.Some? && base.execution.value.inclusionBlock.Some?
  {
    hide Verdict, BalanceAt, TryDecodeTransfer;
  }

  lemma FinalLegit(cfg: Config, chain: Chain, log: seq<Dispatch>, issued: map<JobId, nat>, base: Job, next: Job, b: nat)
    requires base.status.VerifyingPostcondition? && SameIdentity(base, next) && next.execution == base.execution
    requires Terminal(next.status) && next.receipt.Some? &&
             (next.status.FulfilledVerified? <==> next.receipt.value.status.Verified?)
    requires Judged(cfg, chain, next, b)
    ensures Legit(cfg, chain, log, issued, base, next, []) &&
            Durable(next.status) && Rank(base.status) < Rank(next.status)
  {
    hide Bound, Judged, GovernorRead, PrepareRefusal;
    RouteIsNoRefusal();
  }

  lemma FinalVerifyOk(cfg: Config, s: State, pid: nat, base: Job, actions: seq<Action>, b: nat, o: Observation)
    requires Fresh(s.store, base) && base.status.VerifyingPostcondition? && AtEnd(cfg, base, b)
    requires AuthorizationAt(ChainOf(s, base), base.commitment, b) == Some(AuthorizationOf(base.commitment, actions))
    ensures OutcomeOk(cfg, s, pid, FinalVerifyStep(cfg, ChainOf(s, base), base, actions, o))
  {
    hide Fresh, IsPath, Judged, Legit, Durable, Rank, OutcomeOk, AuthorizationAt, FinalVerdict, ReconcileForReceipt,
      Legs, Trail;
    var chain := ChainOf(s, base);
    OneEdge(base, FulfilledVerified);
    OneEdge(base, FulfilledUnverified);
    Simply(cfg, s, pid, FinalAuthorization(base));
    if base.execution.Some? && base.execution.value.governorFinalState.Some? &&
       FinalVerdict(chain, base, actions).Some? {
      VerdictNeeds(chain, base, actions);
      var verified := FinalVerdict(chain, base, actions).value;
      var r := FinalReceipt(base, cfg.authorizationHash(AuthorizationOf(base.commitment, actions)), verified, o.now);
      var to := if r.status.Verified? then FulfilledVerified else FulfilledUnverified;
      var next := base.(status := to, updatedAt := o.now, receipt := Some(r));
      JudgedAsWritten(cfg, chain, base, actions, b, verified, r, to, o.now);
      FinalLegit(cfg, chain, s.log, s.issued, base, next, b);
      CasingOk(cfg, s, pid, base, next, [], [base.status, to], Finish);
    }
  }
}
