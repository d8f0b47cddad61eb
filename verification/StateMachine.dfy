/** The fulfilment status table and what every path through it must pass. */
module StateMachine {
  import opened Wrappers

  datatype Mode = Auto | Approve

  datatype Status =
    | New | CactusResolved | AuthorizationResolved | PostconditionBound | ReviewReady
    | Armed | WaitingEligibility | Eligible | VerifyingLifecycle | VerifyingAuthorization
    | CapturingPrestate | Simulating | AwaitingApproval | Executing | Reconciling
    | WaitingFinality | VerifyingGovernorState | VerifyingPostcondition | FulfilledVerified
    | RefusalTimelockPending | RefusalCanceled | RefusalNotExecutable | RefusalPayloadMismatch
    | RefusalSimulationRevert | RefusalWorkflowPolicyViolation | DuplicateSuppressed
    | BlockedInsufficientGas | BlockedCallerNotAuthorized | UnknownReconciling
    | FulfilledExternallyVerified | FulfilledExternallyUnverified | FulfilledUnverified
    | PostconditionUnsupported | DisarmedByUser | CactusResolutionFailed
    | AuthorizationResolutionFailed | GovernorExecutionConfirmed

  /** Edges that are legal whatever the mode, row by row; a status without a row has none. */
  predicate UnconditionalEdge(from: Status, to: Status) {
    match from
    case New => to.CactusResolved? || to.CactusResolutionFailed?
    case CactusResolved => to.AuthorizationResolved? || to.AuthorizationResolutionFailed?
    case AuthorizationResolved => to.PostconditionBound? || to.PostconditionUnsupported?
    case PostconditionBound => to.ReviewReady?
    case ReviewReady => to.Armed?
    case Armed => to.WaitingEligibility? || to.DisarmedByUser?
    case WaitingEligibility =>
      to.Eligible? || to.RefusalTimelockPending? || to.RefusalCanceled? ||
      to.RefusalNotExecutable? || to.DisarmedByUser?
    case RefusalTimelockPending => to.WaitingEligibility?
    case Eligible => to.VerifyingLifecycle? || to.DisarmedByUser?
    case VerifyingLifecycle =>
      to.VerifyingAuthorization? || to.RefusalCanceled? || to.RefusalNotExecutable? || to.RefusalTimelockPending? ||
      to.FulfilledExternallyVerified? || to.FulfilledExternallyUnverified?
    case VerifyingAuthorization => to.CapturingPrestate? || to.RefusalPayloadMismatch?
    case CapturingPrestate => to.Simulating?
    case Simulating =>
      to.RefusalSimulationRevert? || to.BlockedInsufficientGas? || to.RefusalWorkflowPolicyViolation? ||
      to.BlockedCallerNotAuthorized? || to.DuplicateSuppressed?
    case AwaitingApproval => to.Executing? || to.DisarmedByUser?
    case Executing => to.Reconciling? || to.UnknownReconciling? || to.DuplicateSuppressed?
    case Reconciling => to.WaitingFinality? || to.UnknownReconciling?
    case UnknownReconciling => to.Reconciling? || to.WaitingFinality?
    case WaitingFinality => to.VerifyingGovernorState?
    case VerifyingGovernorState => to.VerifyingPostcondition? || to.GovernorExecutionConfirmed?
    case GovernorExecutionConfirmed => to.VerifyingPostcondition?
    case VerifyingPostcondition => to.FulfilledVerified? || to.FulfilledUnverified?
    case _ => false
  }

  /**
   * The table. The one mode-dependent branch point is SIMULATING: with no mode given, or the other mode's
   * target, the move is illegal.
   */
  predicate IsLegalTransition(from: Status, to: Status, mode: Option<Mode>) {
    || UnconditionalEdge(from, to)
    || (from.Simulating? && to.AwaitingApproval? && mode.Some? && mode.value.Approve?)
    || (from.Simulating? && to.Executing? && mode.Some? && mode.value.Auto?)
  }

  /** The same table read by target: where each status can be entered from. */
  predicate EnteredFrom(to: Status, from: Status, mode: Option<Mode>) {
    match to
    case New => false
    case CactusResolved | CactusResolutionFailed => from.New?
    case AuthorizationResolved | AuthorizationResolutionFailed => from.CactusResolved?
    case PostconditionBound | PostconditionUnsupported => from.AuthorizationResolved?
    case ReviewReady => from.PostconditionBound?
    case Armed => from.ReviewReady?
    case WaitingEligibility => from.Armed? || from.RefusalTimelockPending?
    case DisarmedByUser => from.Armed? || from.WaitingEligibility? || from.Eligible? || from.AwaitingApproval?
    case Eligible => from.WaitingEligibility?
    case RefusalTimelockPending | RefusalCanceled | RefusalNotExecutable =>
      from.WaitingEligibility? || from.VerifyingLifecycle?
    case VerifyingLifecycle => from.Eligible?
    case VerifyingAuthorization | FulfilledExternallyVerified | FulfilledExternallyUnverified =>
      from.VerifyingLifecycle?
    case CapturingPrestate | RefusalPayloadMismatch => from.VerifyingAuthorization?
    case Simulating => from.CapturingPrestate?
    case RefusalSimulationRevert | BlockedInsufficientGas => from.Simulating?
    case RefusalWorkflowPolicyViolation | BlockedCallerNotAuthorized => from.Simulating?
    case AwaitingApproval => from.Simulating? && mode == Some(Approve)
    case Executing => from.AwaitingApproval? || (from.Simulating? && mode == Some(Auto))
    case DuplicateSuppressed => from.Simulating? || from.Executing?
    case Reconciling => from.Executing? || from.UnknownReconciling?
    case UnknownReconciling => from.Executing? || from.Reconciling?
    case WaitingFinality => from.Reconciling? || from.UnknownReconciling?
    case VerifyingGovernorState => from.WaitingFinality?
    case GovernorExecutionConfirmed => from.VerifyingGovernorState?
    case VerifyingPostcondition => from.VerifyingGovernorState? || from.GovernorExecutionConfirmed?
    case FulfilledVerified | FulfilledUnverified => from.VerifyingPostcondition?
  }

  predicate BeforeArming(st: Status) {
    st.New? || st.CactusResolved? || st.AuthorizationResolved? || st.PostconditionBound? || st.ReviewReady?
  }

  lemma EarlyRows(from: Status, to: Status, mode: Option<Mode>)
    requires BeforeArming(from)
    ensures IsLegalTransition(from, to, mode) <==> EnteredFrom(to, from, mode)
  {
  }

  predicate Waiting(st: Status) {
    st.Armed? || st.WaitingEligibility? || st.RefusalTimelockPending? || st.Eligible?
  }

  lemma WaitingRows(from: Status, to: Status, mode: Option<Mode>)
    requires Waiting(from)
    ensures IsLegalTransition(from, to, mode) <==> EnteredFrom(to, from, mode)
  {
  }

  lemma GateRows(from: Status, to: Status, mode: Option<Mode>)
    requires PreExecution(from) && !BeforeArming(from) && !Waiting(from)
    ensures IsLegalTransition(from, to, mode) <==> EnteredFrom(to, from, mode)
  {
  }

  lemma LateRows(from: Status, to: Status, mode: Option<Mode>)
    requires !PreExecution(from) && !Waiting(from) && !Sink(from)
    ensures IsLegalTransition(from, to, mode) <==> EnteredFrom(to, from, mode)
  {
  }

  lemma SinkRows(from: Status, to: Status, mode: Option<Mode>)
    requires Sink(from)
    ensures !IsLegalTransition(from, to, mode) && !EnteredFrom(to, from, mode)
  {
  }

  lemma TableByTarget(from: Status, to: Status, mode: Option<Mode>)
    ensures IsLegalTransition(from, to, mode) <==> EnteredFrom(to, from, mode)
  {
    hide IsLegalTransition, EnteredFrom;
    if BeforeArming(from) {
      EarlyRows(from, to, mode);
    } else if Waiting(from) {
      WaitingRows(from, to, mode);
    } else if PreExecution(from) {
      GateRows(from, to, mode);
    } else if Sink(from) {
      SinkRows(from, to, mode);
    } else {
      LateRows(from, to, mode);
    }
  }

  datatype IllegalTransition = IllegalTransition(from: Status, to: Status)

  /** Every status the application assigns goes through here; anything off the table throws. */
  function Transition(from: Status, to: Status, mode: Option<Mode>): (r: Result<Status, IllegalTransition>) {
    if IsLegalTransition(from, to, mode) then Ok(to) else Err(IllegalTransition(from, to))
  }

  /** A walk through the table under one job's mode. */
  ghost predicate IsPath(p: seq<Status>, mode: Mode) {
    |p| > 0 && forall i :: 0 < i < |p| ==> IsLegalTransition(p[i - 1], p[i], Some(mode))
  }

  ghost predicate Connects(p: seq<Status>, from: Status, to: Status, mode: Mode) {
    IsPath(p, mode) && p[0] == from && p[|p| - 1] == to
  }

  /** Some walk of the table leads from one status to the other. */
  ghost predicate Reaches(from: Status, to: Status, mode: Mode) {
    exists p :: Connects(p, from, to, mode)
  }

  lemma PathExtends(p: seq<Status>, to: Status, mode: Mode)
    requires IsPath(p, mode) && IsLegalTransition(p[|p| - 1], to, Some(mode))
    ensures IsPath(p + [to], mode)
  {
  }

  // ------------------------------------------------------------------ dominators

  /** How far along the route to FULFILLED_VERIFIED a status lies; only meaningful where an edge leaves it. */
  function Stage(st: Status): nat {
    match st
    case Armed => 1
    case WaitingEligibility => 2
    case RefusalTimelockPending => 2
    case Eligible => 2
    case VerifyingLifecycle => 2
    case VerifyingAuthorization => 3
    case CapturingPrestate => 4
    case Simulating => 5
    case AwaitingApproval => 6
    case Executing => 7
    case Reconciling => 8
    case UnknownReconciling => 8
    case WaitingFinality => 9
    case VerifyingGovernorState => 10
    case GovernorExecutionConfirmed => 10
    case VerifyingPostcondition => 11
    case FulfilledVerified => 12
    case _ => 0
  }

  /** Nothing leaves these under any mode; TERMINAL_STATUSES minus REFUSAL_TIMELOCK_PENDING. */
  predicate Sink(st: Status) {
    !st.New? && !st.CactusResolved? && !st.AuthorizationResolved? && !st.PostconditionBound? &&
    !st.ReviewReady? && !st.Armed? && !st.WaitingEligibility? && !st.Eligible? && !st.VerifyingLifecycle? &&
    !st.VerifyingAuthorization? && !st.CapturingPrestate? && !st.Simulating? && !st.AwaitingApproval? &&
    !st.Executing? && !st.Reconciling? && !st.WaitingFinality? && !st.VerifyingGovernorState? &&
    !st.VerifyingPostcondition? && !st.RefusalTimelockPending? && !st.UnknownReconciling? &&
    !st.GovernorExecutionConfirmed?
  }

  /** Statuses alone on their stage. */
  predicate Bottleneck(st: Status) {
    st.Armed? || st.VerifyingAuthorization? || st.CapturingPrestate? || st.Simulating? ||
    st.AwaitingApproval? || st.Executing? || st.WaitingFinality? || st.VerifyingPostcondition?
  }

  lemma OnlySinksEnd(from: Status, to: Status, mode: Mode)
    requires IsLegalTransition(from, to, Some(mode))
    ensures !Sink(from)
  {
  }

  lemma NoSelfLoop(from: Status, to: Status, mode: Mode)
    requires IsLegalTransition(from, to, Some(mode))
    ensures from != to
  {
  }

  /** Stages never fall along an edge into a status that can still move, or into the goal. */
  lemma EdgeClimbs(from: Status, to: Status, mode: Mode)
    requires IsLegalTransition(from, to, Some(mode)) && (!Sink(to) || to.FulfilledVerified?)
    ensures Stage(from) <= Stage(to)
  {
  }

  /** Only AUTO's edge past the approval gate climbs more than one stage. */
  lemma EdgeClimbsOne(from: Status, to: Status, mode: Mode)
    requires IsLegalTransition(from, to, Some(mode))
    ensures Stage(to) <= Stage(from) + 1 || (mode.Auto? && from.Simulating? && to.Executing?)
  {
  }

  ghost predicate Fulfils(p: seq<Status>, mode: Mode) {
    IsPath(p, mode) && p[|p| - 1].FulfilledVerified?
  }

  lemma {:induction false} StagesClimb(p: seq<Status>, mode: Mode, i: nat, j: nat)
    requires Fulfils(p, mode) && i <= j < |p|
    ensures Stage(p[i]) <= Stage(p[j]) && (j < |p| - 1 ==> !Sink(p[j]))
    decreases j - i
  {
    if j < |p| - 1 { OnlySinksEnd(p[j], p[j + 1], mode); }
    if i < j {
      StagesClimb(p, mode, i, j - 1);
      EdgeClimbs(p[j - 1], p[j], mode);
    }
  }

  /** A stage between the ends that no edge can jump is visited. */
  lemma {:induction false} StageVisited(p: seq<Status>, mode: Mode, from: nat, k: nat)
    requires Fulfils(p, mode) && from < |p|
    requires Stage(p[from]) <= k <= 12 && (k == 6 ==> mode.Approve?)
    ensures exists i :: from <= i < |p| && Stage(p[i]) == k
    decreases |p| - from
  {
    if Stage(p[from]) < k {
      assert from < |p| - 1;
      EdgeClimbsOne(p[from], p[from + 1], mode);
      StageVisited(p, mode, from + 1, k);
    }
  }

  /** A path to FULFILLED_VERIFIED meets a bottleneck at most once, cycles included. */
  lemma BottleneckOnce(p: seq<Status>, mode: Mode, i: nat, j: nat)
    requires Fulfils(p, mode) && i <= j < |p|
    requires p[i] == p[j] && Bottleneck(p[i])
    ensures i == j
  {
    if i < j {
      StagesClimb(p, mode, i, i + 1);
      StagesClimb(p, mode, i + 1, j);
      StagesClimb(p, mode, i + 1, i + 1);
      EdgeClimbs(p[i], p[i + 1], mode);
      NoSelfLoop(p[i], p[i + 1], mode);
    }
  }

  ghost predicate ExactlyOnce(p: seq<Status>, st: Status) {
    exists i :: 0 <= i < |p| && p[i] == st && forall j :: 0 <= j < |p| && p[j] == st ==> j == i
  }

  lemma BottleneckExactlyOnce(p: seq<Status>, mode: Mode, st: Status)
    requires Connects(p, New, FulfilledVerified, mode) && Bottleneck(st)
    requires st.AwaitingApproval? ==> mode.Approve?
    ensures ExactlyOnce(p, st)
  {
    StageVisited(p, mode, 0, Stage(st));
    var i :| 0 <= i < |p| && Stage(p[i]) == Stage(st);
    assert p[i] == st;
    forall j | 0 <= j < |p| && p[j] == st ensures j == i {
      if i <= j { BottleneckOnce(p, mode, i, j); } else { BottleneckOnce(p, mode, j, i); }
    }
  }

  /**
   * MARKED cannot be reached around any gate, whatever cycles the path takes: every bottleneck is passed
   * exactly once, the approval gate in APPROVE mode only.
   */
  lemma FulfilledPathsPassEveryGate(p: seq<Status>, mode: Mode)
    requires Connects(p, New, FulfilledVerified, mode)
    ensures forall st :: Bottleneck(st) && (st.AwaitingApproval? ==> mode.Approve?) ==> ExactlyOnce(p, st)
    ensures mode.Auto? ==> AwaitingApproval !in p
  {
    forall st | Bottleneck(st) && (st.AwaitingApproval? ==> mode.Approve?) ensures ExactlyOnce(p, st) {
      BottleneckExactlyOnce(p, mode, st);
    }
    forall i | 0 <= i < |p| && mode.Auto? ensures !p[i].AwaitingApproval? {
      if i > 0 { assert IsLegalTransition(p[i - 1], p[i], Some(mode)); }
    }
  }

  // ------------------------------------------------------------------ recovery

  /** What lies at or behind EXECUTING. */
  predicate AfterDispatch(st: Status) {
    st.Executing? || st.Reconciling? || st.UnknownReconciling? || st.DuplicateSuppressed? ||
    st.WaitingFinality? || st.VerifyingGovernorState? || st.GovernorExecutionConfirmed? ||
    st.VerifyingPostcondition? || st.FulfilledVerified? || st.FulfilledUnverified?
  }

  lemma {:induction false} AfterDispatchStays(p: seq<Status>, mode: Mode, i: nat, j: nat)
    requires IsPath(p, mode) && i <= j < |p| && AfterDispatch(p[i])
    ensures AfterDispatch(p[j])
    decreases j - i
  {
    if i < j {
      AfterDispatchStays(p, mode, i, j - 1);
      assert IsLegalTransition(p[j - 1], p[j], Some(mode));
    }
  }

  /** Statuses from which a restarted process is told it may resume. */
  predicate PreExecution(st: Status) {
    st.New? || st.CactusResolved? || st.AuthorizationResolved? || st.PostconditionBound? || st.ReviewReady? ||
    st.Armed? || st.WaitingEligibility? || st.Eligible? || st.VerifyingLifecycle? ||
    st.VerifyingAuthorization? || st.CapturingPrestate? || st.Simulating? || st.AwaitingApproval?
  }

  predicate SafeToResume(st: Status) {
    PreExecution(st)
  }

  /** Statuses nobody may call a dispatched job by, yet which the classifier calls "at or past EXECUTING". */
  predicate RefusedBeforeDispatch(st: Status) {
    st.RefusalTimelockPending? || st.RefusalCanceled? || st.RefusalNotExecutable? ||
    st.RefusalPayloadMismatch? || st.RefusalSimulationRevert? || st.RefusalWorkflowPolicyViolation? ||
    st.BlockedInsufficientGas? || st.BlockedCallerNotAuthorized? || st.FulfilledExternallyVerified? ||
    st.FulfilledExternallyUnverified? || st.PostconditionUnsupported? || st.DisarmedByUser? ||
    st.CactusResolutionFailed? || st.AuthorizationResolutionFailed?
  }

  lemma OneBefore(from: Status, next: Status, to: Status, mode: Mode)
    requires IsLegalTransition(from, next, Some(mode)) && Reaches(next, to, mode)
    ensures Reaches(from, to, mode)
  {
    hide IsLegalTransition;
    var p :| Connects(p, next, to, mode);
    var q := [from] + p;
    assert forall i :: 0 < i < |p| ==> q[i] == p[i - 1] && q[i + 1] == p[i];
    assert IsPath(q, mode) by {
      forall i | 0 < i < |q| ensures IsLegalTransition(q[i - 1], q[i], Some(mode)) {
        if i > 1 { assert IsLegalTransition(p[i - 2], p[i - 1], Some(mode)); }
      }
    }
    assert Connects(q, from, to, mode);
  }

  lemma GateLeadsOn(mode: Mode)
    ensures Reaches(Executing, Executing, mode) && Reaches(AwaitingApproval, Executing, mode)
    ensures Reaches(Simulating, Executing, mode) && Reaches(CapturingPrestate, Executing, mode)
    ensures Reaches(VerifyingAuthorization, Executing, mode) && Reaches(VerifyingLifecycle, Executing, mode)
    ensures Reaches(Eligible, Executing, mode)
  {
    hide Reaches;
    RouteReaches(1, mode);
    OneBefore(AwaitingApproval, Executing, Executing, mode);
    OneBefore(Simulating, if mode.Auto? then Executing else AwaitingApproval, Executing, mode);
    OneBefore(CapturingPrestate, Simulating, Executing, mode);
    OneBefore(VerifyingAuthorization, CapturingPrestate, Executing, mode);
    OneBefore(VerifyingLifecycle, VerifyingAuthorization, Executing, mode);
    OneBefore(Eligible, VerifyingLifecycle, Executing, mode);
  }

  lemma ReviewLeadsOn(mode: Mode)
    ensures Reaches(WaitingEligibility, Executing, mode) && Reaches(Armed, Executing, mode)
    ensures Reaches(ReviewReady, Executing, mode) && Reaches(PostconditionBound, Executing, mode)
    ensures Reaches(AuthorizationResolved, Executing, mode) && Reaches(CactusResolved, Executing, mode)
    ensures Reaches(New, Executing, mode)
  {
    hide Reaches;
    GateLeadsOn(mode);
    OneBefore(WaitingEligibility, Eligible, Executing, mode);
    OneBefore(Armed, WaitingEligibility, Executing, mode);
    OneBefore(ReviewReady, Armed, Executing, mode);
    OneBefore(PostconditionBound, ReviewReady, Executing, mode);
    OneBefore(AuthorizationResolved, PostconditionBound, Executing, mode);
    OneBefore(CactusResolved, AuthorizationResolved, Executing, mode);
    OneBefore(New, CactusResolved, Executing, mode);
  }

  /** From every status before EXECUTING the table leads there, in either mode. */
  lemma LeadsToExecuting(st: Status, mode: Mode)
    requires PreExecution(st)
    ensures Reaches(st, Executing, mode)
  {
    hide Reaches;
    GateLeadsOn(mode);
    ReviewLeadsOn(mode);
  }

  lemma DeadEnd(st: Status, mode: Mode)
    requires RefusedBeforeDispatch(st) && !st.RefusalTimelockPending?
    ensures !Reaches(st, Executing, mode)
  {
    forall p | |p| > 1 && p[0] == st ensures !IsPath(p, mode) {
      assert !IsLegalTransition(st, p[1], Some(mode));
    }
  }

  /**
   * A restarted process is told it may resume exactly where a dispatch may still lie ahead and cannot lie behind, but
   * for the one refusal that is not final.
   */
  lemma SafeToResumeExactlyWhen(st: Status, mode: Mode)
    ensures SafeToResume(st) <==>
              Reaches(st, Executing, mode) && !Reaches(Executing, st, mode) && !st.RefusalTimelockPending?
  {
    hide Reaches;
    if PreExecution(st) {
      LeadsToExecuting(st, mode);
      assert !Reaches(Executing, st, mode) by { NeverBack(st, mode); }
    } else if RefusedBeforeDispatch(st) {
      if !st.RefusalTimelockPending? { DeadEnd(st, mode); }
    } else {
      DispatchReaches(st, mode);
    }
  }

  lemma NeverBack(st: Status, mode: Mode)
    requires !AfterDispatch(st)
    ensures !Reaches(Executing, st, mode)
  {
    forall p | Connects(p, Executing, st, mode) ensures false {
      AfterDispatchStays(p, mode, 0, |p| - 1);
    }
  }

  /** Nothing that entered EXECUTING is ever disarmed or reported safe to resume, on any path. */
  lemma DispatchIsIrrevocable(p: seq<Status>, mode: Mode, i: nat, j: nat)
    requires IsPath(p, mode) && i <= j < |p| && p[i].Executing?
    ensures !p[j].DisarmedByUser? && !SafeToResume(p[j])
  {
    AfterDispatchStays(p, mode, i, j);
  }

  const ROUTE := [Executing, Reconciling, WaitingFinality, VerifyingGovernorState, VerifyingPostcondition]

  lemma RouteReaches(n: nat, mode: Mode)
    requires 1 <= n <= 5
    ensures Reaches(Executing, ROUTE[n - 1], mode)
  {
    assert Connects(ROUTE[..n], Executing, ROUTE[n - 1], mode);
  }

  lemma OneMore(from: Status, at: Status, to: Status, mode: Mode)
    requires Reaches(from, at, mode) && IsLegalTransition(at, to, Some(mode))
    ensures Reaches(from, to, mode)
  {
    hide IsLegalTransition;
    var p :| Connects(p, from, at, mode);
    PathExtends(p, to, mode);
    assert Connects(p + [to], from, to, mode);
  }

  lemma DispatchReaches(st: Status, mode: Mode)
    requires AfterDispatch(st)
    ensures Reaches(Executing, st, mode)
  {
    hide Reaches;
    RouteReaches(1, mode);
    RouteReaches(2, mode);
    RouteReaches(3, mode);
    RouteReaches(4, mode);
    RouteReaches(5, mode);
    if st.UnknownReconciling? || st.DuplicateSuppressed? {
      OneMore(Executing, Executing, st, mode);
    } else if st.GovernorExecutionConfirmed? {
      OneMore(Executing, VerifyingGovernorState, st, mode);
    } else if st.FulfilledVerified? || st.FulfilledUnverified? {
      OneMore(Executing, VerifyingPostcondition, st, mode);
    }
  }

  /**
   * The classifier's "not safe" answer means "at or past EXECUTING" for exactly the statuses that are not
   * refusals settled before dispatch: for those the stated reason is wrong, REFUSAL_TIMELOCK_PENDING included.
   */
  lemma UnsafeMeansDispatchedExactlyWhen(st: Status, mode: Mode)
    requires !SafeToResume(st)
    ensures Reaches(Executing, st, mode) <==> !RefusedBeforeDispatch(st)
  {
    if RefusedBeforeDispatch(st) {
      NeverBack(st, mode);
    } else {
      DispatchReaches(st, mode);
    }
  }
}
