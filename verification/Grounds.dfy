/** What the chain has to have shown for each status a call gives a job before anything is dispatched. */
module Grounds {
  import opened Erc20
  import opened Governor
  import opened Jobs
  import opened Protocol
  import opened StateMachine
  import opened Wrappers

  // ------------------------------------------------------------------ the proposal

  /**
   * What a proposal's state, its record and the clock have to be for a prepare run to end there; for every status past
   * the lifecycle check, the proposal is queued and its time has come.
   */
  predicate Warrants(to: Status, state: nat, record: ProposalView, clock: nat) {
    if to.RefusalCanceled? then record.canceled
    else if to.FulfilledExternallyUnverified? then !record.canceled && (record.executed || state == 7)
    else
      && !record.canceled && !record.executed
      && if to.RefusalNotExecutable? then state in {0, 1, 3, 4, 6}
         else state == 5 && (to.RefusalTimelockPending? <==> clock < record.eta)
  }

  /** Three reads, each of a block of its own: `state()`, the proposal record, and the clock. */
  predicate SeenAt(chain: Chain, c: Commitment, to: Status, b: nat, r: nat, k: nat) {
    var state, record := ViewAt(chain, KeyOf(c), b), ViewAt(chain, KeyOf(c), r);
    state.Some? && record.Some? && k < |chain.blocks| &&
    Warrants(to, state.value.state, record.value, chain.blocks[k].timestamp)
  }

  ghost predicate Seen(chain: Chain, c: Commitment, to: Status) {
    exists b: nat, r: nat, k: nat :: SeenAt(chain, c, to, b, r, k)
  }

  // ------------------------------------------------------------------ the bundle

  /** The live bundle at block `b` hashes to the hash the commitment froze. */
  ghost predicate StillFrozen(cfg: Config, chain: Chain, c: Commitment, b: nat) {
    var a := AuthorizationAt(chain, c, b);
    a.Some? && cfg.authorizationHash(a.value) == c.frozenAuthorization
  }

  /** The action the commitment selects first, in the bundle as it stood at block `b`. */
  function ActionAt(chain: Chain, c: Commitment, b: nat): Option<Action> {
    match ViewAt(chain, KeyOf(c), b)
    case None => None
    case Some(v) =>
      if c.selectedActionIndexes == [] || |v.actions| <= c.selectedActionIndexes[0] then None
      else Some(v.actions[c.selectedActionIndexes[0]])
  }

  /** The protocol's first selected action of a resolved bundle is that action. */
  lemma FirstIsActionAt(chain: Chain, c: Commitment, b: nat)
    requires AuthorizationAt(chain, c, b).Some?
    ensures FirstSelected(c, AuthorizationAt(chain, c, b).value.actions) == ActionAt(chain, c, b)
  {
  }

  function TransferAt(chain: Chain, c: Commitment, b: nat): Option<Transfer> {
    match ActionAt(chain, c, b)
    case None => None
    case Some(a) => TryDecodeTransfer(a.signature, a.calldata)
  }

  /** The action was the first selected one of a live bundle that hashed to the frozen hash. */
  ghost predicate FrozenAction(cfg: Config, chain: Chain, c: Commitment, action: Action) {
    exists b: nat :: StillFrozen(cfg, chain, c, b) && ActionAt(chain, c, b) == Some(action)
  }

  /** The record is of that action's transfer: who is to receive how much of what, and had how much of it before. */
  ghost predicate Snapshots(chain: Chain, action: Action, e: ExecutionState) {
    var t := TryDecodeTransfer(action.signature, action.calldata);
    && t.Some?
    && e.token == action.target && e.recipient == t.value.recipient && e.authorizedAmount == t.value.amount
    && BalanceAt(chain, e.token, e.recipient, e.preStateBlock) == Some(e.balanceBefore)
  }

  /** The snapshot is of the first selected action of a bundle that hashed to the frozen hash at block `b`. */
  ghost predicate Captured(cfg: Config, chain: Chain, c: Commitment, e: ExecutionState, b: nat) {
    && StillFrozen(cfg, chain, c, b) && Seen(chain, c, Executing)
    && ActionAt(chain, c, b).Some? && Snapshots(chain, ActionAt(chain, c, b).value, e)
  }

  // ------------------------------------------------------------------ the status

  /** The chain has shown what a job with this status, commitment and record says of it. */
  ghost predicate Grounded(cfg: Config, chain: Chain, c: Commitment, st: Status, e: Option<ExecutionState>) {
    && Seen(chain, c, st)
    && (st.RefusalPayloadMismatch? ==>
          exists b: nat :: AuthorizationAt(chain, c, b).Some? && !StillFrozen(cfg, chain, c, b))
    && (st.RefusalWorkflowPolicyViolation? ==> e.Some?) && (st.RefusalSimulationRevert? ==> e.Some?)
    && (st.BlockedCallerNotAuthorized? ==> e.Some?) && (st.AwaitingApproval? ==> e.Some?)
    && (e.Some? ==> exists b: nat :: Captured(cfg, chain, c, e.value, b))
  }
}
