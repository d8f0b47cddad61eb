/** A chain only grows, so nothing a process has read of it can become false. */
module Growth {
  import opened Governor
  import opened Grounds
  import opened Invariant
  import opened Jobs
  import opened Protocol
  import opened StateMachine
  import opened Wrappers

  lemma ReadsGrow(c: Chain, c': Chain, key: ProposalKey, b: nat)
    requires Extends(c, c')
    ensures ViewAt(c, key, b).Some? ==> ViewAt(c', key, b) == ViewAt(c, key, b)
  {
  }

  lemma BalancesGrow(c: Chain, c': Chain, token: HexAddress, holder: HexAddress, b: nat)
    requires Extends(c, c')
    ensures BalanceAt(c, token, holder, b).Some? ==> BalanceAt(c', token, holder, b) == BalanceAt(c, token, holder, b)
  {
  }

  lemma AuthorizationGrows(c: Chain, c': Chain, commitment: Commitment, b: nat)
    requires Extends(c, c')
    ensures AuthorizationAt(c, commitment, b).Some? ==>
        AuthorizationAt(c', commitment, b) == AuthorizationAt(c, commitment, b)
  {
    ReadsGrow(c, c', KeyOf(commitment), b);
  }

  lemma SeenGrows(c: Chain, c': Chain, commitment: Commitment, to: Status)
    requires Extends(c, c') && Seen(c, commitment, to)
    ensures Seen(c', commitment, to)
  {
    hide Warrants, ViewAt;
    var b: nat, r: nat, k: nat :| SeenAt(c, commitment, to, b, r, k);
    ReadsGrow(c, c', KeyOf(commitment), b);
    ReadsGrow(c, c', KeyOf(commitment), r);
    assert SeenAt(c', commitment, to, b, r, k);
  }

  /** The bundle of a block that is there stays what it is, and with it its hash and its first selected action. */
  lemma BundleGrows(cfg: Config, c: Chain, c': Chain, commitment: Commitment, b: nat)
    requires Extends(c, c') && AuthorizationAt(c, commitment, b).Some?
    ensures AuthorizationAt(c', commitment, b) == AuthorizationAt(c, commitment, b)
    ensures StillFrozen(cfg, c', commitment, b) == StillFrozen(cfg, c, commitment, b)
    ensures ActionAt(c', commitment, b) == ActionAt(c, commitment, b)
  {
    ReadsGrow(c, c', KeyOf(commitment), b);
  }

  lemma FrozenActionGrows(cfg: Config, c: Chain, c': Chain, commitment: Commitment, action: Action)
    requires Extends(c, c') && FrozenAction(cfg, c, commitment, action)
    ensures FrozenAction(cfg, c', commitment, action)
  {
    hide AuthorizationAt, ActionAt, Extends;
    var b: nat :| StillFrozen(cfg, c, commitment, b) && ActionAt(c, commitment, b) == Some(action);
    BundleGrows(cfg, c, c', commitment, b);
    assert StillFrozen(cfg, c', commitment, b) && ActionAt(c', commitment, b) == Some(action);
  }

  lemma CarriesGrows(cfg: Config, c: Chain, c': Chain, commitment: Commitment, action: Action)
    requires Extends(c, c') && Carries(cfg, c, commitment, action)
    ensures Carries(cfg, c', commitment, action)
  {
    hide Seen, FrozenAction, Extends;
    SeenGrows(c, c', commitment, Executing);
    FrozenActionGrows(cfg, c, c', commitment, action);
  }

  lemma CapturedGrows(cfg: Config, c: Chain, c': Chain, commitment: Commitment, e: ExecutionState, b: nat)
    requires Extends(c, c') && Captured(cfg, c, commitment, e, b)
    ensures Captured(cfg, c', commitment, e, b)
  {
    hide AuthorizationAt, ActionAt, Seen, Extends, BalanceAt, Erc20.TryDecodeTransfer;
    assert StillFrozen(cfg, c, commitment, b);
    BundleGrows(cfg, c, c', commitment, b);
    SeenGrows(c, c', commitment, Executing);
    BalancesGrow(c, c', e.token, e.recipient, e.preStateBlock);
  }

  lemma GroundedGrows(cfg: Config, c: Chain, c': Chain, commitment: Commitment, st: Status, e: Option<ExecutionState>)
    requires Extends(c, c') && Grounded(cfg, c, commitment, st, e)
    ensures Grounded(cfg, c', commitment, st, e)
  {
    hide AuthorizationAt, ActionAt, Seen, Extends, Captured, StillFrozen;
    SeenGrows(c, c', commitment, st);
    if st.RefusalPayloadMismatch? {
      var b: nat :| AuthorizationAt(c, commitment, b).Some? && !StillFrozen(cfg, c, commitment, b);
      BundleGrows(cfg, c, c', commitment, b);
      assert AuthorizationAt(c', commitment, b).Some? && !StillFrozen(cfg, c', commitment, b);
    }
    if e.Some? {
      var b: nat :| Captured(cfg, c, commitment, e.value, b);
      CapturedGrows(cfg, c, c', commitment, e.value, b);
      assert Captured(cfg, c', commitment, e.value, b);
    }
  }

  lemma VerdictGrows(c: Chain, c': Chain, job: Job, actions: seq<Action>)
    requires Extends(c, c') && job.execution.Some? && FinalVerdict(c, job, actions).Some?
    ensures FinalVerdict(c', job, actions) == FinalVerdict(c, job, actions)
  {
    hide Erc20.Verdict, BalanceAt, FirstSelected, Erc20.TryDecodeTransfer;
    var e := job.execution.value;
    BalancesGrow(c, c', e.token, e.recipient, e.inclusionBlock.value);
  }

  lemma JudgedGrows(cfg: Config, c: Chain, c': Chain, job: Job, b: nat)
    requires Extends(c, c') && Judged(cfg, c, job, b)
    ensures Judged(cfg, c', job, b)
  {
    hide FinalVerdict, FinalReceipt, AuthorizationAt;
    AuthorizationGrows(c, c', job.commitment, b);
    VerdictGrows(c, c', job, AuthorizationAt(c, job.commitment, b).value.actions);
  }

  lemma StateSeenGrows(c: Chain, c': Chain, commitment: Commitment, b: nat, state: nat)
    requires Extends(c, c') && StateSeen(c, commitment, b, state)
    ensures StateSeen(c', commitment, b, state)
  {
    ReadsGrow(c, c', KeyOf(commitment), b);
  }

  lemma GovernorReadGrows(cfg: Config, c: Chain, c': Chain, job: Job, b: nat)
    requires Extends(c, c') && GovernorRead(cfg, c, job, b)
    ensures GovernorRead(cfg, c', job, b)
  {
    hide StateSeen;
    StateSeenGrows(c, c', job.commitment, b, job.execution.value.governorFinalState.value);
  }

  lemma ChainFactsGrow(cfg: Config, c: Chain, c': Chain, job: Job)
    requires RecordShape(job) && Extends(c, c') && ChainFacts(cfg, c, job)
    ensures ChainFacts(cfg, c', job)
  {
    hide Judged, GovernorRead, RecordShape, Grounded;
    if Prepared(job.status) { GroundedGrows(cfg, c, c', job.commitment, job.status, job.execution); }
    if job.status.VerifyingPostcondition? || Terminal(job.status) {
      var b :| GovernorRead(cfg, c, job, b);
      GovernorReadGrows(cfg, c, c', job, b);
    }
    if Terminal(job.status) {
      var b :| Judged(cfg, c, job, b);
      JudgedGrows(cfg, c, c', job, b);
    }
  }

  lemma RecordOkGrows(cfg: Config, c: Chain, c': Chain, log: seq<Dispatch>, issued: map<JobId, nat>, job: Job)
    requires Extends(c, c') && RecordOk(cfg, c, log, issued, job)
    ensures RecordOk(cfg, c', log, issued, job)
  {
    hide ChainFacts, Bound;
    ChainFactsGrow(cfg, c, c', job);
  }

  lemma LegitGrows(cfg: Config, c: Chain, c': Chain, log: seq<Dispatch>, issued: map<JobId, nat>, base: Job, next: Job,
                   events: seq<Event>)
    requires Extends(c, c') && Legit(cfg, c, log, issued, base, next, events)
    ensures Legit(cfg, c', log, issued, base, next, events)
  {
    hide Judged, GovernorRead, Bound, Pristine, IsArm, IsDisarm, IsApproval, Grounded;
    if Prepared(next.status) { GroundedGrows(cfg, c, c', next.commitment, next.status, next.execution); }
    if next.status.VerifyingPostcondition? {
      var b :| GovernorRead(cfg, c, next, b);
      GovernorReadGrows(cfg, c, c', next, b);
    }
    if Terminal(next.status) {
      var b :| Judged(cfg, c, next, b);
      JudgedGrows(cfg, c, c', next, b);
    }
  }
}
