/**
 * Approval with dispatch, and reconciliation, as straight-line code with their polling loops and no other call running;
 * proved to do to the store and to KeeperHub what the interleaved machine does when only this call takes steps.
 */
module Execution {
  import opened Erc20
  import opened Governor
  import opened Grounds
  import opened Jobs
  import opened JobStore
  import opened Ledger
  import opened Pipeline
  import opened Protocol
  import opened Receipts
  import opened StateMachine
  import opened Text
  import opened Wrappers
  import Memory = InMemoryStore

  // ------------------------------------------------------------------ pieces shared by both calls

  lemma {:induction false} Compose(cfg: Config, s: State, pid: nat, one: seq<Step>, mid: State, two: seq<Step>,
                                   t: State)
    requires Tracks(cfg, s, pid, one, mid) && Tracks(cfg, mid, pid, two, t)
    ensures Tracks(cfg, s, pid, one + two, t)
    decreases |two|
  {
    hide Do;
    if two == [] {
      assert one + two == one;
    } else {
      var front := two[..|two| - 1];
      Compose(cfg, s, pid, one, mid, front, RunFrom(cfg, mid, front));
      assert (one + two)[..|one + two| - 1] == one + front;
    }
  }

  /** At most this job's document has changed, and its event log, by these events. */
  ghost predicate OthersKept(before: Store, after: Store, jobId: JobId, events: seq<Event>) {
    && after.jobs - {jobId} == before.jobs - {jobId}
    && forall j :: EventsOf(after, j) == EventsOf(before, j) + if j == jobId then events else []
  }

  /** At most this job's document has changed: every event log and every claim is as it was. */
  ghost predicate Only(before: Store, after: Store, jobId: JobId) {
    after.claims == before.claims && OthersKept(before, after, jobId, [])
  }

  /** The document has moved on, and is still the same job's. */
  predicate SameJob(was: Job, now: Job) {
    now == was.(status := now.status, updatedAt := now.updatedAt, execution := now.execution, receipt := now.receipt)
  }

  lemma OnlyThis(before: Store, after: Store, next: Job)
    requires Writes(before, after, next, [])
    ensures Only(before, after, next.jobId) && next.jobId in after.jobs && after.jobs[next.jobId] == next
  {
  }

  lemma OnlyNothing(store: Store, jobId: JobId)
    ensures Only(store, store, jobId)
  {
  }

  lemma StillOnly(a: Store, b: Store, c: Store, jobId: JobId)
    requires Only(a, b, jobId) && Only(b, c, jobId)
    ensures Only(a, c, jobId)
  {
    hide EventsOf;
  }

  /** A compare-and-set after which the call may go on. */
  method CasAndGo(store: Memory.InMemoryFulfillmentJobStore, base: Job, next: Job, events: seq<Event>, cfg: Config,
                  ghost s: State, ghost pid: nat, ghost steps: seq<Step>, ghost t: State, ghost trail: seq<Status>,
                  ghost andThen: Then, o: Observation)
    returns (saved: bool, ghost steps': seq<Step>, ghost t': State)
    requires At(cfg, s, pid, steps, t, store.Contents(), Casing(base, next, events, trail, andThen))
    modifies store
    ensures store.Contents() == SaveWithCas(old(store.Contents()), next, events, Some(base.status)).0
    ensures saved <==> StatusOf(old(store.Contents()), next.jobId) == Some(base.status)
    ensures if saved then Writes(old(store.Contents()), store.Contents(), next, events)
            else store.Contents() == old(store.Contents())
    ensures events == [] ==> Only(old(store.Contents()), store.Contents(), next.jobId)
    ensures saved ==> next.jobId in store.Contents().jobs && store.Contents().jobs[next.jobId] == next
    ensures Outcomes(cfg, s, pid, steps', t', store.Contents(), if saved then AfterCas(next, andThen, o.now) else Stop)
  {
    hide At, Finished, AfterCas, Writes, Only;
    OnlyNothing(store.Contents(), next.jobId);
    if StatusOf(store.Contents(), next.jobId) == Some(base.status) {
      CasWrites(store.Contents(), base, next, events);
      if events == [] {
        OnlyThis(store.Contents(), SaveWithCas(store.Contents(), next, events, Some(base.status)).0, next);
      }
    }
    steps', t' := AwaitCas(cfg, s, pid, steps, t, store.Contents(), Casing(base, next, events, trail, andThen), o);
    var r := store.SaveWithCas(next, events, Some(base.status));
    saved := r.Saved?;
  }

  /** Where a reconciling call stands between two phases: over, or about to do what its job's new status asks for. */
  ghost predicate Between(cfg: Config, s: State, pid: nat, steps: seq<Step>, t: State, store: Store, job: Option<Job>,
                          now: Timestamp) {
    if job.None? then Finished(cfg, s, pid, steps, t, store)
    else job.value.execution.Some? && Outcomes(cfg, s, pid, steps, t, store, NextPhase(job.value, now))
  }

  /** The phase moves on exactly when it may, by writing this document and nothing else. */
  ghost predicate MovesOn(before: Store, after: Store, job: Job, next: Option<Job>, may: bool) {
    && (next.Some? <==> may && StatusOf(before, job.jobId) == Some(job.status))
    && (if next.Some? then Writes(before, after, next.value, []) else after == before)
  }

  // ------------------------------------------------------------------ reconciliation, phase by phase

  lemma ReceiptIs(cfg: Config, chain: Chain, base: Job, o: Observation)
    ensures Local(cfg, chain, ReconcileReceipt(base), o) == ReconcileReceiptStep(chain, base, o)
  {
    hide ReconcileReceiptStep;
  }

  lemma FinalityIs(cfg: Config, chain: Chain, base: Job, attempt: nat, o: Observation)
    ensures Local(cfg, chain, ReconcileFinality(base, attempt), o) == ReconcileFinalityStep(chain, base, attempt, o)
  {
    hide ReconcileFinalityStep;
  }

  lemma GovernorIs(cfg: Config, chain: Chain, base: Job, attempt: nat, o: Observation)
    ensures Local(cfg, chain, ReconcileGovernor(base, attempt), o) == ReconcileGovernorStep(chain, base, attempt, o)
  {
    hide ReconcileGovernorStep;
  }

  lemma FinalAuthorizationIs(cfg: Config, chain: Chain, base: Job, o: Observation)
    ensures Local(cfg, chain, FinalAuthorization(base), o) ==
              if AuthorizationAt(chain, base.commitment, o.block).None? || o.fails then Stop
              else Go(FinalVerify(base, AuthorizationAt(chain, base.commitment, o.block).value.actions, o.block))
  {
    hide AuthorizationAt;
  }

  lemma FinalVerifyIs(cfg: Config, chain: Chain, base: Job, actions: seq<Action>, b: nat, o: Observation)
    ensures Local(cfg, chain, FinalVerify(base, actions, b), o) == FinalVerifyStep(cfg, chain, base, actions, o)
  {
    hide FinalVerifyStep;
  }

  /** RECONCILING: wait for the transaction's receipt. */
  method AwaitReceipt(store: Memory.InMemoryFulfillmentJobStore, cfg: Config, chain: Chain, job: Job, now: Timestamp,
                      seen: nat -> Observation, k: nat, ghost s: State, ghost pid: nat, ghost steps: seq<Step>,
                      ghost t: State)
    returns (next: Option<Job>, k': nat, ghost steps': seq<Step>, ghost t': State)
    requires ChainOf(s, job) == chain && job.status.Reconciling?
    requires Between(cfg, s, pid, steps, t, store.Contents(), Some(job), now)
    modifies store
    ensures Between(cfg, s, pid, steps', t', store.Contents(), next, seen(k').now)
    ensures job.execution.Some? && Only(old(store.Contents()), store.Contents(), job.jobId)
    ensures var tx := job.execution.value.transactionHash;
            && MovesOn(old(store.Contents()), store.Contents(), job, next,
                       tx.Some? && !seen(k).fails && tx.value in chain.receipts)
            && (next.Some? ==>
                  next.value == job.(status := WaitingFinality, updatedAt := seen(k).now,
                                     execution := Some(job.execution.value.(
                                       inclusionBlock := Some(chain.receipts[tx.value].block)))))
  {
    hide At, Finished, Local, NextPhase, ChainOf, Writes, StatusOf, Only;
    var e := job.execution.value;
    OnlyNothing(store.Contents(), job.jobId);
    PhaseOfReconciling(job, now);
    if e.transactionHash.None? { return None, k, steps, t; }
    steps', t' := AwaitLocal(cfg, s, pid, steps, t, store.Contents(), ReconcileReceipt(job), seen(k));
    ReceiptIs(cfg, chain, job, seen(k));
    if seen(k).fails || e.transactionHash.value !in chain.receipts { return None, k, steps', t'; }
    var waiting := Updated(job, WaitingFinality,
                           e.(inclusionBlock := Some(chain.receipts[e.transactionHash.value].block)), seen(k).now);
    var saved;
    saved, steps', t' := CasAndGo(store, job, waiting, [], cfg, s, pid, steps', t', [job.status, WaitingFinality],
                                  Continue, seen(k + 1));
    k' := k + 1;
    next := if saved then Some(waiting) else None;
  }

  lemma PhaseOfReconciling(job: Job, now: Timestamp)
    requires job.execution.Some? && job.status.Reconciling?
    ensures NextPhase(job, now) == if job.execution.value.transactionHash.None? then Stop else Go(ReconcileReceipt(job))
  {
  }

  lemma PhaseOfWaiting(job: Job, now: Timestamp)
    requires job.execution.Some? && job.status.WaitingFinality?
    ensures NextPhase(job, now) ==
              if job.execution.value.inclusionBlock.None? || job.execution.value.inclusionBlock.value == 0 then Stop
              else Go(ReconcileFinality(job, 0))
  {
  }

  lemma PhaseOfGovernor(job: Job, now: Timestamp)
    requires job.execution.Some? && job.status.VerifyingGovernorState?
    ensures NextPhase(job, now) == Go(ReconcileGovernor(job, 0))
  {
  }

  predicate Height(chain: Chain, o: Observation) {
    !o.fails && o.block < |chain.blocks|
  }

  /** Of at most ten polls from `k` on, poll `n` is the first to show two more blocks, none having failed. */
  ghost predicate FirstReached(chain: Chain, included: nat, seen: nat -> Observation, k: nat, n: nat) {
    && k <= n < k + 10 && Height(chain, seen(n)) && seen(n).block >= included + 2
    && forall m: nat :: k <= m < n ==> Height(chain, seen(m)) && seen(m).block < included + 2
  }

  lemma Reached(chain: Chain, included: nat, seen: nat -> Observation, k: nat, n: nat)
    requires k <= n < k + 10 && Height(chain, seen(n)) && seen(n).block >= included + 2
    requires forall m: nat :: k <= m < n ==> Height(chain, seen(m)) && seen(m).block < included + 2
    ensures FirstReached(chain, included, seen, k, n)
  {
  }

  /** A failed poll ends the call, whatever later ones would have shown; so do ten that are too low. */
  lemma NeverReached(chain: Chain, included: nat, seen: nat -> Observation, k: nat, n: nat)
    requires k <= n && (n >= k + 10 || !Height(chain, seen(n)))
    requires forall m: nat :: k <= m < n ==> seen(m).block < included + 2
    ensures forall i: nat :: !FirstReached(chain, included, seen, k, i)
  {
  }

  /** WAITING_FINALITY: poll the height until the confirmations are there, ten times at most. */
  method AwaitFinality(store: Memory.InMemoryFulfillmentJobStore, cfg: Config, chain: Chain, job: Job, now: Timestamp,
                       seen: nat -> Observation, k: nat, ghost s: State, ghost pid: nat, ghost steps: seq<Step>,
                       ghost t: State)
    returns (next: Option<Job>, k': nat, ghost steps': seq<Step>, ghost t': State)
    requires ChainOf(s, job) == chain && job.status.WaitingFinality?
    requires Between(cfg, s, pid, steps, t, store.Contents(), Some(job), now)
    modifies store
    ensures Between(cfg, s, pid, steps', t', store.Contents(), next, seen(k').now)
    ensures job.execution.Some? && Only(old(store.Contents()), store.Contents(), job.jobId)
    ensures var included := job.execution.value.inclusionBlock;
            MovesOn(old(store.Contents()), store.Contents(), job, next,
                    included.Some? && included.value != 0 &&
                    exists n :: FirstReached(chain, included.value, seen, k, n))
    ensures next.Some? ==>
        exists n :: FirstReached(chain, job.execution.value.inclusionBlock.value, seen, k, n) &&
          next.value == job.(status := VerifyingGovernorState, updatedAt := seen(n).now,
                             execution := Some(job.execution.value.(finalityBlock := Some(seen(n).block))))
  {
    hide At, Finished, Local, NextPhase, ChainOf, Writes, StatusOf, FirstReached, Only;
    var e := job.execution.value;
    OnlyNothing(store.Contents(), job.jobId);
    PhaseOfWaiting(job, now);
    if e.inclusionBlock.None? || e.inclusionBlock.value == 0 { return None, k, steps, t; }
    var inclusionBlock := e.inclusionBlock.value;
    var reached, latest := false, 0;
    steps', t', k' := steps, t, k;
    for attempt := 0 to MAX_FINALITY_POLL_ATTEMPTS
      invariant !reached && store.Contents() == old(store.Contents()) && k' == k + attempt
      invariant forall m: nat :: k <= m < k' ==> Height(chain, seen(m)) && seen(m).block < inclusionBlock + 2
      invariant attempt < MAX_FINALITY_POLL_ATTEMPTS ==>
          At(cfg, s, pid, steps', t', store.Contents(), ReconcileFinality(job, attempt))
      invariant attempt == MAX_FINALITY_POLL_ATTEMPTS ==> Finished(cfg, s, pid, steps', t', store.Contents())
    {
      steps', t' := AwaitLocal(cfg, s, pid, steps', t', store.Contents(), ReconcileFinality(job, attempt), seen(k'));
      FinalityIs(cfg, chain, job, attempt, seen(k'));
      if seen(k').fails || seen(k').block >= |chain.blocks| {
        NeverReached(chain, inclusionBlock, seen, k, k');
        return None, k', steps', t';
      }
      latest := seen(k').block;
      if latest >= inclusionBlock + FINALITY_CONFIRMATIONS {
        reached := true;
        break;
      }
      k' := k' + 1;
    }
    if !reached {
      NeverReached(chain, inclusionBlock, seen, k, k');
      return None, k', steps', t';
    }
    assert FirstReached(chain, inclusionBlock, seen, k, k') by { Reached(chain, inclusionBlock, seen, k, k'); }
    var final := Updated(job, VerifyingGovernorState, e.(finalityBlock := Some(latest)), seen(k').now);
    var saved;
    saved, steps', t' := CasAndGo(store, job, final, [], cfg, s, pid, steps', t', [job.status, VerifyingGovernorState],
                                  Continue, seen(k' + 1));
    k' := k' + 1;
    next := if saved then Some(final) else None;
  }

  /** The lifecycle check comes to something: its reads come back, and the state is one there is. */
  predicate Resolves(chain: Chain, c: Commitment, o: Observation) {
    var state, record := ViewAt(chain, KeyOf(c), o.block), ViewAt(chain, KeyOf(c), o.recordBlock);
    !o.fails && state.Some? && record.Some? && o.clockBlock < |chain.blocks| &&
    (record.value.canceled || record.value.executed || state.value.state in {0, 1, 3, 4, 5, 6, 7})
  }

  /** What `state()` and the record's `executed` said. */
  function StateRead(chain: Chain, c: Commitment, o: Observation): nat
    requires Resolves(chain, c, o)
  {
    ViewAt(chain, KeyOf(c), o.block).value.state
  }

  predicate ExecutedRead(chain: Chain, c: Commitment, o: Observation)
    requires Resolves(chain, c, o)
  {
    ViewAt(chain, KeyOf(c), o.recordBlock).value.executed
  }

  /** Of the reads from `k` on, read `n` counts: the first to show the proposal executed, or the third. */
  ghost predicate LastRead(chain: Chain, c: Commitment, seen: nat -> Observation, k: nat, n: nat) {
    && k <= n < k + 3 && Resolves(chain, c, seen(n)) && (n == k + 2 || ExecutedRead(chain, c, seen(n)))
    && forall m: nat :: k <= m < n ==> Resolves(chain, c, seen(m)) && !ExecutedRead(chain, c, seen(m))
  }

  lemma EligibleResolves(chain: Chain, c: Commitment, o: Observation)
    ensures Protocol.Eligible(chain, c, o).Some? <==> Resolves(chain, c, o)
    ensures Resolves(chain, c, o) ==>
              Protocol.Eligible(chain, c, o).value.1 == StateRead(chain, c, o) &&
              Protocol.Eligible(chain, c, o).value.2 == ExecutedRead(chain, c, o)
  {
    hide ViewAt;
  }

  lemma ReadsLast(chain: Chain, c: Commitment, seen: nat -> Observation, k: nat, n: nat)
    requires k <= n < k + 3 && Resolves(chain, c, seen(n)) && (n == k + 2 || ExecutedRead(chain, c, seen(n)))
    requires forall m: nat :: k <= m < n ==> Resolves(chain, c, seen(m)) && !ExecutedRead(chain, c, seen(m))
    ensures LastRead(chain, c, seen, k, n) && Resolves(chain, c, seen(n))
  {
    hide Resolves, ExecutedRead;
  }

  /** A read that fails, or an executed proposal, ends the rechecks. */
  lemma NoLaterRead(chain: Chain, c: Commitment, seen: nat -> Observation, k: nat, n: nat)
    requires k <= n < k + 3 && !Resolves(chain, c, seen(n))
    requires forall m: nat :: k <= m < n ==> Resolves(chain, c, seen(m)) && !ExecutedRead(chain, c, seen(m))
    ensures forall i: nat :: !LastRead(chain, c, seen, k, i)
  {
    hide Resolves, ExecutedRead;
  }

  /** VERIFYING_GOVERNOR_STATE: read until executed, three times at most, and carry on with whatever was read last. */
  method ReadGovernor(store: Memory.InMemoryFulfillmentJobStore, cfg: Config, chain: Chain, job: Job, now: Timestamp,
                      seen: nat -> Observation, k: nat, ghost s: State, ghost pid: nat, ghost steps: seq<Step>,
                      ghost t: State)
    returns (next: Option<Job>, k': nat, ghost steps': seq<Step>, ghost t': State)
    requires ChainOf(s, job) == chain && job.status.VerifyingGovernorState?
    requires Between(cfg, s, pid, steps, t, store.Contents(), Some(job), now)
    modifies store
    ensures Between(cfg, s, pid, steps', t', store.Contents(), next, seen(k').now)
    ensures job.execution.Some? && Only(old(store.Contents()), store.Contents(), job.jobId)
    ensures MovesOn(old(store.Contents()), store.Contents(), job, next,
                    exists n :: LastRead(chain, job.commitment, seen, k, n))
    ensures next.Some? ==>
        exists n :: LastRead(chain, job.commitment, seen, k, n) &&
          next.value == job.(status := VerifyingPostcondition, updatedAt := seen(n).now,
                             execution := Some(job.execution.value.(
                               governorFinalState := Some(StateRead(chain, job.commitment, seen(n))))))
  {
    hide At, Finished, Local, NextPhase, Protocol.Eligible, ChainOf, Writes, StatusOf, Resolves, StateRead,
      ExecutedRead, LastRead, Only, SaveWithCas;
    OnlyNothing(store.Contents(), job.jobId);
    PhaseOfGovernor(job, now);
    k' := k;
    steps', t' := AwaitLocal(cfg, s, pid, steps, t, store.Contents(), ReconcileGovernor(job, 0), seen(k'));
    GovernorIs(cfg, chain, job, 0, seen(k'));
    var after := Protocol.Eligible(chain, job.commitment, seen(k'));
    EligibleResolves(chain, job.commitment, seen(k));
    if after.None? {
      NoLaterRead(chain, job.commitment, seen, k, k);
      return None, k', steps', t';
    }
    var attempt := 0;
    while !after.value.2 && attempt < GOVERNOR_STATE_RECHECK_ATTEMPTS - 1
      invariant attempt <= GOVERNOR_STATE_RECHECK_ATTEMPTS - 1 && store.Contents() == old(store.Contents())
      invariant after.Some? && after == Protocol.Eligible(chain, job.commitment, seen(k')) && k' == k + attempt
      invariant forall m: nat :: k <= m <= k' ==> Resolves(chain, job.commitment, seen(m))
      invariant forall m: nat :: k <= m < k' ==> !ExecutedRead(chain, job.commitment, seen(m))
      invariant after.value.2 == ExecutedRead(chain, job.commitment, seen(k'))
      invariant Outcomes(cfg, s, pid, steps', t', store.Contents(),
                         ReconcileGovernorStep(chain, job, attempt, seen(k')))
      decreases GOVERNOR_STATE_RECHECK_ATTEMPTS - attempt
    {
      attempt := attempt + 1;
      k' := k' + 1;
      steps', t' := AwaitLocal(cfg, s, pid, steps', t', store.Contents(), ReconcileGovernor(job, attempt), seen(k'));
      GovernorIs(cfg, chain, job, attempt, seen(k'));
      after := Protocol.Eligible(chain, job.commitment, seen(k'));
      EligibleResolves(chain, job.commitment, seen(k'));
      if after.None? {
        NoLaterRead(chain, job.commitment, seen, k, k');
        return None, k', steps', t';
      }
    }
    EligibleResolves(chain, job.commitment, seen(k'));
    assert LastRead(chain, job.commitment, seen, k, k') by { ReadsLast(chain, job.commitment, seen, k, k'); }
    var checked := Updated(job, VerifyingPostcondition, job.execution.value.(governorFinalState := Some(after.value.1)),
                           seen(k').now);
    var saved;
    saved, steps', t' := CasAndGo(store, job, checked, [], cfg, s, pid, steps', t',
                                  [job.status, VerifyingPostcondition], Continue, seen(k' + 1));
    k' := k' + 1;
    next := if saved then Some(checked) else None;
  }

  lemma PhaseOfPostcondition(job: Job, now: Timestamp)
    requires job.execution.Some? && job.status.VerifyingPostcondition?
    ensures var e := job.execution.value;
            NextPhase(job, now) ==
              if e.transactionHash.None? || e.inclusionBlock.None? || e.governorFinalState.None? then Stop
              else Go(FinalAuthorization(job))
  {
  }

  /** Everything the last phase reads is there: the bundle with a transfer selected, the logs, and the balance. */
  predicate Closes(chain: Chain, job: Job, seen: nat -> Observation, k: nat)
    requires job.execution.Some?
  {
    var e, c, b := job.execution.value, job.commitment, seen(k).block;
    && e.transactionHash.Some? && e.inclusionBlock.Some? && e.governorFinalState.Some?
    && BundleRead(chain, c, seen(k)) && TransferAt(chain, c, b).Some?
    && !seen(k + 1).fails && e.transactionHash.value in chain.receipts
    && BalanceAt(chain, e.token, e.recipient, e.inclusionBlock.value).Some?
  }

  /** One log of the transaction is the payment, and the balance rose by as much since the snapshot. */
  ghost predicate PaidBy(chain: Chain, e: ExecutionState, amount: nat) {
    && e.transactionHash.Some? && e.inclusionBlock.Some? && e.transactionHash.value in chain.receipts
    && BalanceAt(chain, e.token, e.recipient, e.inclusionBlock.value) == Some(e.balanceBefore + amount)
    && exists i :: OnlyAt(RawTest(e.token, e.recipient, amount), chain.receipts[e.transactionHash.value].logs, i)
  }

  /** The receipt of a job whose bundle was last read at block `b`, field by field. */
  ghost predicate IsReceiptOf(cfg: Config, chain: Chain, job: Job, b: nat, now: Timestamp, r: Receipt) {
    && job.execution.Some? && |job.commitment.selectedActionIndexes| > 0
    && var c, e := job.commitment, job.execution.value;
       && AuthorizationAt(chain, c, b).Some? && TransferAt(chain, c, b).Some?
       && r.version == 1 && r.coverage.Full? && r.observedAt == now
       && r.commitmentHash == job.commitmentHash && r.frozenAuthorization == c.frozenAuthorization
       && r.finalAuthorization == cfg.authorizationHash(AuthorizationAt(chain, c, b).value)
       && r.chainId == c.chainId && r.governor == c.governor && r.governorFamily == c.governorFamily
       && r.proposalId == c.proposalId && r.actionIndex == c.selectedActionIndexes[0]
       && e.transactionHash == Some(r.executionTxHash) && e.inclusionBlock == Some(r.executionBlock)
       && r.finalityBlock == (if e.finalityBlock.Some? then e.finalityBlock.value else r.executionBlock)
       && e.governorFinalState == Some(r.governorFinalState)
       && (r.requiredAssertionsVerified <==> PaidBy(chain, e, TransferAt(chain, c, b).value.amount))
       && (r.status.Verified? <==>
             r.finalAuthorization == c.frozenAuthorization && r.governorFinalState == 7 &&
             r.requiredAssertionsVerified && (c.bindings == [] || c.bindings[0].actionIndex == r.actionIndex))
  }

  lemma ClosesExactlyWhen(chain: Chain, job: Job, seen: nat -> Observation, k: nat)
    requires job.execution.Some?
    ensures var e, c := job.execution.value, job.commitment;
            var a := AuthorizationAt(chain, c, seen(k).block);
            Closes(chain, job, seen, k) <==>
              && e.transactionHash.Some? && e.inclusionBlock.Some? && e.governorFinalState.Some?
              && a.Some? && !seen(k).fails && !seen(k + 1).fails && FirstSelected(c, a.value.actions).Some?
              && var action := FirstSelected(c, a.value.actions).value;
                 TryDecodeTransfer(action.signature, action.calldata).Some? &&
                 e.transactionHash.value in chain.receipts &&
                 BalanceAt(chain, e.token, e.recipient, e.inclusionBlock.value).Some?
  {
    hide TryDecodeTransfer, BalanceAt;
  }

  /** What is written is that receipt, if the verdict is the adapter's. */
  lemma ReceiptIsOf(cfg: Config, chain: Chain, job: Job, b: nat, actions: seq<Action>, verified: bool, now: Timestamp)
    requires job.execution.Some? && FinalVerdict(chain, job, actions) == Some(verified)
    requires AuthorizationAt(chain, job.commitment, b) == Some(AuthorizationOf(job.commitment, actions))
    requires job.execution.value.governorFinalState.Some?
    ensures |job.commitment.selectedActionIndexes| > 0
    ensures job.execution.value.transactionHash.Some? && job.execution.value.inclusionBlock.Some?
    ensures IsReceiptOf(cfg, chain, job, b, now,
                        FinalReceipt(job, cfg.authorizationHash(AuthorizationOf(job.commitment, actions)), verified,
                                     now))
  {
    hide BalanceAt, TryDecodeTransfer, AuthorizationAt, Credits, Pays;
    var c, e := job.commitment, job.execution.value;
    FirstIsActionAt(chain, c, b);
    assert TransferAt(chain, c, b).Some?;
    VerdictExactlyWhen(e.balanceBefore, BalanceAt(chain, e.token, e.recipient, e.inclusionBlock.value).value,
                       TransferAt(chain, c, b).value.amount, e.token, e.recipient,
                       Some(chain.receipts[e.transactionHash.value].logs));
    hide Verdict;
  }

  lemma VerdictNeedsRecord(chain: Chain, job: Job, actions: seq<Action>)
    requires job.execution.Some? && FinalVerdict(chain, job, actions).Some?
    ensures |job.commitment.selectedActionIndexes| > 0
    ensures job.execution.value.transactionHash.Some? && job.execution.value.inclusionBlock.Some?
  {
    hide Verdict, BalanceAt, TryDecodeTransfer;
  }

  /** With the adapter's verdict: reconcile the legs, assemble the receipt, and write it. */
  method WriteReceipt(store: Memory.InMemoryFulfillmentJobStore, cfg: Config, chain: Chain, job: Job,
                      actions: seq<Action>, ghost b: nat, verified: bool, o: Observation, o': Observation,
                      ghost s: State, ghost pid: nat, ghost steps: seq<Step>, ghost t: State)
    returns (receipt: Option<Receipt>, ghost steps': seq<Step>, ghost t': State)
    requires job.execution.Some? && job.execution.value.governorFinalState.Some? && !o.fails
    requires FinalVerdict(chain, job, actions) == Some(verified)
    requires AuthorizationAt(chain, job.commitment, b) == Some(AuthorizationOf(job.commitment, actions))
    requires Outcomes(cfg, s, pid, steps, t, store.Contents(), FinalVerifyStep(cfg, chain, job, actions, o))
    modifies store
    ensures Finished(cfg, s, pid, steps', t', store.Contents())
    ensures receipt.Some? <==> StatusOf(old(store.Contents()), job.jobId) == Some(job.status)
    ensures Only(old(store.Contents()), store.Contents(), job.jobId)
    ensures receipt.Some? ==>
        && IsReceiptOf(cfg, chain, job, b, o.now, receipt.value)
        && Writes(old(store.Contents()), store.Contents(),
                  job.(status := if receipt.value.status.Verified? then FulfilledVerified else FulfilledUnverified,
                       updatedAt := o.now, receipt := receipt), [])
    ensures receipt.None? ==> store.Contents() == old(store.Contents())
  {
    hide At, Finished, FinalVerdict, AuthorizationAt, ReconcileForReceipt, ChainOf, Writes, StatusOf, IsReceiptOf, Only;
    VerdictNeedsRecord(chain, job, actions);
    var e, c := job.execution.value, job.commitment;
    var finalHash := cfg.authorizationHash(AuthorizationOf(c, actions));
    var actionIndex := c.selectedActionIndexes[0];
    var reconciliation := ReconcileForReceipt(
      ReconciliationInput(c.frozenAuthorization, c.frozenAuthorization, finalHash, actionIndex,
                          if |c.bindings| > 0 then c.bindings[0].actionIndex else actionIndex,
                          e.governorFinalState.value, 7, Full, verified));
    var finalStatus := if reconciliation.None? then FulfilledVerified else FulfilledUnverified;
    var r := Receipt(
      1, job.commitmentHash, c.frozenAuthorization, finalHash, c.chainId, c.governor, c.governorFamily, c.proposalId,
      actionIndex, e.transactionHash.value, e.inclusionBlock.value,
      if e.finalityBlock.Some? then e.finalityBlock.value else e.inclusionBlock.value, e.governorFinalState.value,
      Full, verified, if reconciliation.None? then Verified else Unverified, o.now);
    ReceiptIsOf(cfg, chain, job, b, actions, verified, o.now);
    var final := job.(status := finalStatus, updatedAt := o.now, receipt := Some(r));
    var saved;
    saved, steps', t' := CasAndGo(store, job, final, [], cfg, s, pid, steps, t, [job.status, finalStatus], Then.Finish,
                                  o');
    receipt := if saved then Some(r) else None;
  }

  /** VERIFYING_POSTCONDITION: resolve the bundle once more, ask the adapter, reconcile the legs, write the receipt. */
  method FinalizePostconditionVerification(store: Memory.InMemoryFulfillmentJobStore, cfg: Config, chain: Chain,
                                           job: Job, now: Timestamp, seen: nat -> Observation, k: nat, ghost s: State,
                                           ghost pid: nat, ghost steps: seq<Step>, ghost t: State)
    returns (receipt: Option<Receipt>, ghost steps': seq<Step>, ghost t': State)
    requires ChainOf(s, job) == chain && job.status.VerifyingPostcondition?
    requires Between(cfg, s, pid, steps, t, store.Contents(), Some(job), now)
    modifies store
    ensures Finished(cfg, s, pid, steps', t', store.Contents())
    ensures job.execution.Some? && Only(old(store.Contents()), store.Contents(), job.jobId)
    ensures receipt.Some? <==>
        Closes(chain, job, seen, k) && StatusOf(old(store.Contents()), job.jobId) == Some(job.status)
    ensures receipt.Some? ==>
        && IsReceiptOf(cfg, chain, job, seen(k).block, seen(k + 1).now, receipt.value)
        && Writes(old(store.Contents()), store.Contents(),
                  job.(status := if receipt.value.status.Verified? then FulfilledVerified else FulfilledUnverified,
                       updatedAt := seen(k + 1).now, receipt := receipt), [])
    ensures receipt.None? ==> store.Contents() == old(store.Contents())
  {
    hide At, Finished, Local, NextPhase, AuthorizationAt, FirstSelected, TryDecodeTransfer, BalanceAt, Verdict,
      ChainOf, Writes, StatusOf, IsReceiptOf, Closes, FinalReceipt, Legs, Only;
    var e, c := job.execution.value, job.commitment;
    OnlyNothing(store.Contents(), job.jobId);
    PhaseOfPostcondition(job, now);
    ClosesExactlyWhen(chain, job, seen, k);
    if e.transactionHash.None? || e.inclusionBlock.None? { return None, steps, t; }
    if e.governorFinalState.None? { return None, steps, t; }
    steps', t' := AwaitLocal(cfg, s, pid, steps, t, store.Contents(), FinalAuthorization(job), seen(k));
    FinalAuthorizationIs(cfg, chain, job, seen(k));
    var authorization := AuthorizationAt(chain, c, seen(k).block);
    if authorization.None? || seen(k).fails { return None, steps', t'; }
    var actions := authorization.value.actions;
    var action := FirstSelected(c, actions);

    steps', t' := AwaitLocal(cfg, s, pid, steps', t', store.Contents(), FinalVerify(job, actions, seen(k).block),
                             seen(k + 1));
    FinalVerifyIs(cfg, chain, job, actions, seen(k).block, seen(k + 1));
    if seen(k + 1).fails || action.None? { return None, steps', t'; }
    var expected := TryDecodeTransfer(action.value.signature, action.value.calldata);
    if expected.None? || e.transactionHash.value !in chain.receipts { return None, steps', t'; }
    var after := BalanceAt(chain, e.token, e.recipient, e.inclusionBlock.value);
    if after.None? { return None, steps', t'; }
    var verified, _ := Verify(e.balanceBefore, after.value, expected.value.amount, e.token, e.recipient,
                              Some(chain.receipts[e.transactionHash.value].logs));
    assert authorization.value == AuthorizationOf(c, actions) by { ResolvedIs(chain, c, seen(k).block); }
    hide FinalVerifyStep;
    receipt, steps', t' := WriteReceipt(store, cfg, chain, job, actions, seen(k).block, verified, seen(k + 1),
                                        seen(k + 2), s, pid, steps', t');
  }

  lemma ResolvedIs(chain: Chain, c: Commitment, b: nat)
    requires AuthorizationAt(chain, c, b).Some?
    ensures AuthorizationAt(chain, c, b).value == AuthorizationOf(c, AuthorizationAt(chain, c, b).value.actions)
  {
  }

  predicate Reconcilable(st: Status) {
    st.Executing? || st.Reconciling? || st.UnknownReconciling? ||
    st.WaitingFinality? || st.VerifyingGovernorState? || st.VerifyingPostcondition?
  }

  lemma NothingToReconcile(job: Job, now: Timestamp)
    requires job.execution.None? || !Reconcilable(job.status)
    ensures ReconcileStart(job, now).Stop?
  {
  }

  lemma StartOf(job: Job, now: Timestamp)
    requires job.execution.Some? && Reconcilable(job.status)
    ensures ReconcileStart(job, now) ==
              if (job.status.Executing? && job.execution.value.requestHash.None?) ||
                 ((job.status.Executing? || job.status.UnknownReconciling?) &&
                   job.execution.value.transactionHash.None?) then Stop
              else NextPhase(job, now)
  {
    hide NextPhase;
  }

  lemma PhaseOfExecuting(job: Job, now: Timestamp)
    requires job.execution.Some? && (job.status.Executing? || job.status.UnknownReconciling?)
    ensures NextPhase(job, now) ==
              Go(Casing(job, job.(status := Reconciling, updatedAt := now), [], [job.status, Reconciling], Continue))
  {
  }

  /** The document the last phase leaves. */
  predicate Closed(job: Job, store: Store, receipt: Receipt) {
    && job.jobId in store.jobs && SameJob(job, store.jobs[job.jobId]) && store.jobs[job.jobId].receipt == Some(receipt)
    && store.jobs[job.jobId].status == if receipt.status.Verified? then FulfilledVerified else FulfilledUnverified
  }

  lemma WritesClosed(job: Job, at: Job, before: Store, after: Store, receipt: Receipt, now: Timestamp)
    requires SameJob(job, at)
    requires Writes(before, after,
                    at.(status := if receipt.status.Verified? then FulfilledVerified else FulfilledUnverified,
                        updatedAt := now, receipt := Some(receipt)), [])
    ensures Closed(job, after, receipt)
  {
  }

  /** The phases in order, each from the status the one before it wrote, until one stops or the receipt is there. */
  method RunPhases(store: Memory.InMemoryFulfillmentJobStore, cfg: Config, chain: Chain, job: Job,
                   seen: nat -> Observation, from: nat, ghost s: State, ghost pid: nat, ghost steps0: seq<Step>,
                   ghost t0: State)
    returns (receipt: Option<Receipt>, ghost steps: seq<Step>, ghost t: State)
    requires ChainOf(s, job) == chain
    requires job.status.Reconciling? || job.status.WaitingFinality? || job.status.VerifyingGovernorState? ||
             job.status.VerifyingPostcondition?
    requires Between(cfg, s, pid, steps0, t0, store.Contents(), Some(job), seen(from).now)
    modifies store
    ensures Finished(cfg, s, pid, steps, t, store.Contents())
    ensures Only(old(store.Contents()), store.Contents(), job.jobId)
    ensures receipt.Some? ==> Closed(job, store.Contents(), receipt.value)
  {
    hide Do, At, Finished, Tracks, Local, NextPhase, Outcomes, Only, Writes, StatusOf, FirstReached, LastRead, Closes,
      IsReceiptOf, BalanceAt, ChainFor, MovesOn;
    var k, at := from, Some(job);
    steps, t := steps0, t0;
    ghost var start := store.Contents();
    OnlyNothing(start, job.jobId);
    if at.value.status.Reconciling? {
      ghost var before := store.Contents();
      at, k, steps, t := AwaitReceipt(store, cfg, chain, at.value, seen(k).now, seen, k + 1, s, pid, steps, t);
      StillOnly(start, before, store.Contents(), job.jobId);
    }
    if at.Some? && at.value.status.WaitingFinality? {
      ghost var before := store.Contents();
      at, k, steps, t := AwaitFinality(store, cfg, chain, at.value, seen(k).now, seen, k + 1, s, pid, steps, t);
      StillOnly(start, before, store.Contents(), job.jobId);
    }
    if at.Some? && at.value.status.VerifyingGovernorState? {
      ghost var before := store.Contents();
      at, k, steps, t := ReadGovernor(store, cfg, chain, at.value, seen(k).now, seen, k + 1, s, pid, steps, t);
      StillOnly(start, before, store.Contents(), job.jobId);
    }
    receipt := None;
    if at.Some? {
      ghost var before := store.Contents();
      receipt, steps, t := FinalizePostconditionVerification(store, cfg, chain, at.value, seen(k).now, seen, k + 1, s,
                                                             pid, steps, t);
      StillOnly(start, before, store.Contents(), job.jobId);
      if receipt.Some? { WritesClosed(job, at.value, before, store.Contents(), receipt.value, seen(k + 2).now); }
    }
  }

  /** A stored job that reconciliation does anything about. */
  predicate Resumes(job: Job) {
    && job.execution.Some?
    && var e := job.execution.value;
       || job.status.Reconciling? || job.status.WaitingFinality? || job.status.VerifyingGovernorState?
       || job.status.VerifyingPostcondition?
       || (job.status.Executing? && e.requestHash.Some? && e.transactionHash.Some?)
       || (job.status.UnknownReconciling? && e.transactionHash.Some?)
  }

  /**
   * Resumable from wherever the stored status sits; it can observe and verify, never dispatch. It touches nothing but
   * the one document, and a receipt it returns is the one it has stored.
   */
  method ContinueReconciliation(store: Memory.InMemoryFulfillmentJobStore, cfg: Config, chains: map<nat, Chain>,
                                jobId: JobId, seen: nat -> Observation, from: nat, ghost s: State, ghost pid: nat)
    returns (receipt: Option<Receipt>, ghost steps: seq<Step>, ghost t: State)
    requires Ready(s, pid, Reconcile(jobId), store.Contents(), chains)
    requires jobId in store.Contents().jobs ==> store.Contents().jobs[jobId].jobId == jobId
    modifies store
    ensures Finished(cfg, s, pid, steps, t, store.Contents())
    ensures Only(old(store.Contents()), store.Contents(), jobId)
    ensures !(jobId in old(store.Contents()).jobs && Resumes(old(store.Contents()).jobs[jobId])) ==>
              receipt.None? && store.Contents() == old(store.Contents())
    ensures receipt.Some? ==>
        jobId in old(store.Contents()).jobs &&
        Closed(old(store.Contents()).jobs[jobId], store.Contents(), receipt.value)
  {
    hide Do, At, Finished, Tracks, Local, NextPhase, ReconcileStart, Only, Writes, Closed;
    var k := from;
    steps, t := AwaitRead(cfg, s, pid, Reconcile(jobId), seen(k));
    OnlyNothing(store.Contents(), jobId);
    var found := store.Get(jobId);
    if found.None? { return None, steps, t; }
    var job := found.value;
    var chain := ChainFor(chains, job.commitment.chainId);
    if job.execution.None? || !Reconcilable(job.status) {
      NothingToReconcile(job, seen(k).now);
      return None, steps, t;
    }
    StartOf(job, seen(k).now);
    if job.status.Executing? && job.execution.value.requestHash.None? { return None, steps, t; }
    if (job.status.Executing? || job.status.UnknownReconciling?) && job.execution.value.transactionHash.None? {
      return None, steps, t;
    }

    var at := job;
    if job.status.Executing? || job.status.UnknownReconciling? {
      PhaseOfExecuting(job, seen(k).now);
      at := job.(status := Reconciling, updatedAt := seen(k).now);
      var saved;
      saved, steps, t := CasAndGo(store, job, at, [], cfg, s, pid, steps, t, [job.status, Reconciling], Continue,
                                  seen(k + 1));
      k := k + 1;
      if !saved { return None, steps, t; }
    }
    ghost var before := store.Contents();
    receipt, steps, t := RunPhases(store, cfg, chain, at, seen, k, s, pid, steps, t);
    StillOnly(old(store.Contents()), before, store.Contents(), jobId);
    if receipt.Some? { ClosedAlike(job, at, store.Contents(), receipt.value); }
  }

  lemma ClosedAlike(job: Job, at: Job, store: Store, receipt: Receipt)
    requires SameJob(job, at) && Closed(at, store, receipt)
    ensures Closed(job, store, receipt)
  {
  }

  // ------------------------------------------------------------------ claim and dispatch

  lemma ClaimAdvance(cfg: Config, t: State, pid: nat, p: Proc, o: Observation)
    requires pid in t.procs && t.procs[pid] == p && p.Claiming?
    ensures Do(cfg, t, Advance(pid, o)) == ClaimStep(cfg, t, pid, p)
  {
    hide Read, Local, Cas, ClaimStep, SaveStep, IssueStep, AnswerStep, Set;
  }

  lemma SaveAdvance(cfg: Config, t: State, pid: nat, p: Proc, o: Observation)
    requires pid in t.procs && t.procs[pid] == p && p.Saving?
    ensures Do(cfg, t, Advance(pid, o)) == SaveStep(cfg, t, pid, p)
  {
    hide Read, Local, Cas, ClaimStep, SaveStep, IssueStep, AnswerStep, Set;
  }

  lemma IssueAdvance(cfg: Config, t: State, pid: nat, p: Proc, o: Observation)
    requires pid in t.procs && t.procs[pid] == p && p.Issuing?
    ensures Do(cfg, t, Advance(pid, o)) == IssueStep(cfg, t, pid, p)
  {
    hide Read, Local, Cas, ClaimStep, SaveStep, IssueStep, AnswerStep, Set;
  }

  lemma AnswerAdvance(cfg: Config, t: State, pid: nat, p: Proc, o: Observation)
    requires pid in t.procs && t.procs[pid] == p && p.Awaiting?
    ensures Do(cfg, t, Advance(pid, o)) == AnswerStep(t, pid, p, o.answer, o.now)
  {
    hide Read, Local, Cas, ClaimStep, SaveStep, IssueStep, AnswerStep, Set;
  }

  /** The claim, and what is stored and where the machine stands after it. */
  lemma AwaitClaim(cfg: Config, s: State, pid: nat, job: Job, actor: string, b: nat, o: Observation)
    returns (steps: seq<Step>, t: State)
    requires pid in s.procs && s.procs[pid] == Claiming(job, actor, b)
    ensures var (store', r) := TryClaim(s.store, cfg.requestHash(CallOf(job.commitment)), job.jobId, actor);
            At(cfg, s, pid, steps, t, store', if r.Claimed? then Saving(job, b) else Start(Reconcile(job.jobId)))
  {
    hide Do, CallOf;
    Tick(cfg, s, pid, [], s, o);
    ClaimAdvance(cfg, s, pid, s.procs[pid], o);
    steps, t := [Advance(pid, o)], Do(cfg, s, Advance(pid, o));
    assert [] + [Advance(pid, o)] == steps;
  }

  lemma AwaitSave(cfg: Config, s: State, pid: nat, steps: seq<Step>, t: State, store: Store, job: Job, b: nat,
                  o: Observation)
    returns (steps': seq<Step>, t': State)
    requires At(cfg, s, pid, steps, t, store, Saving(job, b)) && job.execution.Some?
    ensures var mine :=
      job.(execution := Some(job.execution.value.(requestHash := Some(cfg.requestHash(CallOf(job.commitment))))));
            At(cfg, s, pid, steps', t', Save(store, mine), Issuing(mine, b))
  {
    hide Do, CallOf, Save;
    Tick(cfg, s, pid, steps, t, o);
    SaveAdvance(cfg, t, pid, t.procs[pid], o);
    steps', t' := steps + [Advance(pid, o)], Do(cfg, t, Advance(pid, o));
  }

  /** The call goes out and comes back, with an answer or an error; either way the job is about to leave EXECUTING. */
  lemma AwaitExecute(cfg: Config, s: State, pid: nat, steps: seq<Step>, t: State, store: Store, mine: Job, b: nat,
                     o: Observation, answered: Observation)
    returns (steps': seq<Step>, t': State)
    requires At(cfg, s, pid, steps, t, store, Issuing(mine, b)) && mine.execution.Some? && !answered.answer.Silent?
    ensures Tracks(cfg, s, pid, steps', t') && pid in t'.procs && t'.store == store && t'.chains == s.chains
    ensures |t'.log| == |s.log| + 1 && t'.log[..|s.log|] == s.log
    ensures t'.log[|s.log|].call == CallOf(mine.commitment) &&
            t'.log[|s.log|].jobId == mine.jobId && t'.log[|s.log|].answer == answered.answer
    ensures t'.procs[pid] ==
              if answered.answer.Threw? then
                Casing(mine, mine.(status := UnknownReconciling, updatedAt := answered.now), [],
                       [mine.status, UnknownReconciling], Then.Finish)
              else
                Casing(mine,
                       Updated(mine, Reconciling, mine.execution.value.(transactionHash := answered.answer.txHash),
                               answered.now),
                       [], [mine.status, Reconciling], Resume)
  {
    hide Do, CallOf, ChainOf;
    Tick(cfg, s, pid, steps, t, o);
    IssueAdvance(cfg, t, pid, t.procs[pid], o);
    var mid := Do(cfg, t, Advance(pid, o));
    Tick(cfg, s, pid, steps + [Advance(pid, o)], mid, answered);
    AnswerAdvance(cfg, mid, pid, mid.procs[pid], answered);
    steps', t' := steps + [Advance(pid, o)] + [Advance(pid, answered)], Do(cfg, mid, Advance(pid, answered));
  }

  /** What a dispatching call has done to KeeperHub: nothing, or one call for this job's proposal. */
  ghost predicate Sent(s: State, t: State, job: Job, sent: seq<Call>) {
    var c := job.commitment;
    || (sent == [] && t.log == s.log)
    || (sent == [Call(c.chainId, ToLower(c.governor), DecimalValue(c.proposalId))] && |t.log| == |s.log| + 1 &&
         t.log[..|s.log|] == s.log && t.log[|s.log|].call == sent[0] && t.log[|s.log|].jobId == job.jobId)
  }

  /** The request hash of the call a job's approval is for. */
  function RequestOf(cfg: Config, c: Commitment): Digest {
    cfg.requestHash(Call(c.chainId, ToLower(c.governor), DecimalValue(c.proposalId)))
  }

  /** The document a dispatch leaves: stamped, and moved on as the answer says. */
  predicate Dispatched(cfg: Config, job: Job, answer: Answer, now: Timestamp, next: Job)
    requires job.execution.Some?
  {
    var e := job.execution.value.(requestHash := Some(RequestOf(cfg, job.commitment)));
    match answer
    case Silent => false
    case Threw => next == job.(status := UnknownReconciling, updatedAt := now, execution := Some(e))
    case Answered(tx) =>
      next == job.(status := Reconciling, updatedAt := now, execution := Some(e.(transactionHash := tx)))
  }

  /** The compare-and-set out of EXECUTING, as a run of its own from where the dispatch left the machine. */
  method RecordOutcome(store: Memory.InMemoryFulfillmentJobStore, cfg: Config, base: Job, next: Job, andThen: Then,
                       ghost s: State, ghost pid: nat, o: Observation, ghost trail: seq<Status>)
    returns (resume: bool, ghost steps: seq<Step>, ghost t: State)
    requires andThen == Then.Finish || andThen == Resume
    requires pid in s.procs && s.procs[pid] == Casing(base, next, [], trail, andThen) && s.store == store.Contents()
    modifies store
    ensures Tracks(cfg, s, pid, steps, t) && t.store == store.Contents() && t.chains == s.chains && t.log == s.log
    ensures StatusOf(old(store.Contents()), next.jobId) == Some(base.status) ==>
              Writes(old(store.Contents()), store.Contents(), next, []) && (resume <==> andThen.Resume?)
    ensures if resume then pid in t.procs && t.procs[pid] == Start(Reconcile(next.jobId)) else pid !in t.procs
  {
    hide Do, Writes, StatusOf;
    var saved;
    saved, steps, t := CasAndGo(store, base, next, [], cfg, s, pid, [], s, trail, andThen, o);
    resume := saved && andThen.Resume?;
  }

  lemma AwaitSaveFrom(cfg: Config, s: State, pid: nat, job: Job, b: nat, o: Observation)
    returns (steps: seq<Step>, t: State)
    requires pid in s.procs && s.procs[pid] == Saving(job, b) && job.execution.Some?
    ensures var mine :=
      job.(execution := Some(job.execution.value.(requestHash := Some(cfg.requestHash(CallOf(job.commitment))))));
            At(cfg, s, pid, steps, t, Save(s.store, mine), Issuing(mine, b))
  {
    hide Do, CallOf, Save;
    steps, t := AwaitSave(cfg, s, pid, [], s, s.store, job, b, o);
  }

  /** With the claim won: the unconditional save, the call itself, and what it came to. */
  method Dispatch(store: Memory.InMemoryFulfillmentJobStore, cfg: Config, jobAtExecuting: Job, seen: nat -> Observation,
                  k: nat, answered: Observation, ghost s: State, ghost pid: nat, ghost b: nat)
    returns (sent: seq<Call>, resume: bool, ghost steps: seq<Step>, ghost t: State)
    requires pid in s.procs && s.procs[pid] == Saving(jobAtExecuting, b) && s.store == store.Contents()
    requires jobAtExecuting.execution.Some? && !answered.answer.Silent?
    modifies store
    ensures sent != [] && (resume <==> answered.answer.Answered?)
    ensures jobAtExecuting.jobId in store.Contents().jobs
    ensures Dispatched(cfg, jobAtExecuting, answered.answer, answered.now,
                       store.Contents().jobs[jobAtExecuting.jobId])
    ensures Writes(old(store.Contents()), store.Contents(), store.Contents().jobs[jobAtExecuting.jobId], [])
    ensures Tracks(cfg, s, pid, steps, t) && t.store == store.Contents() &&
            t.chains == s.chains && Sent(s, t, jobAtExecuting, sent)
    ensures if resume then pid in t.procs && t.procs[pid] == Start(Reconcile(jobAtExecuting.jobId)) else pid !in t.procs
  {
    hide Do, Tracks, SaveWithCas, Save, Writes, StatusOf, Dispatched, Sent;
    ghost var before, after;
    before, after := AwaitSaveFrom(cfg, s, pid, jobAtExecuting, b, seen(k));
    var execution :=
      jobAtExecuting.execution.value.(requestHash := Some(cfg.requestHash(CallOf(jobAtExecuting.commitment))));
    var jobWithRequestHash := jobAtExecuting.(execution := Some(execution));
    ghost var started := store.Contents();
    store.Save(jobWithRequestHash);
    SaveWrites(started, jobWithRequestHash);
    ghost var stamped := store.Contents();

    before, after := AwaitExecute(cfg, s, pid, before, after, store.Contents(), jobWithRequestHash, b, seen(k + 1),
                                  answered);
    sent := [CallOf(jobWithRequestHash.commitment)];
    var next, andThen;
    if answered.answer.Threw? {
      next, andThen := jobWithRequestHash.(status := UnknownReconciling, updatedAt := answered.now), Then.Finish;
    } else {
      next, andThen :=
        Updated(jobWithRequestHash, Reconciling, execution.(transactionHash := answered.answer.txHash), answered.now),
        Resume;
    }
    resume, steps, t := RecordOutcome(store, cfg, jobWithRequestHash, next, andThen, after, pid, seen(k + 2),
                                      [jobWithRequestHash.status, next.status]);
    WritesTwice(started, stamped, store.Contents(), jobWithRequestHash, next);
    DispatchLeaves(cfg, jobAtExecuting, answered.answer, answered.now, next);
    OneCall(s, t, jobAtExecuting);
    Compose(cfg, s, pid, before, after, steps, t);
    steps := before + steps;
  }

  lemma DispatchLeaves(cfg: Config, job: Job, answer: Answer, now: Timestamp, next: Job)
    requires job.execution.Some? && !answer.Silent?
    requires var e := job.execution.value.(requestHash := Some(cfg.requestHash(CallOf(job.commitment))));
             next == if answer.Threw? then
                       job.(execution := Some(e)).(status := UnknownReconciling, updatedAt := now)
                     else
                       Updated(job.(execution := Some(e)), Reconciling, e.(transactionHash := answer.txHash), now)
    ensures Dispatched(cfg, job, answer, now, next)
  {
    hide DecimalValue, ToLower;
  }

  lemma OneCall(s: State, t: State, job: Job)
    requires |t.log| == |s.log| + 1 && t.log[..|s.log|] == s.log
    requires t.log[|s.log|].call == CallOf(job.commitment) && t.log[|s.log|].jobId == job.jobId
    ensures Sent(s, t, job, [CallOf(job.commitment)])
  {
    hide DecimalValue, ToLower;
  }

  lemma SaveWrites(before: Store, job: Job)
    ensures Writes(before, Save(before, job), job, [])
    ensures StatusOf(Save(before, job), job.jobId) == Some(job.status)
  {
  }

  lemma WritesTwice(a: Store, b: Store, c: Store, x: Job, y: Job)
    requires Writes(a, b, x, []) && Writes(b, c, y, []) && x.jobId == y.jobId
    ensures Writes(a, c, y, []) && y.jobId in c.jobs && c.jobs[y.jobId] == y
  {
    hide EventsOf;
    assert a.jobs[x.jobId := x][y.jobId := y] == a.jobs[y.jobId := y];
  }

  /** The claim is on record under the call's hash, the document moved on as the answer says, nothing else changed. */
  ghost predicate Claims(cfg: Config, before: Store, after: Store, job: Job, actor: string, answer: Answer,
                         now: Timestamp)
    requires job.execution.Some?
  {
    && after.claims == before.claims[RequestOf(cfg, job.commitment) := Claim(job.jobId, actor)]
    && job.jobId in after.jobs && after.jobs == before.jobs[job.jobId := after.jobs[job.jobId]]
    && Dispatched(cfg, job, answer, now, after.jobs[job.jobId])
    && forall j :: EventsOf(after, j) == EventsOf(before, j)
  }

  lemma ClaimsAre(cfg: Config, before: Store, claimed: Store, after: Store, job: Job, actor: string, answer: Answer,
                  now: Timestamp)
    requires job.execution.Some? && job.jobId in after.jobs && Dispatched(cfg, job, answer, now, after.jobs[job.jobId])
    requires claimed == before.(claims := before.claims[RequestOf(cfg, job.commitment) := Claim(job.jobId, actor)])
    requires Writes(claimed, after, after.jobs[job.jobId], [])
    ensures Claims(cfg, before, after, job, actor, answer, now)
  {
  }

  /** From the recorded approval on; a lost claim means an earlier attempt has it, and this one only reconciles. */
  method ClaimAndExecute(store: Memory.InMemoryFulfillmentJobStore, cfg: Config, jobAtExecuting: Job, actor: string,
                         seen: nat -> Observation, k: nat, answered: Observation, ghost s: State, ghost pid: nat,
                         ghost b: nat)
    returns (sent: seq<Call>, resume: bool, ghost steps: seq<Step>, ghost t: State)
    requires pid in s.procs && s.procs[pid] == Claiming(jobAtExecuting, actor, b) && s.store == store.Contents()
    requires jobAtExecuting.execution.Some? && !answered.answer.Silent?
    modifies store
    ensures Tracks(cfg, s, pid, steps, t) && t.store == store.Contents() &&
            t.chains == s.chains && Sent(s, t, jobAtExecuting, sent)
    ensures sent == [] <==> RequestOf(cfg, jobAtExecuting.commitment) in old(store.Contents()).claims
    ensures resume <==> sent == [] || answered.answer.Answered?
    ensures sent == [] ==> store.Contents() == old(store.Contents())
    ensures sent != [] ==>
        Claims(cfg, old(store.Contents()), store.Contents(), jobAtExecuting, actor, answered.answer, answered.now)
    ensures if resume then pid in t.procs && t.procs[pid] == Start(Reconcile(jobAtExecuting.jobId)) else pid !in t.procs
  {
    hide Do, Tracks, Writes, Dispatched, Claims;
    ghost var before, after;
    before, after := AwaitClaim(cfg, s, pid, jobAtExecuting, actor, b, seen(k));
    var claim := store.TryClaimExecution(cfg.requestHash(CallOf(jobAtExecuting.commitment)), jobAtExecuting.jobId,
                                         actor);
    if !claim.Claimed? { return [], true, before, after; }
    ghost var claimed := store.Contents();
    sent, resume, steps, t := Dispatch(store, cfg, jobAtExecuting, seen, k + 1, answered, after, pid, b);
    ClaimsAre(cfg, old(store.Contents()), claimed, store.Contents(), jobAtExecuting, actor, answered.answer,
              answered.now);
    Compose(cfg, s, pid, before, after, steps, t);
    steps := before + steps;
  }

  // ------------------------------------------------------------------ approve and execute

  lemma ApproveEligibilityIs(cfg: Config, chain: Chain, base: Job, actor: string, o: Observation)
    ensures Local(cfg, chain, ApproveEligibility(base, actor), o) ==
              if Protocol.Eligible(chain, base.commitment, o).Some? &&
                 Protocol.Eligible(chain, base.commitment, o).value.0.EligibleToExecute?
              then Go(ApproveAuthorization(base, actor)) else Stop
  {
    hide Protocol.Eligible;
  }

  lemma ApproveAuthorizationIs(cfg: Config, chain: Chain, base: Job, actor: string, o: Observation)
    ensures Local(cfg, chain, ApproveAuthorization(base, actor), o) ==
              ApproveAuthorizationStep(cfg, chain, base, actor, o)
  {
    hide ApproveAuthorizationStep;
  }

  lemma ApproveSimulateIs(cfg: Config, chain: Chain, base: Job, actor: string, actions: seq<Action>, b: nat,
                          o: Observation)
    ensures Local(cfg, chain, ApproveSimulate(base, actor, actions, b), o) ==
              ApproveSimulateStep(base, actor, actions, b, o)
  {
    hide ApproveSimulateStep;
  }

  lemma ApproveBlockIs(cfg: Config, chain: Chain, base: Job, actor: string, action: Action, b: nat, o: Observation)
    ensures Local(cfg, chain, ApproveBlock(base, actor, action, b), o) ==
              if o.fails || o.block >= |chain.blocks| then Stop
              else Go(ApproveSnapshot(base, actor, action, b, o.block))
  {
  }

  lemma ApproveSnapshotIs(cfg: Config, chain: Chain, base: Job, actor: string, action: Action, b: nat, pre: nat,
                          o: Observation)
    ensures Local(cfg, chain, ApproveSnapshot(base, actor, action, b, pre), o) ==
              ApproveSnapshotStep(chain, base, actor, action, b, pre, o)
  {
    hide ApproveSnapshotStep;
  }

  /** What revalidation asks for: eligible now, an unchanged bundle with its action, a clean simulation, a snapshot. */
  ghost predicate Executable(cfg: Config, chain: Chain, job: Job, seen: nat -> Observation) {
    var c, b := job.commitment, seen(2).block;
    && Finds(chain, c, seen(1), Executing)
    && BundleRead(chain, c, seen(2)) && StillFrozen(cfg, chain, c, b) && ActionAt(chain, c, b).Some?
    && !seen(3).fails && seen(3).simulation.Compatible?
    && Snapshotted(chain, ActionAt(chain, c, b).value, seen)
  }

  /** The height and the balance come back. */
  predicate Snapshotted(chain: Chain, action: Action, seen: nat -> Observation) {
    Height(chain, seen(4)) && !seen(5).fails && Snapshottable(chain, action, seen(4).block)
  }

  /** The recorded approval: the job EXECUTING with a fresh snapshot of the action, and its one event. */
  ghost predicate RecordsApproval(chain: Chain, before: Store, after: Store, job: Job, actor: string, action: Action,
                                  seen: nat -> Observation, next: Job) {
    && next == job.(status := Executing, updatedAt := seen(5).now, execution := next.execution)
    && FreshSnapshot(chain, action, seen(4).block, next.execution)
    && Writes(before, after, next,
              [Event(ApprovedEvent, actor, None, seen(5).now, AwaitingApproval, Executing, job.commitmentHash)])
  }

  /** The snapshot as close to the dispatch as the code gets, and the recorded approval. */
  method SnapshotAndApprove(store: Memory.InMemoryFulfillmentJobStore, cfg: Config, chain: Chain, job: Job,
                            actor: string, action: Action, seen: nat -> Observation, ghost s: State, ghost pid: nat,
                            ghost steps0: seq<Step>, ghost t0: State, ghost authBlock: nat)
    returns (executing: Option<Job>, ghost steps: seq<Step>, ghost t: State)
    requires ChainOf(s, job) == chain && job.status.AwaitingApproval?
    requires At(cfg, s, pid, steps0, t0, store.Contents(), ApproveBlock(job, actor, action, authBlock))
    modifies store
    ensures executing.Some? <==>
        Snapshotted(chain, action, seen) && StatusOf(old(store.Contents()), job.jobId) == Some(job.status)
    ensures executing.None? ==>
        store.Contents() == old(store.Contents()) && Finished(cfg, s, pid, steps, t, store.Contents())
    ensures executing.Some? ==>
        RecordsApproval(chain, old(store.Contents()), store.Contents(), job, actor, action, seen, executing.value)
    ensures executing.Some? ==> At(cfg, s, pid, steps, t, store.Contents(), Claiming(executing.value, actor, authBlock))
  {
    hide Do, At, Finished, Tracks, Local, Snapshot, Snapshottable, FreshSnapshot, Writes, ChainOf, StatusOf;
    SnapshotIsThere(chain, action, seen(4).block);
    steps, t := steps0, t0;
    steps, t := AwaitLocal(cfg, s, pid, steps, t, store.Contents(), ApproveBlock(job, actor, action, authBlock),
                           seen(4));
    ApproveBlockIs(cfg, chain, job, actor, action, authBlock, seen(4));
    if seen(4).fails || seen(4).block >= |chain.blocks| { return None, steps, t; }
    var preStateBlock := seen(4).block;
    steps, t := AwaitLocal(cfg, s, pid, steps, t, store.Contents(),
                           ApproveSnapshot(job, actor, action, authBlock, preStateBlock), seen(5));
    ApproveSnapshotIs(cfg, chain, job, actor, action, authBlock, preStateBlock, seen(5));
    var preState := Snapshot(chain, action, preStateBlock);
    if preState.None? || seen(5).fails { return None, steps, t; }

    var approved := Jobs.ApproveJob(job, job.commitmentHash, actor, seen(5).now);
    if approved.Err? { return None, steps, t; }
    var jobAtExecuting := approved.value.job.(execution := preState);
    var saved;
    saved, steps, t := CasAndGo(store, job, jobAtExecuting, [approved.value.event], cfg, s, pid, steps, t,
                                [job.status, jobAtExecuting.status], ClaimAndDispatch(authBlock, actor), seen(6));
    executing := if saved then Some(jobAtExecuting) else None;
  }

  /** The revalidation before the broadcast, up to the recorded approval; absent when anything stops the call. */
  method ApproveForExecution(store: Memory.InMemoryFulfillmentJobStore, cfg: Config, chain: Chain, job: Job,
                             actor: string, seen: nat -> Observation, ghost s: State, ghost pid: nat,
                             ghost steps0: seq<Step>, ghost t0: State)
    returns (executing: Option<Job>, ghost authBlock: nat, ghost steps: seq<Step>, ghost t: State)
    requires ChainOf(s, job) == chain && job.status.AwaitingApproval?
    requires At(cfg, s, pid, steps0, t0, store.Contents(), ApproveEligibility(job, actor))
    modifies store
    ensures executing.Some? <==>
        Executable(cfg, chain, job, seen) && StatusOf(old(store.Contents()), job.jobId) == Some(job.status)
    ensures executing.None? ==>
        store.Contents() == old(store.Contents()) && Finished(cfg, s, pid, steps, t, store.Contents())
    ensures executing.Some? ==>
        RecordsApproval(chain, old(store.Contents()), store.Contents(), job, actor,
                        ActionAt(chain, job.commitment, seen(2).block).value, seen, executing.value)
    ensures executing.Some? ==> At(cfg, s, pid, steps, t, store.Contents(), Claiming(executing.value, actor, authBlock))
  {
    hide Do, At, Finished, Tracks, Local, Snapshotted, AuthorizationAt, FirstSelected, ActionAt, Protocol.Eligible,
      ChainOf, SaveWithCas, StatusOf, Finds, RecordsApproval;
    var commitment := job.commitment;
    authBlock := 0;
    EligibleExactlyWhen(chain, commitment, seen(1));
    steps, t := AwaitLocal(cfg, s, pid, steps0, t0, store.Contents(), ApproveEligibility(job, actor), seen(1));
    ApproveEligibilityIs(cfg, chain, job, actor, seen(1));
    var eligibility := Protocol.Eligible(chain, commitment, seen(1));
    if eligibility.None? || !eligibility.value.0.EligibleToExecute? { return None, 0, steps, t; }

    steps, t := AwaitLocal(cfg, s, pid, steps, t, store.Contents(), ApproveAuthorization(job, actor), seen(2));
    ApproveAuthorizationIs(cfg, chain, job, actor, seen(2));
    var authorization := AuthorizationAt(chain, commitment, seen(2).block);
    if authorization.None? || seen(2).fails { return None, 0, steps, t; }
    FirstIsActionAt(chain, commitment, seen(2).block);
    if cfg.authorizationHash(authorization.value) != commitment.frozenAuthorization { return None, 0, steps, t; }
    authBlock := seen(2).block;

    steps, t := AwaitLocal(cfg, s, pid, steps, t, store.Contents(),
                           ApproveSimulate(job, actor, authorization.value.actions, authBlock), seen(3));
    ApproveSimulateIs(cfg, chain, job, actor, authorization.value.actions, authBlock, seen(3));
    if seen(3).fails || !seen(3).simulation.Compatible? { return None, 0, steps, t; }
    var action := FirstSelected(commitment, authorization.value.actions);
    if action.None? { return None, 0, steps, t; }

    executing, steps, t := SnapshotAndApprove(store, cfg, chain, job, actor, action.value, seen, s, pid, steps, t,
                                              authBlock);
  }

  /**
   * The whole approval. At most one call goes out, for this job's own proposal; what the store then holds is what the
   * machine has after the same steps; the reconciliation at the end is the one anyone may call later.
   */
  method ApproveAndExecuteJob(store: Memory.InMemoryFulfillmentJobStore, cfg: Config, chains: map<nat, Chain>,
                              jobId: JobId, actor: string, seen: nat -> Observation, answered: Observation,
                              ghost s: State, ghost pid: nat)
    returns (sent: seq<Call>, receipt: Option<Receipt>, ghost steps: seq<Step>, ghost t: State)
    requires Ready(s, pid, Op.Approve(jobId, actor), store.Contents(), chains) && !answered.answer.Silent?
    requires jobId in store.Contents().jobs ==> store.Contents().jobs[jobId].jobId == jobId
    modifies store
    ensures sent != [] <==>
              jobId in s.store.jobs &&
              var job := s.store.jobs[jobId];
              job.status.AwaitingApproval? && Executable(cfg, ChainFor(chains, job.commitment.chainId), job, seen) &&
              RequestOf(cfg, job.commitment) !in s.store.claims
    ensures Tracks(cfg, s, pid, steps, t) && pid !in t.procs && t.store == store.Contents()
    ensures if jobId in s.store.jobs then Sent(s, t, s.store.jobs[jobId], sent) else sent == [] && t.log == s.log
    ensures if jobId in s.store.jobs && s.store.jobs[jobId].status.AwaitingApproval? &&
               Executable(cfg, ChainFor(chains, s.store.jobs[jobId].commitment.chainId), s.store.jobs[jobId], seen)
            then Approves(cfg, s.store, store.Contents(), s.store.jobs[jobId], actor, seen(5).now, sent, receipt)
            else store.Contents() == s.store && receipt.None?
  {
    hide Do, Tracks, CallOf, SaveWithCas, At, Finished, StillFrozen, ActionAt, OthersKept, Closed, RecordsApproval;
    sent, receipt := [], None;
    steps, t := AwaitRead(cfg, s, pid, Op.Approve(jobId, actor), seen(0));
    var found := store.Get(jobId);
    if found.None? || !found.value.status.AwaitingApproval? {
      OverMeans(cfg, s, pid, steps, t, store.Contents());
      return;
    }
    var job := found.value;
    var chain := ChainFor(chains, job.commitment.chainId);
    var executing;
    ghost var b;
    executing, b, steps, t := ApproveForExecution(store, cfg, chain, job, actor, seen, s, pid, steps, t);
    if executing.None? {
      OverMeans(cfg, s, pid, steps, t, store.Contents());
      return;
    }
    ApprovalMeans(chain, s.store, store.Contents(), job, actor, ActionAt(chain, job.commitment, seen(2).block).value,
                  seen, executing.value);
    ghost var approved := store.Contents();
    sent, receipt, steps, t := ExecuteApproved(store, cfg, chains, executing.value, actor, seen, answered, s, pid, b,
                                               steps, t);
    Approved(cfg, s.store, approved, store.Contents(), job, executing.value, actor, seen(5).now, sent, receipt);
  }

  /**
   * What an approval leaves: its one event, a claim if it was the first to make one, and at most this job's document
   * changed; a receipt it returns is the one stored.
   */
  ghost predicate Approves(cfg: Config, before: Store, after: Store, job: Job, actor: string, now: Timestamp,
                           sent: seq<Call>, receipt: Option<Receipt>) {
    && OthersKept(before, after, job.jobId,
                  [Event(ApprovedEvent, actor, None, now, AwaitingApproval, Executing, job.commitmentHash)])
    && after.claims == (if sent == [] then before.claims
                        else before.claims[RequestOf(cfg, job.commitment) := Claim(job.jobId, actor)])
    && (receipt.Some? ==> Closed(job, after, receipt.value))
  }

  lemma ApprovalMeans(chain: Chain, before: Store, after: Store, job: Job, actor: string, action: Action,
                      seen: nat -> Observation, next: Job)
    requires RecordsApproval(chain, before, after, job, actor, action, seen, next)
    ensures next.execution.Some? && SameJob(job, next) && next.jobId in after.jobs && after.jobs[next.jobId] == next
    ensures after.claims == before.claims
    ensures OthersKept(before, after, job.jobId, [Event(ApprovedEvent, actor, None, seen(5).now, AwaitingApproval,
                                                        Executing, job.commitmentHash)])
  {
    hide EventsOf;
  }

  lemma Approved(cfg: Config, before: Store, approved: Store, after: Store, job: Job, next: Job, actor: string,
                 now: Timestamp, sent: seq<Call>, receipt: Option<Receipt>)
    requires SameJob(job, next) && approved.claims == before.claims
    requires OthersKept(before, approved, job.jobId,
                        [Event(ApprovedEvent, actor, None, now, AwaitingApproval, Executing, job.commitmentHash)])
    requires OthersKept(approved, after, next.jobId, [])
    requires after.claims == (if sent == [] then approved.claims
                              else approved.claims[RequestOf(cfg, next.commitment) := Claim(next.jobId, actor)])
    requires receipt.Some? ==> Closed(next, after, receipt.value)
    ensures Approves(cfg, before, after, job, actor, now, sent, receipt)
  {
    hide EventsOf;
    if receipt.Some? { ClosedAlike(job, next, after, receipt.value); }
  }

  lemma OverMeans(cfg: Config, s: State, pid: nat, steps: seq<Step>, t: State, store: Store)
    requires Finished(cfg, s, pid, steps, t, store)
    ensures Tracks(cfg, s, pid, steps, t) && pid !in t.procs &&
            t.store == store && t.log == s.log && t.chains == s.chains
  {
    hide Tracks;
  }

  lemma AtMeans(cfg: Config, s: State, pid: nat, steps: seq<Step>, t: State, store: Store, p: Proc)
    requires At(cfg, s, pid, steps, t, store, p)
    ensures Tracks(cfg, s, pid, steps, t) && pid in t.procs && t.procs[pid] == p &&
            t.store == store && t.log == s.log && t.chains == s.chains
  {
    hide Tracks;
  }

  /** Claim, dispatch, record, and then reconcile as far as the chain allows. */
  method ExecuteApproved(store: Memory.InMemoryFulfillmentJobStore, cfg: Config, chains: map<nat, Chain>,
                         jobAtExecuting: Job, actor: string, seen: nat -> Observation, answered: Observation,
                         ghost s: State, ghost pid: nat, ghost b: nat, ghost steps0: seq<Step>, ghost t0: State)
    returns (sent: seq<Call>, receipt: Option<Receipt>, ghost steps: seq<Step>, ghost t: State)
    requires At(cfg, s, pid, steps0, t0, store.Contents(), Claiming(jobAtExecuting, actor, b)) &&
             jobAtExecuting.execution.Some?
    requires jobAtExecuting.jobId in store.Contents().jobs &&
             store.Contents().jobs[jobAtExecuting.jobId] == jobAtExecuting
    requires s.chains == chains && !answered.answer.Silent?
    modifies store
    ensures sent == [] <==> RequestOf(cfg, jobAtExecuting.commitment) in old(store.Contents()).claims
    ensures Tracks(cfg, s, pid, steps, t) && pid !in t.procs &&
            t.store == store.Contents() && Sent(s, t, jobAtExecuting, sent)
    ensures OthersKept(old(store.Contents()), store.Contents(), jobAtExecuting.jobId, [])
    ensures store.Contents().claims ==
              if sent == [] then old(store.Contents()).claims
              else old(store.Contents()).claims[RequestOf(cfg, jobAtExecuting.commitment) :=
                     Claim(jobAtExecuting.jobId, actor)]
    ensures receipt.Some? ==> Closed(jobAtExecuting, store.Contents(), receipt.value)
    ensures sent != [] && answered.answer.Threw? ==>
              jobAtExecuting.jobId in store.Contents().jobs &&
              Dispatched(cfg, jobAtExecuting, Threw, answered.now, store.Contents().jobs[jobAtExecuting.jobId])
  {
    hide Do, Tracks, CallOf, SaveWithCas, At, Finished, Closed, EventsOf;
    OnlyNothing(store.Contents(), jobAtExecuting.jobId);
    AtMeans(cfg, s, pid, steps0, t0, store.Contents(), Claiming(jobAtExecuting, actor, b));
    var resume;
    sent, resume, steps, t := ClaimAndExecute(store, cfg, jobAtExecuting, actor, seen, 7, answered, t0, pid, b);
    Compose(cfg, s, pid, steps0, t0, steps, t);
    steps := steps0 + steps;
    receipt := None;
    ghost var claimed := store.Contents();
    assert SameJob(jobAtExecuting, claimed.jobs[jobAtExecuting.jobId]);
    assert OthersKept(old(store.Contents()), claimed, jobAtExecuting.jobId, []);
    if resume {
      ghost var before, after := steps, t;
      receipt, steps, t := ContinueReconciliation(store, cfg, chains, jobAtExecuting.jobId, seen, 11, after, pid);
      OverMeans(cfg, after, pid, steps, t, store.Contents());
      Compose(cfg, s, pid, before, after, steps, t);
      steps := before + steps;
      if receipt.Some? {
        ClosedAlike(jobAtExecuting, claimed.jobs[jobAtExecuting.jobId], store.Contents(), receipt.value);
      }
    }
  }
}
