/** At-most-once dispatch, whatever the interleaving, the crashes, or a stale intake write that resets a job. */
module AtMostOnce {
  import opened Jobs
  import opened JobStore
  import opened Protocol
  import opened Wrappers

  /** Between winning a claim and issuing the call it is for. */
  predicate Holding(p: Proc) {
    p.Saving? || p.Issuing?
  }

  function RequestOf(cfg: Config, p: Proc): Digest
    requires Holding(p)
  {
    cfg.requestHash(CallOf(p.base.commitment))
  }

  /** A call that may still dispatch holds the claim on its request, and nothing was dispatched under it. */
  ghost predicate HoldsClaim(cfg: Config, s: State, pid: nat, p: Proc)
    requires Holding(p)
  {
    var r := RequestOf(cfg, p);
    r in s.claimant && s.claimant[r] == pid && forall k :: 0 <= k < |s.log| ==> s.log[k].request != r
  }

  ghost predicate LogClaimed(cfg: Config, s: State) {
    && (forall k :: 0 <= k < |s.log| ==>
          s.log[k].request == cfg.requestHash(s.log[k].call) && s.log[k].request in s.claimant)
    && (forall k, l :: 0 <= k < l < |s.log| ==> s.log[k].request != s.log[l].request)
  }

  ghost predicate PidsBelow(s: State) {
    && (forall pid :: pid in s.procs ==> pid < s.nextPid)
    && (forall r :: r in s.claimant ==> s.claimant[r] < s.nextPid)
    && s.claimant.Keys == s.store.claims.Keys
  }

  ghost predicate DispatchInv(cfg: Config, s: State) {
    && PidsBelow(s)
    && LogClaimed(cfg, s)
    && (forall pid :: pid in s.procs && Holding(s.procs[pid]) ==> HoldsClaim(cfg, s, pid, s.procs[pid]))
  }

  /** Steps that leave the log and the claims alone, and give nobody a claim it did not have. */
  lemma QuietStepKeeps(cfg: Config, s: State, s': State)
    requires DispatchInv(cfg, s)
    requires s'.log == s.log && s'.claimant == s.claimant && s'.store.claims == s.store.claims
    requires s'.nextPid >= s.nextPid && forall pid :: pid in s'.procs ==> pid < s'.nextPid
    requires forall pid :: pid in s'.procs && Holding(s'.procs[pid]) ==>
               pid in s.procs && Holding(s.procs[pid]) && s'.procs[pid].base.commitment == s.procs[pid].base.commitment
    ensures DispatchInv(cfg, s')
  {
    forall pid | pid in s'.procs && Holding(s'.procs[pid]) ensures HoldsClaim(cfg, s', pid, s'.procs[pid]) {
      assert HoldsClaim(cfg, s, pid, s.procs[pid]);
    }
  }

  /** A call that moves on without touching log or claims keeps the invariant unless it comes to hold a claim. */
  lemma QuietSet(cfg: Config, s: State, s': State, pid: nat, next: Outcome)
    requires DispatchInv(cfg, s) && pid in s.procs
    requires next.Go? && Holding(next.proc) ==>
               Holding(s.procs[pid]) && next.proc.base.commitment == s.procs[pid].base.commitment
    requires s'.log == s.log && s'.claimant == s.claimant && s'.store.claims == s.store.claims
    requires s'.procs == s.procs && s'.nextPid == s.nextPid
    ensures DispatchInv(cfg, Set(s', pid, next))
  {
    QuietStepKeeps(cfg, s, Set(s', pid, next));
  }

  lemma LocalNeverHolds(cfg: Config, chain: Governor.Chain, p: Proc, o: Observation)
    ensures var r := Local(cfg, chain, p, o); r.Go? ==> !Holding(r.proc)
  {
  }

  lemma AfterReadNeverHolds(op: Op, base: Job, now: Timestamp)
    ensures var r := AfterRead(op, base, now); r.Go? ==> !Holding(r.proc)
  {
  }

  lemma AfterCasNeverHolds(next: Job, andThen: Then, now: Timestamp)
    ensures var r := AfterCas(next, andThen, now); r.Go? ==> !Holding(r.proc)
  {
  }

  lemma ReadKeeps(cfg: Config, s: State, pid: nat, op: Op, now: Timestamp)
    requires DispatchInv(cfg, s) && pid in s.procs
    ensures DispatchInv(cfg, Read(cfg, s, pid, op, now))
  {
    hide AfterRead, DispatchInv, Set;
    if op.jobId in s.store.jobs {
      AfterReadNeverHolds(op, s.store.jobs[op.jobId], now);
      QuietSet(cfg, s, s, pid, AfterRead(op, s.store.jobs[op.jobId], now));
    } else if !op.Intake? {
      QuietSet(cfg, s, s, pid, Stop);
    } else {
      var job := CreateReviewReadyJob(op.jobId, op.commitment, cfg.commitmentHash(op.commitment), now);
      QuietSet(cfg, s, s.(store := Save(s.store, job)), pid, Stop);
      QuietSet(cfg, s, s, pid, Go(IntakeSave(job)));
    }
  }

  lemma CasKeeps(cfg: Config, s: State, pid: nat, now: Timestamp)
    requires DispatchInv(cfg, s) && pid in s.procs && s.procs[pid].Casing?
    ensures DispatchInv(cfg, Cas(s, pid, s.procs[pid], now))
  {
    hide AfterCas, DispatchInv, Set;
    var p := s.procs[pid];
    var store := SaveWithCas(s.store, p.next, p.events, Some(p.base.status)).0;
    AfterCasNeverHolds(p.next, p.andThen, now);
    QuietSet(cfg, s, s, pid, Stop);
    QuietSet(cfg, s,
             s.(store := store, owner := if p.next.status.Executing? then s.owner[p.next.jobId := pid] else s.owner),
             pid, AfterCas(p.next, p.andThen, now));
  }

  lemma ClaimKeeps(cfg: Config, s: State, pid: nat)
    requires DispatchInv(cfg, s) && pid in s.procs && s.procs[pid].Claiming?
    ensures DispatchInv(cfg, ClaimStep(cfg, s, pid, s.procs[pid]))
  {
    var s' := ClaimStep(cfg, s, pid, s.procs[pid]);
    var request := cfg.requestHash(CallOf(s.procs[pid].base.commitment));
    if request in s.store.claims {
      QuietStepKeeps(cfg, s, s');
    } else {
      forall q | q in s'.procs && Holding(s'.procs[q]) ensures HoldsClaim(cfg, s', q, s'.procs[q]) {
        if q != pid { assert HoldsClaim(cfg, s, q, s.procs[q]); }
      }
    }
  }

  lemma SaveKeeps(cfg: Config, s: State, pid: nat)
    requires DispatchInv(cfg, s) && pid in s.procs && s.procs[pid].Saving?
    ensures DispatchInv(cfg, SaveStep(cfg, s, pid, s.procs[pid]))
  {
    QuietStepKeeps(cfg, s, SaveStep(cfg, s, pid, s.procs[pid]));
  }

  /** Issuing spends the claim: no other call can be holding the same one. */
  lemma IssueKeeps(cfg: Config, s: State, pid: nat)
    requires DispatchInv(cfg, s) && pid in s.procs && s.procs[pid].Issuing?
    ensures DispatchInv(cfg, IssueStep(cfg, s, pid, s.procs[pid]))
  {
    var p := s.procs[pid];
    var s' := IssueStep(cfg, s, pid, p);
    assert HoldsClaim(cfg, s, pid, p);
    if p.base.execution.Some? {
      forall q | q in s'.procs && Holding(s'.procs[q]) ensures HoldsClaim(cfg, s', q, s'.procs[q]) {
        assert HoldsClaim(cfg, s, q, s.procs[q]);
      }
    } else {
      QuietStepKeeps(cfg, s, s');
    }
  }

  /** Recording an answer changes no request. */
  lemma RelabelKeeps(cfg: Config, s: State, k: nat, answer: Answer)
    requires DispatchInv(cfg, s) && k < |s.log|
    ensures DispatchInv(cfg, s.(log := s.log[k := s.log[k].(answer := answer)]))
  {
    var s' := s.(log := s.log[k := s.log[k].(answer := answer)]);
    assert forall i :: 0 <= i < |s.log| ==> s'.log[i].request == s.log[i].request && s'.log[i].call == s.log[i].call;
    forall q | q in s'.procs && Holding(s'.procs[q]) ensures HoldsClaim(cfg, s', q, s'.procs[q]) {
      assert HoldsClaim(cfg, s, q, s.procs[q]);
    }
  }

  lemma AnswerKeeps(cfg: Config, s: State, pid: nat, answer: Answer, now: Timestamp)
    requires DispatchInv(cfg, s) && pid in s.procs && s.procs[pid].Awaiting?
    ensures DispatchInv(cfg, AnswerStep(s, pid, s.procs[pid], answer, now))
  {
    hide DispatchInv, Set;
    var p := s.procs[pid];
    QuietSet(cfg, s, s, pid, Stop);
    if p.index < |s.log| && p.base.execution.Some? {
      var s' := s.(log := s.log[p.index := s.log[p.index].(answer := answer)]);
      RelabelKeeps(cfg, s, p.index, answer);
      if answer.Threw? {
        QuietSet(cfg, s', s', pid,
                 Go(Casing(p.base, p.base.(status := StateMachine.UnknownReconciling, updatedAt := now), [],
                                             [p.base.status, StateMachine.UnknownReconciling], Finish)));
      } else if answer.Answered? {
        var e := p.base.execution.value.(transactionHash := answer.txHash);
        QuietSet(cfg, s', s', pid, Go(Casing(p.base, Updated(p.base, StateMachine.Reconciling, e, now), [],
                                             [p.base.status, StateMachine.Reconciling], Resume)));
      }
    }
  }

  lemma AdvanceKeeps(cfg: Config, s: State, pid: nat, o: Observation)
    requires DispatchInv(cfg, s) && pid in s.procs
    ensures DispatchInv(cfg, AdvanceProc(cfg, s, pid, o))
  {
    hide Read, Cas, ClaimStep, SaveStep, IssueStep, AnswerStep, Local, DispatchInv, Set;
    var p := s.procs[pid];
    match p
    case Start(op) => ReadKeeps(cfg, s, pid, op, o.now);
    case IntakeSave(job) => QuietSet(cfg, s, s.(store := Save(s.store, job)), pid, Stop);
    case Casing(_, _, _, _, _) => CasKeeps(cfg, s, pid, o.now);
    case Claiming(_, _, _) => ClaimKeeps(cfg, s, pid);
    case Saving(_, _) => SaveKeeps(cfg, s, pid);
    case Issuing(_, _) => IssueKeeps(cfg, s, pid);
    case Awaiting(_, _) => AnswerKeeps(cfg, s, pid, o.answer, o.now);
    case _ =>
      LocalNeverHolds(cfg, ChainOf(s, p.base), p, o);
      QuietSet(cfg, s, s, pid, Local(cfg, ChainOf(s, p.base), p, o));
  }

  lemma DoKeeps(cfg: Config, s: State, step: Step)
    requires DispatchInv(cfg, s)
    ensures DispatchInv(cfg, Do(cfg, s, step))
  {
    hide AdvanceProc;
    if step.Advance? && step.pid in s.procs {
      AdvanceKeeps(cfg, s, step.pid, step.seen);
    } else {
      QuietStepKeeps(cfg, s, Do(cfg, s, step));
    }
  }

  lemma {:induction false} RunKeeps(cfg: Config, steps: seq<Step>)
    ensures DispatchInv(cfg, Run(cfg, steps))
  {
    hide Do;
    if steps != [] {
      RunKeeps(cfg, steps[..|steps| - 1]);
      DoKeeps(cfg, Run(cfg, steps[..|steps| - 1]), steps[|steps| - 1]);
    }
  }

  /** No two dispatches share a request hash, or a chain, Governor and proposal number. */
  ghost predicate NoneTwice(log: seq<Dispatch>) {
    forall k, l :: 0 <= k < l < |log| ==> log[k].request != log[l].request && log[k].call != log[l].call
  }

  /**
   * At most once, in every run whatever the environment does, atomic creation or not: no two dispatches share a request
   * hash, hence none share a chain, a Governor (in any letter case) and a proposal number (in any decimal spelling),
   * whichever jobs they came from.
   */
  lemma AtMostOnceDispatch(cfg: Config, steps: seq<Step>)
    ensures NoneTwice(Run(cfg, steps).log)
  {
    hide Run;
    RunKeeps(cfg, steps);
  }
}
