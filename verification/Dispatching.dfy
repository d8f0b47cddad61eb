/** Issuing a call to KeeperHub and recording its answer keep the invariant. */
module Dispatching {
  import opened AtMostOnce
  import opened Frames
  import opened Governor
  import opened Grounds
  import opened Invariant
  import opened Jobs
  import opened JobStore
  import opened LocalSteps
  import opened Protocol
  import opened Safety
  import opened StateMachine
  import opened Wrappers

  // ------------------------------------------------------------------ issue

  /** A call about to dispatch for its job is the first to do so: the claim it holds is unspent. */
  lemma NothingDispatchedYet(cfg: Config, s: State, pid: nat, p: Proc, k: nat)
    requires DispatchInv(cfg, s) && pid in s.procs && s.procs[pid] == p && p.Issuing?
    requires Owns(s, pid, p.base) && k < |s.log| && EntryOk(cfg, s, k, s.log[k])
    ensures s.log[k].jobId != p.base.jobId
  {
    hide Captured;
    assert HoldsClaim(cfg, s, pid, p);
  }

  lemma CapturedBelow(cfg: Config, chain: Chain, c: Commitment, e: ExecutionState, b: nat)
    requires Captured(cfg, chain, c, e, b)
    ensures e.preStateBlock < |chain.blocks| && b < |chain.blocks|
  {
    hide Seen, Erc20.TryDecodeTransfer;
  }

  lemma IssuedEntryOk(cfg: Config, s: State, mid: State, pid: nat, base: Job, d: Dispatch)
    requires Owns(s, pid, base) && d.jobId == base.jobId && d.call == CallOf(base.commitment) && d.answer.Silent?
    requires d.execution.requestHash == Some(d.request)
    requires Captured(cfg, ChainOf(s, base), base.commitment, d.execution, d.authBlock)
    requires d.minedBlocks == |ChainOf(s, base).blocks|
    requires mid == s.(log := s.log + [d], issued := s.issued[base.jobId := |s.log|])
    ensures EntryOk(cfg, mid, |s.log|, d)
  {
    hide Captured;
    CapturedBelow(cfg, ChainOf(s, base), base.commitment, d.execution, d.authBlock);
  }

  lemma IssuedProcOk(cfg: Config, s: State, mid: State, pid: nat, base: Job, d: Dispatch)
    requires Owns(s, pid, base) && base.execution.Some? && d.jobId == base.jobId && d.execution == base.execution.value
    requires mid == s.(log := s.log + [d], issued := s.issued[base.jobId := |s.log|])
    ensures OutcomeOk(cfg, mid, pid, Go(Awaiting(base, |s.log|)))
  {
    hide Pristine;
  }

  lemma ProcAtIssue(cfg: Config, s: State, pid: nat, p: Proc)
    requires ProcsOk(cfg, s) && pid in s.procs && s.procs[pid] == p && p.Issuing?
    ensures CarriesRequest(cfg, p.base)
  {
    hide ProcOk;
    assert ProcOk(cfg, s, pid, p);
    IssuingParts(cfg, s, pid, p);
  }

  lemma IssueKeepsInv(cfg: Config, s: State, pid: nat)
    requires Inv(cfg, s) && DispatchInv(cfg, s) && pid in s.procs && s.procs[pid].Issuing?
    ensures Inv(cfg, IssueStep(cfg, s, pid, s.procs[pid]))
  {
    hide Inv, DispatchInv, JobOk, EntryOk, Touches, Captured, ProcOk, OwnerStep, OutcomeOk, Set, Owns;
    var p := s.procs[pid];
    InvJobs(cfg, s);
    SavingParts(cfg, s, pid, p);
    assert CarriesRequest(cfg, p.base) by { ProcAtIssue(cfg, s, pid, p); }
    var j, call := p.base.jobId, CallOf(p.base.commitment);
    var d := Dispatch(j, call, cfg.requestHash(call), p.base.execution.value, p.authBlock, |ChainOf(s, p.base).blocks|,
                      Silent);
    var mid := s.(log := s.log + [d], issued := s.issued[j := |s.log|]);
    assert OwnerStep(s, mid, pid, p.base) && mid.store.jobs[j] == p.base by { StillIsOwnerStep(s, mid, pid, p.base); }
    OwnerTouches(s, mid, pid, p.base);
    ExecutingJobOk(cfg, s, mid, pid, p.base);
    IssuedProcOk(cfg, s, mid, pid, p.base, d);
    forall k | 0 <= k < |s.log| ensures s.log[k].jobId != j {
      EntryPast(cfg, s, k);
      NothingDispatchedYet(cfg, s, pid, p, k);
    }
    IssuedEntryOk(cfg, s, mid, pid, p.base, d);
    TouchAndGo(cfg, s, mid, pid, j, Go(Awaiting(p.base, |s.log|)));
  }

  lemma StillIsOwnerStep(s: State, mid: State, pid: nat, base: Job)
    requires Owns(s, pid, base) && mid.store == s.store && mid.chains == s.chains && mid.owner == s.owner
    ensures OwnerStep(s, mid, pid, base) && mid.store.jobs[base.jobId] == base
  {
  }

  // ------------------------------------------------------------------ answer

  function Relabelled(s: State, k: nat, answer: Answer): State
    requires k < |s.log|
  {
    s.(log := s.log[k := s.log[k].(answer := answer)])
  }

  lemma AnsweredEntryOk(cfg: Config, s: State, pid: nat, base: Job, k: nat, answer: Answer)
    requires Owns(s, pid, base) && k < |s.log| && s.log[k].jobId == base.jobId && EntryOk(cfg, s, k, s.log[k])
    requires answer.Answered? && answer.txHash.Some? && answer.txHash.value in ChainOf(s, base).receipts ==>
               ChainOf(s, base).receipts[answer.txHash.value].block >= s.log[k].minedBlocks
    ensures EntryOk(cfg, Relabelled(s, k, answer), k, Relabelled(s, k, answer).log[k])
  {
    hide Captured;
  }

  lemma ThrewOk(cfg: Config, s: State, pid: nat, base: Job, now: Timestamp)
    requires Owns(s, pid, base)
    ensures OutcomeOk(cfg, s, pid, Go(Casing(base, base.(status := UnknownReconciling, updatedAt := now), [],
                                             [base.status, UnknownReconciling], Finish)))
  {
    hide IsPath, Bound, Judged, GovernorRead, Captured;
    OneEdge(base, UnknownReconciling);
  }

  lemma AnsweredLegit(cfg: Config, chain: Chain, log: seq<Dispatch>, issued: map<JobId, nat>, base: Job, next: Job)
    requires base.status.Executing? && next.status.Reconciling? &&
             SameIdentity(base, next) && next.receipt == base.receipt
    requires Bound(log, issued, next)
    ensures Legit(cfg, chain, log, issued, base, next, []) &&
            Durable(next.status) && Rank(base.status) < Rank(next.status)
  {
    hide Judged, GovernorRead, PrepareRefusal, Pristine;
    assert !PrepareRefusal(Reconciling) by { ReconcilingIsNoRefusal(); }
  }

  lemma ReconcilingIsNoRefusal()
    ensures !PrepareRefusal(Reconciling)
  {
  }

  lemma AnsweredOk(cfg: Config, s: State, pid: nat, base: Job, k: nat, txHash: Option<TxHash>, now: Timestamp)
    requires Owns(s, pid, base) && base.execution.Some? && k < |s.log| && s.log[k].jobId == base.jobId
    requires s.log[k].execution == base.execution.value && s.log[k].answer == Answered(txHash)
    requires base.jobId in s.issued && s.issued[base.jobId] == k
    ensures OutcomeOk(cfg, s, pid,
                      Go(Casing(base,
                                Updated(base, Reconciling, base.execution.value.(transactionHash := txHash), now), [],
                                             [base.status, Reconciling], Resume)))
  {
    hide IsPath, Legit, Durable, OutcomeOk, Trail;
    var next := Updated(base, Reconciling, base.execution.value.(transactionHash := txHash), now);
    OneEdge(base, Reconciling);
    AnsweredLegit(cfg, ChainOf(s, base), s.log, s.issued, base, next);
    assert Fresh(s.store, base) by { ExecutingIsDurable(); }
    CasingOk(cfg, s, pid, base, next, [], [base.status, Reconciling], Resume);
  }

  lemma ExecutingIsDurable()
    ensures Durable(Executing)
  {
  }

  lemma AwaitingParts(cfg: Config, s: State, pid: nat, p: Proc)
    requires ProcsOk(cfg, s) && pid in s.procs && s.procs[pid] == p && p.Awaiting?
    ensures Owns(s, pid, p.base) && p.base.execution.Some? && p.index < |s.log| && s.log[p.index].jobId == p.base.jobId
    ensures s.log[p.index].execution == p.base.execution.value
    ensures p.base.jobId in s.issued && s.issued[p.base.jobId] == p.index
  {
    hide Pristine, Owns;
    assert ProcOk(cfg, s, pid, p);
  }

  /** A job has one entry in the log. */
  lemma OneEntry(cfg: Config, s: State, k: nat, j: JobId)
    requires k < |s.log| && EntryOk(cfg, s, k, s.log[k]) && s.log[k].jobId == j
    ensures j in s.issued && s.issued[j] == k
  {
    hide DispatchOk;
  }

  lemma RelabelReady(cfg: Config, s: State, pid: nat, answer: Answer)
    requires Inv(cfg, s) && pid in s.procs && s.procs[pid].Awaiting? && s.procs[pid].index < |s.log|
    requires AnswerIsNew(s, s.procs[pid], answer)
    ensures var p := s.procs[pid]; var j, mid := p.base.jobId, Relabelled(s, p.index, answer);
            && Touches(s, mid, pid, j)
            && JobOk(cfg, ChainOf(mid, mid.store.jobs[j]), mid.log, mid.issued, mid.store.jobs[j],
                     EventsOf(mid.store, j))
            && (forall k :: 0 <= k < |mid.log| && mid.log[k].jobId == j ==> EntryOk(cfg, mid, k, mid.log[k]))
            && (forall k :: 0 <= k < |mid.log| && mid.log[k].jobId != j ==> k < |s.log| && s.log[k].jobId != j)
  {
    hide Inv, JobOk, EntryOk, Touches, ProcOk, OwnerStep, Owns, Pristine;
    var p := s.procs[pid];
    InvJobs(cfg, s);
    AwaitingParts(cfg, s, pid, p);
    var j, mid := p.base.jobId, Relabelled(s, p.index, answer);
    StillIsOwnerStep(s, mid, pid, p.base);
    OwnerTouches(s, mid, pid, p.base);
    ExecutingJobOk(cfg, s, mid, pid, p.base);
    forall k | 0 <= k < |mid.log| && mid.log[k].jobId == j ensures EntryOk(cfg, mid, k, mid.log[k]) {
      EntryPast(cfg, s, k);
      OneEntry(cfg, s, k, j);
      AnsweredEntryOk(cfg, s, pid, p.base, k, answer);
    }
  }

  lemma AnswerKeepsInv(cfg: Config, s: State, pid: nat, answer: Answer, now: Timestamp)
    requires Inv(cfg, s) && pid in s.procs && s.procs[pid].Awaiting?
    requires AnswerIsNew(s, s.procs[pid], answer)
    ensures Inv(cfg, AnswerStep(s, pid, s.procs[pid], answer, now))
  {
    hide Inv, JobOk, EntryOk, Touches, Set, OutcomeOk, EventsOf, Owns;
    var p := s.procs[pid];
    InvJobs(cfg, s);
    AwaitingParts(cfg, s, pid, p);
    if !answer.Silent? {
      RelabelReady(cfg, s, pid, answer);
      var mid := Relabelled(s, p.index, answer);
      assert Owns(mid, pid, p.base) by { OwnsSame(s, mid, pid, p.base); }
      if answer.Threw? {
        ThrewOk(cfg, mid, pid, p.base, now);
        TouchAndGo(cfg, s, mid, pid, p.base.jobId,
                   Go(Casing(p.base, p.base.(status := UnknownReconciling, updatedAt := now), [],
                             [p.base.status, UnknownReconciling], Finish)));
      } else {
        AnsweredOk(cfg, mid, pid, p.base, p.index, answer.txHash, now);
        var e := p.base.execution.value.(transactionHash := answer.txHash);
        TouchAndGo(cfg, s, mid, pid, p.base.jobId,
                   Go(Casing(p.base, Updated(p.base, Reconciling, e, now), [], [p.base.status, Reconciling], Resume)));
      }
    }
  }

  lemma OwnsSame(s: State, s': State, pid: nat, base: Job)
    requires Owns(s, pid, base) && s'.store == s.store && s'.owner == s.owner
    ensures Owns(s', pid, base)
  {
  }
}
