/** What one call's step on one job leaves true of every other call and every other job. */
module Frames {
  import opened Governor
  import opened Grounds
  import opened Invariant
  import opened Jobs
  import opened JobStore
  import opened Protocol
  import opened StateMachine

  /**
   * The step of call `pid` changes job `j` only, and either raises its rank or leaves it EXECUTING; while a job is
   * EXECUTING the call is its owner.
   */
  ghost predicate Touches(s: State, s': State, pid: nat, j: JobId) {
    && s'.chains == s.chains
    && j in s.store.jobs && j in s'.store.jobs
    && (forall i :: i in s'.store.jobs ==> i in s.store.jobs)
    && (forall i :: i in s.store.jobs && i != j ==> i in s'.store.jobs && s'.store.jobs[i] == s.store.jobs[i])
    && (forall i :: i != j ==> EventsOf(s'.store, i) == EventsOf(s.store, i))
    && (forall i :: i != j && i in s.owner ==> i in s'.owner && s'.owner[i] == s.owner[i])
    && (forall i :: i != j && i in s.issued ==> i in s'.issued && s'.issued[i] == s.issued[i])
    && |s.log| <= |s'.log|
    && (forall k :: 0 <= k < |s.log| && s.log[k].jobId != j ==> s'.log[k] == s.log[k])
    && s'.store.jobs[j].jobId == s.store.jobs[j].jobId == j
    && SameIdentity(s.store.jobs[j], s'.store.jobs[j])
    && (Rank(s.store.jobs[j].status) < Rank(s'.store.jobs[j].status) ||
        (s.store.jobs[j].status.Executing? && s'.store.jobs[j].status.Executing?))
    && (s.store.jobs[j].status.Executing? ==> j in s.owner && s.owner[j] == pid)
  }

  lemma FreshKept(s: State, s': State, pid: nat, j: JobId, base: Job)
    requires Touches(s, s', pid, j) && Fresh(s.store, base)
    requires base.status.Executing? ==> base.jobId != j
    ensures Fresh(s'.store, base)
  {
  }

  /** Nobody else owns the job a call is working on. */
  lemma OwnsKept(s: State, s': State, pid: nat, j: JobId, q: nat, base: Job)
    requires Touches(s, s', pid, j) && q != pid && Owns(s, q, base)
    ensures base.jobId != j && Owns(s', q, base)
  {
  }

  lemma BoundKeptElsewhere(s: State, s': State, pid: nat, j: JobId, job: Job)
    requires Touches(s, s', pid, j) && job.jobId != j && Bound(s.log, s.issued, job)
    ensures Bound(s'.log, s'.issued, job)
  {
  }

  lemma LegitKept(cfg: Config, s: State, s': State, pid: nat, j: JobId, base: Job, next: Job, events: seq<Event>)
    requires Touches(s, s', pid, j) && Legit(cfg, ChainOf(s, base), s.log, s.issued, base, next, events)
    requires base.status.Executing? ==> base.jobId != j
    ensures Legit(cfg, ChainOf(s', base), s'.log, s'.issued, base, next, events)
  {
    hide Touches, Bound, Judged, GovernorRead, Pristine, IsArm, IsDisarm, IsApproval, PrepareRefusal;
    assert ChainOf(s', base) == ChainOf(s, base) by { SameChain(s, s', pid, j, base); }
    if next.status.Reconciling? { BoundKeptElsewhere(s, s', pid, j, next); }
  }

  lemma SameChain(s: State, s': State, pid: nat, j: JobId, base: Job)
    requires Touches(s, s', pid, j)
    ensures ChainOf(s', base) == ChainOf(s, base)
  {
  }

  lemma CasKept(cfg: Config, s: State, s': State, pid: nat, j: JobId, q: nat, p: Proc)
    requires Touches(s, s', pid, j) && q != pid && p.Casing? && Fresh(s.store, p.base) && CasOk(cfg, s, q, p)
    ensures Fresh(s'.store, p.base) && CasOk(cfg, s', q, p)
  {
    hide Touches, Fresh, Owns, Captured, Legit, IsPath, Trail;
    SameChain(s, s', pid, j, p.base);
    if p.base.status.Executing? { OwnsKept(s, s', pid, j, q, p.base); }
    FreshKept(s, s', pid, j, p.base);
    LegitKept(cfg, s, s', pid, j, p.base, p.next, p.events);
  }

  lemma AwaitingKept(s: State, s': State, pid: nat, j: JobId, q: nat, base: Job, k: nat)
    requires Touches(s, s', pid, j) && q != pid && Owns(s, q, base)
    requires k < |s.log| && s.log[k].jobId == base.jobId && base.jobId in s.issued && s.issued[base.jobId] == k
    ensures k < |s'.log| && s'.log[k] == s.log[k] && base.jobId in s'.issued && s'.issued[base.jobId] == k
  {
    OwnsKept(s, s', pid, j, q, base);
  }

  lemma OtherProcKept(cfg: Config, s: State, s': State, pid: nat, j: JobId, q: nat, p: Proc)
    requires Touches(s, s', pid, j) && q != pid && ProcOk(cfg, s, q, p)
    ensures ProcOk(cfg, s', q, p)
  {
    hide Touches, Fresh, Owns, Captured, CasOk, Checked, CheckedAction, Walked, Pristine, AuthorizationAt;
    if p.Start? || p.IntakeSave? { return; }
    SameChain(s, s', pid, j, p.base);
    if p.Casing? {
      CasKept(cfg, s, s', pid, j, q, p);
    } else if p.Claiming? || p.Saving? || p.Issuing? || p.Awaiting? {
      OwnsKept(s, s', pid, j, q, p.base);
      if p.Awaiting? { AwaitingKept(s, s', pid, j, q, p.base, p.index); }
    } else if !p.ArmAuthorization? || p.base.status.ReviewReady? {
      assert !p.base.status.Executing? by { NotExecuting(cfg, s, q, p); }
      FreshKept(s, s', pid, j, p.base);
    }
  }

  lemma NotExecuting(cfg: Config, s: State, q: nat, p: Proc)
    requires ProcOk(cfg, s, q, p) && !p.Start? && !p.IntakeSave? && !p.Casing?
    requires !p.Claiming? && !p.Saving? && !p.Issuing? && !p.Awaiting?
    requires p.ArmAuthorization? ==> p.base.status.ReviewReady?
    ensures Fresh(s.store, p.base) && !p.base.status.Executing?
  {
    hide Fresh, Captured, Checked, CheckedAction, AuthorizationAt;
  }

  lemma OtherJobKept(cfg: Config, s: State, s': State, pid: nat, j: JobId, i: JobId)
    requires Touches(s, s', pid, j) && i != j && i in s.store.jobs && s.store.jobs[i].jobId == i
    requires JobOk(cfg, ChainOf(s, s.store.jobs[i]), s.log, s.issued, s.store.jobs[i], EventsOf(s.store, i))
    ensures JobOk(cfg, ChainOf(s', s'.store.jobs[i]), s'.log, s'.issued, s'.store.jobs[i], EventsOf(s'.store, i))
  {
    hide RecordShape, LogShape, ChainFacts, Bound, Durable, EventsOf;
    if PastDispatch(s.store.jobs[i].status) { BoundKeptElsewhere(s, s', pid, j, s.store.jobs[i]); }
  }
}
