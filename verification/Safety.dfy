/** Every step of every run keeps the invariant. */
module Safety {
  import opened Frames
  import opened Governor
  import opened Grounds
  import opened Invariant
  import opened Jobs
  import opened JobStore
  import opened LocalSteps
  import opened Moves
  import opened Protocol
  import opened StateMachine
  import opened Wrappers

  // ------------------------------------------------------------------ steps that touch nothing shared

  /** Two states that differ in the set of calls, or in the claims, at most. */
  ghost predicate SameShared(s: State, s': State) {
    s'.store.jobs == s.store.jobs && s'.chains == s.chains &&
    s'.log == s.log && s'.issued == s.issued && s'.owner == s.owner
  }

  lemma PartsFrame(cfg: Config, s: State, s': State, pid: nat, base: Job)
    requires SameShared(s, s')
    ensures Fresh(s'.store, base) == Fresh(s.store, base) && Owns(s', pid, base) == Owns(s, pid, base)
    ensures ChainOf(s', base) == ChainOf(s, base)
  {
  }

  lemma CasFrame(cfg: Config, s: State, s': State, pid: nat, p: Proc)
    requires SameShared(s, s') && p.Casing? && CasOk(cfg, s, pid, p)
    ensures CasOk(cfg, s', pid, p)
  {
    hide Captured, Legit, IsPath, Trail, Fresh, Owns, ChainOf;
    PartsFrame(cfg, s, s', pid, p.base);
  }

  lemma ProcOkFrame(cfg: Config, s: State, s': State, pid: nat, p: Proc)
    requires SameShared(s, s') && ProcOk(cfg, s, pid, p)
    ensures ProcOk(cfg, s', pid, p)
  {
    hide Captured, Checked, CheckedAction, Walked, Pristine, AuthorizationAt, Fresh, Owns, CasOk, ChainOf;
    if p.Start? || p.IntakeSave? { return; }
    PartsFrame(cfg, s, s', pid, p.base);
    if p.Casing? { CasFrame(cfg, s, s', pid, p); }
  }

  lemma SetKeeps(cfg: Config, s: State, pid: nat, next: Outcome)
    requires Inv(cfg, s) && OutcomeOk(cfg, s, pid, next)
    ensures Inv(cfg, Set(s, pid, next))
  {
    hide ProcOk, JobOk, EntryOk;
    var s' := Set(s, pid, next);
    forall q | q in s'.procs ensures ProcOk(cfg, s', q, s'.procs[q]) {
      ProcOkFrame(cfg, s, s', q, s'.procs[q]);
    }
    forall k | 0 <= k < |s'.log| ensures EntryOk(cfg, s', k, s'.log[k]) { EntryFrame(cfg, s, s', k); }
  }

  lemma EntryFrame(cfg: Config, s: State, s': State, k: nat)
    requires k < |s.log| && EntryOk(cfg, s, k, s.log[k])
    requires s'.store.jobs == s.store.jobs && s'.chains == s.chains && s'.log == s.log && s'.issued == s.issued
    ensures EntryOk(cfg, s', k, s'.log[k])
  {
    hide DispatchOk;
  }

  lemma LocalOk(cfg: Config, s: State, pid: nat, p: Proc, o: Observation)
    requires ProcOk(cfg, s, pid, p) && !p.Start? && !p.IntakeSave? && ClosingRead(cfg, ChainOf(s, p.base), p, o)
    ensures OutcomeOk(cfg, s, pid, Local(cfg, ChainOf(s, p.base), p, o))
  {
    hide OutcomeOk, Fresh, CasOk, Owns, Captured, Checked, CheckedAction, Walked, Pristine, AuthorizationAt, ChainOf,
      PrepareEligibilityStep, PrepareAuthorizationStep, PrepareBlockStep, PrepareSnapshotStep, PrepareSimulateStep,
      ApproveAuthorizationStep, ApproveSimulateStep, ApproveSnapshotStep, ReconcileReceiptStep, ReconcileFinalityStep,
      ReconcileGovernorStep, FinalVerifyStep, Protocol.Eligible, ArmJob, CasMove;
    Simply(cfg, s, pid, p);
    match p
    case ArmAuthorization(base, actor) => ArmOk(cfg, s, pid, base, actor, o);
    case PrepareEligibility(base) => PrepareEligibilityOk(cfg, s, pid, base, o);
    case PrepareAuthorization(base, trail) => PrepareAuthorizationOk(cfg, s, pid, base, trail, o);
    case PrepareBlock(base, trail, action) => PrepareBlockOk(cfg, s, pid, base, trail, action, o);
    case PrepareSnapshot(base, trail, action, b) => PrepareSnapshotOk(cfg, s, pid, base, trail, action, b, o);
    case PrepareSimulate(base, trail, e) => PrepareSimulateOk(cfg, s, pid, base, trail, e, o);
    case ApproveEligibility(base, actor) => ApproveEligibilityOk(cfg, s, pid, base, actor, o);
    case ApproveAuthorization(base, actor) => ApproveAuthorizationOk(cfg, s, pid, base, actor, o);
    case ApproveSimulate(base, actor, actions, b) => ApproveSimulateOk(cfg, s, pid, base, actor, actions, b, o);
    case ApproveBlock(base, actor, action, b) => Simply(cfg, s, pid, ApproveSnapshot(base, actor, action, b, o.block));
    case ApproveSnapshot(base, actor, action, b, pre) => ApproveSnapshotOk(cfg, s, pid, base, actor, action, b, pre, o);
    case ReconcileReceipt(base) => ReconcileReceiptOk(cfg, s, pid, base, o);
    case ReconcileFinality(base, attempt) => ReconcileFinalityOk(cfg, s, pid, base, attempt, o);
    case ReconcileGovernor(base, attempt) => ReconcileGovernorOk(cfg, s, pid, base, attempt, o);
    case FinalAuthorization(base) => FinalAuthorizationOk(cfg, s, pid, base, o);
    case FinalVerify(base, actions, b) => FinalVerifyOk(cfg, s, pid, base, actions, b, o);
    case _ =>
  }

  // ------------------------------------------------------------------ steps that touch one job

  lemma TouchKeeps(cfg: Config, s: State, s': State, pid: nat, j: JobId)
    requires Inv(cfg, s) && Touches(s, s', pid, j)
    requires forall q :: q in s'.procs && q != pid ==> q in s.procs && s'.procs[q] == s.procs[q]
    requires pid in s'.procs ==> ProcOk(cfg, s', pid, s'.procs[pid])
    requires JobOk(cfg, ChainOf(s', s'.store.jobs[j]), s'.log, s'.issued, s'.store.jobs[j], EventsOf(s'.store, j))
    requires forall k :: 0 <= k < |s'.log| && s'.log[k].jobId == j ==> EntryOk(cfg, s', k, s'.log[k])
    requires forall k :: 0 <= k < |s'.log| && s'.log[k].jobId != j ==> k < |s.log| && s.log[k].jobId != j
    ensures Inv(cfg, s')
  {
    hide ProcOk, JobOk, EntryOk, EventsOf, Touches;
    TouchesMeans(s, s', pid, j);
    forall q | q in s'.procs ensures ProcOk(cfg, s', q, s'.procs[q]) {
      if q != pid { OtherProcKept(cfg, s, s', pid, j, q, s.procs[q]); }
    }
    forall i | i in s'.store.jobs
      ensures JobOk(cfg, ChainOf(s', s'.store.jobs[i]), s'.log, s'.issued, s'.store.jobs[i], EventsOf(s'.store, i))
    {
      if i != j { OtherJobKept(cfg, s, s', pid, j, i); }
    }
    forall k | 0 <= k < |s'.log| ensures EntryOk(cfg, s', k, s'.log[k]) {
      if s'.log[k].jobId != j { EntryKeptElsewhere(cfg, s, s', pid, j, k); }
    }
  }

  lemma TouchesMeans(s: State, s': State, pid: nat, j: JobId)
    requires Touches(s, s', pid, j)
    ensures j in s.store.jobs && j in s'.store.jobs && s'.store.jobs[j].jobId == j
    ensures forall i :: i in s'.store.jobs ==> i in s.store.jobs
    ensures forall i :: i in s.store.jobs && i != j ==> i in s'.store.jobs && s'.store.jobs[i] == s.store.jobs[i]
    ensures forall i :: i != j ==> EventsOf(s'.store, i) == EventsOf(s.store, i)
    ensures |s.log| <= |s'.log|
  {
    hide EventsOf, SameIdentity, Rank;
  }

  lemma EntryKeptElsewhere(cfg: Config, s: State, s': State, pid: nat, j: JobId, k: nat)
    requires Touches(s, s', pid, j) && k < |s.log| && s.log[k].jobId != j && EntryOk(cfg, s, k, s.log[k])
    ensures EntryOk(cfg, s', k, s'.log[k])
  {
    hide DispatchOk;
  }

  lemma SetSame(s: State, pid: nat, next: Outcome)
    ensures var s' := Set(s, pid, next);
            s'.store == s.store && s'.chains == s.chains &&
            s'.log == s.log && s'.issued == s.issued && s'.owner == s.owner
    ensures next.Stop? ==> pid !in Set(s, pid, next).procs
    ensures next.Go? ==> pid in Set(s, pid, next).procs && Set(s, pid, next).procs[pid] == next.proc
    ensures forall q :: q in Set(s, pid, next).procs && q != pid ==>
        q in s.procs && Set(s, pid, next).procs[q] == s.procs[q]
  {
  }

  /** One call works on one job and then moves on. */
  lemma TouchAndGo(cfg: Config, s: State, mid: State, pid: nat, j: JobId, next: Outcome)
    requires Inv(cfg, s) && Touches(s, mid, pid, j) && mid.procs == s.procs
    requires OutcomeOk(cfg, mid, pid, next)
    requires JobOk(cfg, ChainOf(mid, mid.store.jobs[j]), mid.log, mid.issued, mid.store.jobs[j], EventsOf(mid.store, j))
    requires forall k :: 0 <= k < |mid.log| && mid.log[k].jobId == j ==> EntryOk(cfg, mid, k, mid.log[k])
    requires forall k :: 0 <= k < |mid.log| && mid.log[k].jobId != j ==> k < |s.log| && s.log[k].jobId != j
    ensures Inv(cfg, Set(mid, pid, next))
  {
    hide Inv, ProcOk, JobOk, EntryOk, EventsOf, Set, SameIdentity, Rank;
    var s' := Set(mid, pid, next);
    SetSame(mid, pid, next);
    if next.Go? { ProcOkFrame(cfg, mid, s', pid, next.proc); }
    assert ChainOf(s', s'.store.jobs[j]) == ChainOf(mid, mid.store.jobs[j]);
    forall k | 0 <= k < |s'.log| && s'.log[k].jobId == j ensures EntryOk(cfg, s', k, s'.log[k]) {
      EntryFrame(cfg, mid, s', k);
    }
    TouchKeeps(cfg, s, s', pid, j);
  }

  /** A dispatch stays accounted for while its job moves on. */
  lemma EntryMoved(cfg: Config, s: State, s': State, pid: nat, j: JobId, k: nat)
    requires Touches(s, s', pid, j) && k < |s.log| && EntryOk(cfg, s, k, s.log[k]) && s.log[k].jobId == j
    requires s'.log[k] == s.log[k] && j in s'.issued && s'.issued[j] == s.issued[j]
    requires PastApproval(s'.store.jobs[j].status)
    ensures EntryOk(cfg, s', k, s'.log[k])
  {
    hide Captured, Rank, EventsOf, PastApproval;
  }

  // ------------------------------------------------------------------ reading

  lemma DisarmOk(cfg: Config, s: State, pid: nat, base: Job, actor: string, reason: Option<string>, now: Timestamp)
    requires Fresh(s.store, base) && Durable(base.status)
    ensures OutcomeOk(cfg, s, pid, CasMove(base, DisarmJob(base, actor, reason, now), Finish))
  {
    hide Fresh, IsPath, Bound, Judged, GovernorRead, Captured, Owns;
    if Disarmable(base.status) { OneEdge(base, DisarmedByUser); }
  }

  lemma ApproveOnlyOk(cfg: Config, s: State, pid: nat, base: Job, actor: string, now: Timestamp)
    requires Fresh(s.store, base) && RecordShape(base)
    ensures OutcomeOk(cfg, s, pid, CasMove(base, ApproveJob(base, base.commitmentHash, actor, now), Finish))
  {
    hide Fresh, IsPath, Bound, Judged, GovernorRead, Captured, Owns, PrepareRefusal;
    RouteIsNoRefusal();
    if base.status.AwaitingApproval? { OneEdge(base, Executing); }
  }

  lemma ReconcileStartOk(cfg: Config, s: State, pid: nat, base: Job, now: Timestamp)
    requires Fresh(s.store, base) && RecordShape(base) && ChainFacts(cfg, ChainOf(s, base), base)
    ensures OutcomeOk(cfg, s, pid, ReconcileStart(base, now))
  {
    hide Fresh, OutcomeOk, NextPhase, Judged, GovernorRead;
    Simply(cfg, s, pid, FinalAuthorization(base));
    if base.execution.Some? && !base.status.Executing? && !base.status.UnknownReconciling? {
      NextPhaseOk(cfg, s, pid, base, now);
    }
  }

  lemma StoredIsFresh(cfg: Config, s: State, j: JobId)
    requires JobsOk(cfg, s) && j in s.store.jobs
    ensures Fresh(s.store, s.store.jobs[j]) && RecordShape(s.store.jobs[j]) && Durable(s.store.jobs[j].status)
    ensures ChainFacts(cfg, ChainOf(s, s.store.jobs[j]), s.store.jobs[j])
  {
    hide RecordShape, LogShape, ChainFacts, Bound, Durable, Rank;
    assert JobOk(cfg, ChainOf(s, s.store.jobs[j]), s.log, s.issued, s.store.jobs[j], EventsOf(s.store, j));
  }

  lemma AfterReadOk(cfg: Config, s: State, pid: nat, op: Op, base: Job, now: Timestamp)
    requires Fresh(s.store, base) && Durable(base.status) &&
             RecordShape(base) && ChainFacts(cfg, ChainOf(s, base), base)
    ensures OutcomeOk(cfg, s, pid, AfterRead(op, base, now))
  {
    hide OutcomeOk, CasMove, DisarmJob, ApproveJob, ReconcileStart, RecordShape, ChainFacts, Durable, Fresh;
    Simply(cfg, s, pid, FinalAuthorization(base));
    match op
    case Disarm(_, actor, reason) => DisarmOk(cfg, s, pid, base, actor, reason, now);
    case ApproveOnly(_, actor) => ApproveOnlyOk(cfg, s, pid, base, actor, now);
    case Reconcile(_) => ReconcileStartOk(cfg, s, pid, base, now);
    case Arm(_, actor) => Simply(cfg, s, pid, ArmAuthorization(base, actor));
    case Prepare(_) => Simply(cfg, s, pid, PrepareEligibility(base));
    case Approve(_, actor) => Simply(cfg, s, pid, ApproveEligibility(base, actor));
    case Intake(_, _) =>
  }

  /** A new job under an id nobody has stored yet. */
  lemma CreateKeeps(cfg: Config, s: State, pid: nat, job: Job)
    requires Inv(cfg, s) && job.jobId !in s.store.jobs && Newborn(cfg, job)
    ensures Inv(cfg, Set(s.(store := Save(s.store, job)), pid, Stop))
  {
    var jobId, s' := job.jobId, Set(s.(store := Save(s.store, job)), pid, Stop);
    hide ProcOk, JobOk, EntryOk, Newborn;
    assert forall i :: EventsOf(s'.store, i) == EventsOf(s.store, i);
    forall q | q in s'.procs ensures ProcOk(cfg, s', q, s'.procs[q]) {
      CreateKeepsProc(cfg, s, s', q, s.procs[q], jobId);
    }
    forall i | i in s'.store.jobs
      ensures JobOk(cfg, ChainOf(s', s'.store.jobs[i]), s'.log, s'.issued, s'.store.jobs[i], EventsOf(s'.store, i))
    {
      if i == jobId { CreatedOk(cfg, ChainOf(s', job), s'.log, s'.issued, job); }
    }
    forall k | 0 <= k < |s'.log| ensures EntryOk(cfg, s', k, s'.log[k]) { CreateKeepsEntry(cfg, s, s', k, jobId); }
  }

  lemma CreatedOk(cfg: Config, chain: Chain, log: seq<Dispatch>, issued: map<JobId, nat>, job: Job)
    requires Newborn(cfg, job)
    ensures JobOk(cfg, chain, log, issued, job, [])
  {
    hide Bound, Judged, GovernorRead, Pristine;
  }

  lemma CreateKeepsEntry(cfg: Config, s: State, s': State, k: nat, jobId: JobId)
    requires k < |s.log| && EntryOk(cfg, s, k, s.log[k]) && jobId !in s.store.jobs
    requires s'.chains == s.chains && s'.log == s.log && s'.issued == s.issued
    requires forall i :: i in s.store.jobs ==> i in s'.store.jobs && s'.store.jobs[i] == s.store.jobs[i]
    ensures EntryOk(cfg, s', k, s'.log[k])
  {
    hide DispatchOk;
  }

  lemma CreateKeepsProc(cfg: Config, s: State, s': State, q: nat, p: Proc, jobId: JobId)
    requires ProcOk(cfg, s, q, p) && jobId !in s.store.jobs
    requires s'.chains == s.chains && s'.log == s.log && s'.issued == s.issued && s'.owner == s.owner
    requires forall i :: i in s.store.jobs ==> i in s'.store.jobs && s'.store.jobs[i] == s.store.jobs[i]
    ensures ProcOk(cfg, s', q, p)
  {
    hide Captured, Checked, CheckedAction, Walked, Pristine, AuthorizationAt, Fresh, Owns, Legit, IsPath, Trail,
      ChainOf;
    if p.Start? || p.IntakeSave? { return; }
    assert ChainOf(s', p.base) == ChainOf(s, p.base) by { PartsCreated(s, s', q, p.base); }
    PartsCreated(s, s', q, p.base);
  }

  lemma PartsCreated(s: State, s': State, pid: nat, base: Job)
    requires s'.chains == s.chains && s'.owner == s.owner
    requires forall i :: i in s.store.jobs ==> i in s'.store.jobs && s'.store.jobs[i] == s.store.jobs[i]
    ensures Fresh(s.store, base) ==> Fresh(s'.store, base)
    ensures Owns(s, pid, base) ==> Owns(s', pid, base)
    ensures ChainOf(s', base) == ChainOf(s, base)
  {
  }

  lemma IntakeSaveOk(cfg: Config, s: State, pid: nat, job: Job)
    requires !cfg.atomicCreation && Newborn(cfg, job)
    ensures OutcomeOk(cfg, s, pid, Go(IntakeSave(job)))
  {
  }

  lemma ReadKeepsInv(cfg: Config, s: State, pid: nat, op: Op, now: Timestamp)
    requires Inv(cfg, s)
    ensures Inv(cfg, Read(cfg, s, pid, op, now))
  {
    hide Inv, Set, AfterRead, OutcomeOk;
    if op.jobId in s.store.jobs {
      assert JobsOk(cfg, s) by { InvJobs(cfg, s); }
      StoredIsFresh(cfg, s, op.jobId);
      AfterReadOk(cfg, s, pid, op, s.store.jobs[op.jobId], now);
      SetKeeps(cfg, s, pid, AfterRead(op, s.store.jobs[op.jobId], now));
    } else if !op.Intake? {
      StopKeeps(cfg, s, pid);
    } else {
      var job := CreateReviewReadyJob(op.jobId, op.commitment, cfg.commitmentHash(op.commitment), now);
      if cfg.atomicCreation {
        CreateKeeps(cfg, s, pid, job);
      } else {
        IntakeSaveOk(cfg, s, pid, job);
        SetKeeps(cfg, s, pid, Go(IntakeSave(job)));
      }
    }
  }

  lemma InvJobs(cfg: Config, s: State)
    requires Inv(cfg, s)
    ensures JobsOk(cfg, s) && LogOk(cfg, s) && ProcsOk(cfg, s)
  {
    hide JobsOk, LogOk, ProcsOk;
  }

  lemma StopKeeps(cfg: Config, s: State, pid: nat)
    requires Inv(cfg, s)
    ensures Inv(cfg, Set(s, pid, Stop))
  {
    hide Inv, Set, ProcOk;
    SetKeeps(cfg, s, pid, Stop);
  }

  // ------------------------------------------------------------------ compare-and-set

  lemma CasConflictKeeps(cfg: Config, s: State, pid: nat, p: Proc)
    requires Inv(cfg, s) && p.Casing? && pid in s.procs && s.procs[pid] == p
    ensures Fresh(s.store, p.base) && CasOk(cfg, s, pid, p)
    ensures JobsOk(cfg, s) && LogOk(cfg, s)
  {
    hide Fresh, CasOk, JobsOk, LogOk;
    assert ProcOk(cfg, s, pid, s.procs[pid]);
  }

  /** A compare-and-set that wins has compared the whole document. */
  lemma WinnerSawTheDocument(cfg: Config, s: State, pid: nat, p: Proc)
    requires p.Casing? && Fresh(s.store, p.base) && CasOk(cfg, s, pid, p)
    requires StatusOf(s.store, p.next.jobId) == Some(p.base.status)
    ensures p.next.jobId == p.base.jobId && p.base.jobId in s.store.jobs && s.store.jobs[p.base.jobId] == p.base
  {
    hide Owns, Captured, IsPath, Bound, Judged, GovernorRead;
  }

  /** The shared state a winning compare-and-set leaves. */
  function Won(s: State, pid: nat, p: Proc): State
    requires p.Casing?
  {
    s.(store := SaveJobAndEvents(s.store, p.next, p.events),
       owner := if p.next.status.Executing? then s.owner[p.next.jobId := pid] else s.owner)
  }

  lemma WinTouches(s: State, pid: nat, p: Proc)
    requires p.Casing? && SameIdentity(p.base, p.next) && Rank(p.base.status) < Rank(p.next.status)
    requires p.base.status.Executing? ==> p.base.jobId in s.owner && s.owner[p.base.jobId] == pid
    requires p.base.jobId in s.store.jobs && s.store.jobs[p.base.jobId] == p.base
    ensures Touches(s, Won(s, pid, p), pid, p.base.jobId)
    ensures EventsOf(Won(s, pid, p).store, p.base.jobId) == EventsOf(s.store, p.base.jobId) + p.events
    ensures Won(s, pid, p).store.jobs[p.base.jobId] == p.next
  {
    hide Rank;
  }

  lemma CasOkParts(cfg: Config, s: State, pid: nat, p: Proc)
    requires p.Casing? && CasOk(cfg, s, pid, p)
    ensures SameIdentity(p.base, p.next) && Rank(p.base.status) < Rank(p.next.status)
    ensures p.base.status.Executing? ==> p.base.jobId in s.owner && s.owner[p.base.jobId] == pid
  {
    hide Captured, IsPath, Trail, Bound, Judged, GovernorRead, Durable, PrepareRefusal;
  }

  lemma AfterWinOk(cfg: Config, s: State, s': State, pid: nat, p: Proc, now: Timestamp)
    requires p.Casing? && CasOk(cfg, s, pid, p) && s'.chains == s.chains
    requires p.next.jobId in s'.store.jobs && s'.store.jobs[p.next.jobId] == p.next && p.next.jobId == p.base.jobId
    requires p.next.status.Executing? ==> p.next.jobId in s'.owner && s'.owner[p.next.jobId] == pid
    ensures OutcomeOk(cfg, s', pid, AfterCas(p.next, p.andThen, now))
  {
    hide Captured, IsPath, Trail, Bound, Judged, GovernorRead, IsArm, IsDisarm, IsApproval, OutcomeOk, NextPhase,
      PrepareRefusal;
    if p.andThen.Continue? {
      NextPhaseOk(cfg, s', pid, p.next, now);
    } else if p.andThen.Resume? {
      Simply(cfg, s', pid, Start(Reconcile(p.next.jobId)));
    } else if p.andThen.Finish? {
      Simply(cfg, s', pid, Start(Reconcile(p.next.jobId)));
    } else {
      Simply(cfg, s', pid, Claiming(p.next, p.andThen.actor, p.andThen.authBlock));
    }
  }

  lemma WinKeeps(cfg: Config, s: State, pid: nat, p: Proc, now: Timestamp)
    requires Inv(cfg, s) && p.Casing? && pid in s.procs && s.procs[pid] == p
    requires StatusOf(s.store, p.next.jobId) == Some(p.base.status)
    ensures Inv(cfg, Set(Won(s, pid, p), pid, AfterCas(p.next, p.andThen, now)))
  {
    hide Inv, ProcOk, JobOk, EntryOk, Touches, CasOk, Fresh, AfterCas, StatusOf, Set, OutcomeOk, EventsOf;
    CasConflictKeeps(cfg, s, pid, p);
    WinnerSawTheDocument(cfg, s, pid, p);
    var j, mid := p.base.jobId, Won(s, pid, p);
    CasOkParts(cfg, s, pid, p);
    WinTouches(s, pid, p);
    WinJobOk(cfg, s, pid, p);
    AfterWinOk(cfg, s, mid, pid, p, now);
    forall k | 0 <= k < |mid.log| && mid.log[k].jobId == j ensures EntryOk(cfg, mid, k, mid.log[k]) {
      EntryPast(cfg, s, k);
      EntryMoved(cfg, s, mid, pid, j, k);
    }
    TouchAndGo(cfg, s, mid, pid, j, AfterCas(p.next, p.andThen, now));
  }

  lemma EntryPast(cfg: Config, s: State, k: nat)
    requires LogOk(cfg, s) && k < |s.log|
    ensures EntryOk(cfg, s, k, s.log[k])
    ensures s.log[k].jobId in s.store.jobs && PastApproval(s.store.jobs[s.log[k].jobId].status)
    ensures s.log[k].jobId in s.issued
  {
    hide Captured;
  }

  lemma WinJobOk(cfg: Config, s: State, pid: nat, p: Proc)
    requires JobsOk(cfg, s) && p.Casing? && CasOk(cfg, s, pid, p)
    requires p.base.jobId in s.store.jobs && s.store.jobs[p.base.jobId] == p.base
    ensures JobOk(cfg, ChainOf(s, p.next), s.log, s.issued, p.next, EventsOf(s.store, p.base.jobId) + p.events)
    ensures PastApproval(p.base.status) ==> PastApproval(p.next.status)
  {
    hide RecordShape, LogShape, ChainFacts, Bound, Captured, IsPath, Trail, Owns, Durable, PrepareRefusal, Judged,
      GovernorRead;
    JobOkKept(cfg, ChainOf(s, p.base), s.log, s.issued, p.base, p.next, p.events, EventsOf(s.store, p.base.jobId));
  }

  lemma CasKeepsInv(cfg: Config, s: State, pid: nat, now: Timestamp)
    requires Inv(cfg, s) && pid in s.procs && s.procs[pid].Casing?
    ensures Inv(cfg, Cas(s, pid, s.procs[pid], now))
  {
    hide Inv, Set, AfterCas, StatusOf;
    var p := s.procs[pid];
    if StatusOf(s.store, p.next.jobId) == Some(p.base.status) {
      WinKeeps(cfg, s, pid, p, now);
    } else {
      StopKeeps(cfg, s, pid);
    }
  }

  // ------------------------------------------------------------------ claim, save, issue, answer

  /** A step of an owner that leaves its job EXECUTING. */
  ghost predicate OwnerStep(s: State, s': State, pid: nat, base: Job) {
    && Owns(s, pid, base) && s'.chains == s.chains && s'.owner == s.owner
    && s'.store.events == s.store.events
    && base.jobId in s'.store.jobs && s'.store.jobs == s.store.jobs[base.jobId := s'.store.jobs[base.jobId]]
    && SameIdentity(base, s'.store.jobs[base.jobId]) && s'.store.jobs[base.jobId].status.Executing?
  }

  lemma OwnerTouches(s: State, s': State, pid: nat, base: Job)
    requires OwnerStep(s, s', pid, base)
    requires forall i :: i != base.jobId && i in s.issued ==> i in s'.issued && s'.issued[i] == s.issued[i]
    requires |s.log| <= |s'.log| && forall k :: 0 <= k < |s.log| && s.log[k].jobId != base.jobId ==>
        s'.log[k] == s.log[k]
    ensures Touches(s, s', pid, base.jobId)
    ensures EventsOf(s'.store, base.jobId) == EventsOf(s.store, base.jobId)
  {
    hide Rank;
  }

  /** An EXECUTING job's own record is free of anything the log or the chain could contradict. */
  lemma ExecutingJobOk(cfg: Config, s: State, s': State, pid: nat, base: Job)
    requires JobsOk(cfg, s) && OwnerStep(s, s', pid, base)
    requires var mine := s'.store.jobs[base.jobId];
             mine.receipt == base.receipt && mine.execution.Some? && base.execution.Some? &&
             mine.execution.value.(requestHash := None) == base.execution.value.(requestHash := None)
    ensures JobOk(cfg, ChainOf(s', s'.store.jobs[base.jobId]), s'.log, s'.issued, s'.store.jobs[base.jobId],
                  EventsOf(s.store, base.jobId))
  {
    hide Bound, Judged, GovernorRead, PrepareRefusal, Grounded;
    RouteIsNoRefusal();
    assert JobOk(cfg, ChainOf(s, base), s.log, s.issued, s.store.jobs[base.jobId], EventsOf(s.store, base.jobId));
  }

  lemma ClaimKeepsInv(cfg: Config, s: State, pid: nat)
    requires Inv(cfg, s) && pid in s.procs && s.procs[pid].Claiming?
    ensures Inv(cfg, ClaimStep(cfg, s, pid, s.procs[pid]))
  {
    hide Inv, JobOk, EntryOk, ProcOk, Set, OutcomeOk;
    var p := s.procs[pid];
    InvJobs(cfg, s);
    var request := cfg.requestHash(CallOf(p.base.commitment));
    Simply(cfg, s, pid, Start(Reconcile(p.base.jobId)));
    assert ProcOk(cfg, s, pid, p);
    ClaimedProcOk(cfg, s, pid, p);
    Simply(cfg, s, pid, Saving(p.base, p.authBlock));
    if request in s.store.claims {
      SetKeeps(cfg, s, pid, Go(Start(Reconcile(p.base.jobId))));
    } else {
      var store := TryClaim(s.store, request, p.base.jobId, p.actor).0;
      var s' := s.(store := store, claimant := s.claimant[request := pid]);
      SharedKeeps(cfg, s, s');
      OutcomeShared(cfg, s, s', pid, Go(Saving(p.base, p.authBlock)));
      SetKeeps(cfg, s', pid, Go(Saving(p.base, p.authBlock)));
    }
  }

  lemma ClaimedProcOk(cfg: Config, s: State, pid: nat, p: Proc)
    requires p.Claiming? && ProcOk(cfg, s, pid, p)
    ensures ProcOk(cfg, s, pid, Saving(p.base, p.authBlock)) && ProcOk(cfg, s, pid, Start(Reconcile(p.base.jobId)))
  {
    hide Captured, Owns;
  }

  lemma OutcomeShared(cfg: Config, s: State, s': State, pid: nat, next: Outcome)
    requires SameShared(s, s') && OutcomeOk(cfg, s, pid, next)
    ensures OutcomeOk(cfg, s', pid, next)
  {
    hide ProcOk;
    if next.Go? { ProcOkFrame(cfg, s, s', pid, next.proc); }
  }

  lemma SharedKeeps(cfg: Config, s: State, s': State)
    requires Inv(cfg, s) && SameShared(s, s') && s'.procs == s.procs
    requires forall i :: EventsOf(s'.store, i) == EventsOf(s.store, i)
    ensures Inv(cfg, s')
  {
    hide ProcOk, JobOk, EntryOk, EventsOf;
    forall q | q in s'.procs ensures ProcOk(cfg, s', q, s'.procs[q]) { ProcOkFrame(cfg, s, s', q, s'.procs[q]); }
    forall k | 0 <= k < |s'.log| ensures EntryOk(cfg, s', k, s'.log[k]) { EntryFrame(cfg, s, s', k); }
  }

  lemma SaveKeepsInv(cfg: Config, s: State, pid: nat)
    requires Inv(cfg, s) && pid in s.procs && s.procs[pid].Saving?
    ensures Inv(cfg, SaveStep(cfg, s, pid, s.procs[pid]))
  {
    hide Inv, JobOk, EntryOk, Touches, Captured, EventsOf, ProcOk, OwnerStep, OutcomeOk, Set;
    var p := s.procs[pid];
    InvJobs(cfg, s);
    SavingParts(cfg, s, pid, p);
    var j := p.base.jobId;
    var e := p.base.execution.value.(requestHash := Some(cfg.requestHash(CallOf(p.base.commitment))));
    var mine := p.base.(execution := Some(e));
    var mid := s.(store := Save(s.store, mine));
    SavedEvents(cfg, s, j);
    assert OwnerStep(s, mid, pid, p.base) by { SaveIsOwnerStep(s, mid, pid, p.base, mine); }
    OwnerTouches(s, mid, pid, p.base);
    ExecutingJobOk(cfg, s, mid, pid, p.base);
    SavedProcOk(cfg, s, mid, pid, p.base, mine, p.authBlock);
    forall k | 0 <= k < |mid.log| && mid.log[k].jobId == j ensures EntryOk(cfg, mid, k, mid.log[k]) {
      EntryPast(cfg, s, k);
      EntryMoved(cfg, s, mid, pid, j, k);
    }
    TouchAndGo(cfg, s, mid, pid, j, Go(Issuing(mine, p.authBlock)));
  }

  lemma SavingParts(cfg: Config, s: State, pid: nat, p: Proc)
    requires ProcsOk(cfg, s) && pid in s.procs && s.procs[pid] == p && (p.Claiming? || p.Saving? || p.Issuing?)
    ensures Owns(s, pid, p.base) && p.base.execution.Some?
    ensures Captured(cfg, ChainOf(s, p.base), p.base.commitment, p.base.execution.value, p.authBlock)
  {
    hide Captured, Owns;
    assert ProcOk(cfg, s, pid, p);
  }

  lemma SaveIsOwnerStep(s: State, mid: State, pid: nat, base: Job, mine: Job)
    requires Owns(s, pid, base) && SameIdentity(base, mine) && mine.status.Executing? && base.jobId in s.store.events
    requires mid == s.(store := Save(s.store, mine))
    ensures OwnerStep(s, mid, pid, base)
  {
  }

  lemma SavedProcOk(cfg: Config, s: State, mid: State, pid: nat, base: Job, mine: Job, b: nat)
    requires Owns(s, pid, base) && mine.status.Executing? &&
             mine.jobId == base.jobId && mine.commitment == base.commitment
    requires mine.execution.Some? && base.execution.Some? &&
             Pristine(mine.execution.value) == Pristine(base.execution.value)
    requires mid == s.(store := Save(s.store, mine)) && CarriesRequest(cfg, mine)
    requires Captured(cfg, ChainOf(s, base), base.commitment, base.execution.value, b)
    ensures OutcomeOk(cfg, mid, pid, Go(Issuing(mine, b)))
  {
    hide Captured, Pristine;
    PristineIgnoresRequest(cfg, ChainOf(s, base), base.commitment, base.execution.value, mine.execution.value, b);
  }

  lemma IssuingParts(cfg: Config, s: State, pid: nat, p: Proc)
    requires ProcOk(cfg, s, pid, p) && p.Issuing?
    ensures CarriesRequest(cfg, p.base)
  {
    hide Captured, Owns, CarriesRequest;
  }

  lemma SavedEvents(cfg: Config, s: State, j: JobId)
    requires JobsOk(cfg, s) && j in s.store.jobs && s.store.jobs[j].status.Executing?
    ensures j in s.store.events
  {
    assert JobOk(cfg, ChainOf(s, s.store.jobs[j]), s.log, s.issued, s.store.jobs[j], EventsOf(s.store, j));
  }

  lemma PristineIgnoresRequest(cfg: Config, chain: Chain, c: Commitment, e: ExecutionState, e': ExecutionState, b: nat)
    requires Captured(cfg, chain, c, e, b) && Pristine(e') == Pristine(e)
    ensures Captured(cfg, chain, c, e', b)
  {
  }
}
