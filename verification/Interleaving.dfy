/** What concurrent calls may and may not do to one another. */
module Interleaving {
  import opened Documents
  import opened Governor
  import opened Grounds
  import opened History
  import opened Invariant
  import opened Jobs
  import opened JobStore
  import opened Protocol
  import opened Reachable
  import opened Safety
  import opened StateMachine
  import opened Text
  import opened Wrappers

  // ------------------------------------------------------------------ compare-and-set and ownership

  /**
   * No ABA: although the table has cycles, a compare-and-set on the status that succeeds finds the very document its
   * call had read, so comparing the status is as strong as comparing a revision.
   */
  lemma CasComparesTheDocument(cfg: Config, steps: seq<Step>, pid: nat)
    requires Orderly(cfg, steps)
    requires pid in Run(cfg, steps).procs && Run(cfg, steps).procs[pid].Casing?
    requires var s := Run(cfg, steps); StatusOf(s.store, s.procs[pid].next.jobId) == Some(s.procs[pid].base.status)
    ensures var s := Run(cfg, steps); var p := s.procs[pid];
            p.next.jobId in s.store.jobs && s.store.jobs[p.next.jobId] == p.base
  {
    hide Run, Inv, CasOk, Fresh, StatusOf;
    RunKeepsInv(cfg, steps);
    var s := Run(cfg, steps);
    CasConflictKeeps(cfg, s, pid, s.procs[pid]);
    WinnerSawTheDocument(cfg, s, pid, s.procs[pid]);
  }

  /**
   * Ownership of EXECUTING: whoever is about to write an EXECUTING job, by the unconditional save or by the
   * compare-and-set out of EXECUTING, is the call that moved it there and holds it exactly as stored, so the save
   * overwrites nobody and the compare-and-set cannot lose.
   */
  lemma OwnerCannotLose(cfg: Config, steps: seq<Step>, pid: nat)
    requires Orderly(cfg, steps)
    requires pid in Run(cfg, steps).procs
    requires var p := Run(cfg, steps).procs[pid]; p.Saving? || (p.Casing? && p.base.status.Executing?)
    ensures var s := Run(cfg, steps); var p := s.procs[pid];
            && p.base.jobId in s.store.jobs && s.store.jobs[p.base.jobId] == p.base && p.base.status.Executing?
            && p.base.jobId in s.owner && s.owner[p.base.jobId] == pid
            && (p.Casing? ==> SaveWithCas(s.store, p.next, p.events, Some(p.base.status)).1.Saved?)
  {
    hide Run, Inv, Captured, SaveJobAndEvents;
    RunKeepsInv(cfg, steps);
    var s := Run(cfg, steps);
    InvJobs(cfg, s);
    if s.procs[pid].Saving? {
      SavingParts(cfg, s, pid, s.procs[pid]);
    } else {
      CasConflictKeeps(cfg, s, pid, s.procs[pid]);
      ExecutingCasOwns(cfg, s, pid, s.procs[pid]);
    }
  }

  lemma ExecutingCasOwns(cfg: Config, s: State, pid: nat, p: Proc)
    requires p.Casing? && CasOk(cfg, s, pid, p) && p.base.status.Executing?
    ensures Owns(s, pid, p.base) && p.next.jobId == p.base.jobId
  {
    hide Owns, Captured, IsPath, Trail, Bound, Judged, GovernorRead, Durable, PrepareRefusal;
  }

  lemma JobAt(cfg: Config, s: State, j: JobId)
    requires Inv(cfg, s) && j in s.store.jobs
    ensures s.store.jobs[j].jobId == j && RecordShape(s.store.jobs[j]) &&
            LogShape(s.store.jobs[j], EventsOf(s.store, j))
    ensures s.store.jobs[j].commitmentHash == cfg.commitmentHash(s.store.jobs[j].commitment)
    ensures Durable(s.store.jobs[j].status)
  {
    hide ProcsOk, LogOk, RecordShape, LogShape, ChainFacts, Bound, Durable;
    assert JobOk(cfg, ChainOf(s, s.store.jobs[j]), s.log, s.issued, s.store.jobs[j], EventsOf(s.store, j));
  }

  // ------------------------------------------------------------------ the audit log

  function Kinds(events: seq<Event>): (r: seq<EventKind>)
    ensures |r| == |events| && forall i :: 0 <= i < |r| ==> r[i] == events[i].kind
  {
    if events == [] then [] else [events[0].kind] + Kinds(events[1..])
  }

  /**
   * The commitment hash always recomputes, and the log is empty, ARMED, ARMED·DISARMED or ARMED·APPROVED, as the
   * status dictates, every event naming that hash.
   */
  lemma EventLogMatchesStatus(cfg: Config, steps: seq<Step>, j: JobId)
    requires Orderly(cfg, steps) && j in Run(cfg, steps).store.jobs
    ensures var job, events := Run(cfg, steps).store.jobs[j], EventsOf(Run(cfg, steps).store, j);
            && job.commitmentHash == cfg.commitmentHash(job.commitment)
            && Kinds(events) == (if job.status.ReviewReady? then []
                                 else if job.status.DisarmedByUser? then [ArmedEvent, DisarmedEvent]
                                 else if PastApproval(job.status) then [ArmedEvent, ApprovedEvent]
                                 else [ArmedEvent])
            && forall i :: 0 <= i < |events| ==> events[i].commitmentHash == cfg.commitmentHash(job.commitment)
  {
    hide Run, Inv, RecordShape, Durable;
    RunKeepsInv(cfg, steps);
    JobAt(cfg, Run(cfg, steps), j);
  }

  /** A step that lengthens the dispatch log is its issuer's, and the issuer owns the job. */
  lemma IssuerOwns(cfg: Config, s: State, step: Step)
    requires Inv(cfg, s) && |Do(cfg, s, step).log| > |s.log|
    ensures var d := Do(cfg, s, step).log[|s.log|];
            && d.jobId in s.store.jobs && s.store.jobs[d.jobId].status.Executing?
            && d.call == CallOf(s.store.jobs[d.jobId].commitment) && d.request == cfg.requestHash(d.call)
            && step.Advance? && d.jobId in s.owner && s.owner[d.jobId] == step.pid
  {
    hide Inv, AdvanceProc, Owns;
    assert step.Advance? && step.pid in s.procs;
    AdvanceLog(cfg, s, step.pid, step.seen);
    InvJobs(cfg, s);
    SavingParts(cfg, s, step.pid, s.procs[step.pid]);
    IssuedEntry(cfg, s, step.pid, s.procs[step.pid]);
  }

  lemma IssuedEntry(cfg: Config, s: State, pid: nat, p: Proc)
    requires p.Issuing? && p.base.execution.Some? && Owns(s, pid, p.base)
    ensures |IssueStep(cfg, s, pid, p).log| == |s.log| + 1
    ensures var d := IssueStep(cfg, s, pid, p).log[|s.log|];
            && d.jobId in s.store.jobs && s.store.jobs[d.jobId].status.Executing?
            && d.call == CallOf(s.store.jobs[d.jobId].commitment) && d.request == cfg.requestHash(d.call)
            && d.jobId in s.owner && s.owner[d.jobId] == pid
  {
    hide CallOf, ChainOf;
  }

  lemma AdvanceLog(cfg: Config, s: State, pid: nat, o: Observation)
    requires pid in s.procs && |AdvanceProc(cfg, s, pid, o).log| > |s.log|
    ensures s.procs[pid].Issuing? && AdvanceProc(cfg, s, pid, o) == IssueStep(cfg, s, pid, s.procs[pid])
  {
    hide IssueStep, Local, Read, Cas, ClaimStep, SaveStep, AnswerStep, Set;
    var p := s.procs[pid];
    match p
    case Start(op) => ReadLog(cfg, s, pid, op, o.now);
    case IntakeSave(job) => SetSame(s.(store := Save(s.store, job)), pid, Stop);
    case Casing(_, _, _, _, _) => CasLog(s, pid, p, o.now);
    case Claiming(_, _, _) => ClaimLog(cfg, s, pid, p);
    case Saving(_, _) => SaveLog(cfg, s, pid, p);
    case Issuing(_, _) =>
    case Awaiting(_, _) => AnswerLog(s, pid, p, o.answer, o.now);
    case _ => SetSame(s, pid, Local(cfg, ChainOf(s, p.base), p, o));
  }

  lemma ReadLog(cfg: Config, s: State, pid: nat, op: Op, now: Timestamp)
    ensures Read(cfg, s, pid, op, now).log == s.log
  {
    hide AfterRead;
  }

  lemma CasLog(s: State, pid: nat, p: Proc, now: Timestamp)
    requires p.Casing?
    ensures Cas(s, pid, p, now).log == s.log
  {
    hide AfterCas, SaveWithCas;
  }

  lemma ClaimLog(cfg: Config, s: State, pid: nat, p: Proc)
    requires p.Claiming?
    ensures ClaimStep(cfg, s, pid, p).log == s.log
  {
    hide CallOf, TryClaim;
  }

  lemma SaveLog(cfg: Config, s: State, pid: nat, p: Proc)
    requires p.Saving?
    ensures SaveStep(cfg, s, pid, p).log == s.log
  {
    hide CallOf;
  }

  lemma AnswerLog(s: State, pid: nat, p: Proc, answer: Answer, now: Timestamp)
    requires p.Awaiting?
    ensures |AnswerStep(s, pid, p, answer, now).log| == |s.log|
  {
  }

  /** Nobody but the call that issued an entry answers it, and it does so once. */
  lemma StepKeepsAnswers(cfg: Config, s: State, step: Step)
    requires DocInv(cfg, s)
    ensures LogKept(s.log, Do(cfg, s, step).log)
  {
    hide DocInv, IssueStep, AnswerStep, Local, Read, Cas, ClaimStep, SaveStep, Set;
    LogRefl(s.log);
    if step.Advance? && step.pid in s.procs {
      var p, o := s.procs[step.pid], step.seen;
      match p
      case Start(op) => ReadLog(cfg, s, step.pid, op, o.now);
      case IntakeSave(job) => SetSame(s.(store := Save(s.store, job)), step.pid, Stop);
      case Casing(_, _, _, _, _) => CasLog(s, step.pid, p, o.now);
      case Claiming(_, _, _) => ClaimLog(cfg, s, step.pid, p);
      case Saving(_, _) => SaveLog(cfg, s, step.pid, p);
      case Issuing(_, _) => IssueLog(cfg, s, step.pid, p);
      case Awaiting(_, _) => OwnAnswer(cfg, s, step.pid, o.answer, o.now);
      case _ => SetSame(s, step.pid, Local(cfg, ChainOf(s, p.base), p, o));
    }
  }

  lemma IssueLog(cfg: Config, s: State, pid: nat, p: Proc)
    requires p.Issuing?
    ensures LogKept(s.log, IssueStep(cfg, s, pid, p).log)
  {
    hide CallOf, ChainOf;
  }

  lemma OwnAnswer(cfg: Config, s: State, pid: nat, answer: Answer, now: Timestamp)
    requires DocInv(cfg, s) && pid in s.procs && s.procs[pid].Awaiting?
    ensures LogKept(s.log, AnswerStep(s, pid, s.procs[pid], answer, now).log)
  {
    hide DocInv, HolderOk;
    var k := Documents.Holding(cfg, s, pid);
    AwaitingHolds(cfg, s, pid, s.procs[pid], k);
  }

  /** In every run: what KeeperHub once answered is never overwritten or lost. */
  lemma {:induction false} AnswersStand(cfg: Config, steps: seq<Step>, n: nat)
    requires IsRun(cfg, steps) && n <= |steps|
    ensures LogKept(Run(cfg, steps[..n]).log, Run(cfg, steps).log)
  {
    hide Do, Fair, DocInv;
    if n == |steps| {
      assert steps[..n] == steps;
      LogRefl(Run(cfg, steps).log);
    } else {
      var front := steps[..|steps| - 1];
      assert front[..n] == steps[..n];
      AnswersStand(cfg, front, n);
      RunKeepsDocs(cfg, front);
      StepKeepsAnswers(cfg, Run(cfg, front), steps[|steps| - 1]);
    }
  }

  /** When a call is dispatched, the job's log already ends in an APPROVED event for exactly its commitment. */
  lemma DispatchFollowsApproval(cfg: Config, steps: seq<Step>, step: Step)
    requires Orderly(cfg, steps) && |Do(cfg, Run(cfg, steps), step).log| > |Run(cfg, steps).log|
    ensures var s := Run(cfg, steps); var d := Do(cfg, s, step).log[|s.log|];
            && d.jobId in s.store.jobs && d.request == cfg.requestHash(d.call)
            && var c, events := s.store.jobs[d.jobId].commitment, EventsOf(s.store, d.jobId);
               && d.call == Call(c.chainId, ToLower(c.governor), DecimalValue(c.proposalId))
               && |events| == 2 && events[1].kind.ApprovedEvent?
               && events[1].commitmentHash == cfg.commitmentHash(c)
  {
    hide Run, Do, Inv, RecordShape, Durable;
    RunKeepsInv(cfg, steps);
    var s := Run(cfg, steps);
    IssuerOwns(cfg, s, step);
    JobAt(cfg, s, Do(cfg, s, step).log[|s.log|].jobId);
  }

  /** A job once disarmed is never dispatched, neither before nor after. */
  lemma DisarmedNeverDispatches(cfg: Config, steps: seq<Step>, n: nat, j: JobId, k: nat)
    requires Orderly(cfg, steps) && n <= |steps| && j in Run(cfg, steps[..n]).store.jobs
    requires Run(cfg, steps[..n]).store.jobs[j].status.DisarmedByUser?
    requires k < |Run(cfg, steps).log|
    ensures Run(cfg, steps).log[k].jobId != j
  {
    hide Run, Inv, Orderly, LogOk, JobsOk, ProcsOk;
    TopIsFinal(cfg, steps, n, j);
    RunKeepsInv(cfg, steps);
    InvJobs(cfg, Run(cfg, steps));
    EntryPast(cfg, Run(cfg, steps), k);
  }

  // ------------------------------------------------------------------ prepare

  predicate Preparing(p: Proc) {
    p.PrepareEligibility? || p.PrepareAuthorization? || p.PrepareBlock? || p.PrepareSnapshot? || p.PrepareSimulate?
  }

  predicate LastWrite(p: Proc, base: Job) {
    p.Casing? && p.andThen.Finish? && p.events == [] && p.base == base
  }

  /**
   * A prepare run touches nothing shared until its one compare-and-set, whichever read throws, and it ends with that
   * compare-and-set, won or lost.
   */
  lemma PrepareWritesOnce(cfg: Config, s: State, pid: nat, o: Observation)
    requires pid in s.procs
    ensures var p, after := s.procs[pid], AdvanceProc(cfg, s, pid, o);
            && (Preparing(p) ==>
                  after.(procs := s.procs) == s &&
                  (pid in after.procs ==>
                     (Preparing(after.procs[pid]) && after.procs[pid].base == p.base) ||
                     LastWrite(after.procs[pid], p.base)))
            && (p.Casing? && p.andThen.Finish? ==>
                  pid !in after.procs && after.store == SaveWithCas(s.store, p.next, p.events, Some(p.base.status)).0)
  {
    hide Read, ClaimStep, SaveStep, IssueStep, AnswerStep, Local, SaveJobAndEvents, AfterCas, StatusOf;
    var p := s.procs[pid];
    if Preparing(p) {
      PrepareLocal(cfg, ChainOf(s, p.base), p, o);
    } else if p.Casing? && p.andThen.Finish? {
      assert AfterCas(p.next, p.andThen, o.now).Stop? by { FinishStops(p.next, o.now); }
    }
  }

  lemma FinishStops(next: Job, now: Timestamp)
    ensures AfterCas(next, Finish, now).Stop?
  {
  }

  lemma PrepareLocal(cfg: Config, chain: Chain, p: Proc, o: Observation)
    requires Preparing(p)
    ensures var r := Local(cfg, chain, p, o);
            r.Go? ==> (Preparing(r.proc) && r.proc.base == p.base) || LastWrite(r.proc, p.base)
  {
    hide Protocol.Eligible, Snapshot, AuthorizationAt, FirstSelected, Erc20.TryDecodeTransfer, IsLegalTransition;
  }

  // ------------------------------------------------------------------ intake that is not atomic

  /**
   * An intake leaves a job that is there alone, and creates or is about to create one that is not: for review, with its
   * commitment and that commitment's hash, and nothing observed yet.
   */
  lemma IntakeCreates(cfg: Config, s: State, pid: nat, o: Observation)
    requires pid in s.procs && s.procs[pid].Start? && s.procs[pid].op.Intake?
    ensures var op, after := s.procs[pid].op, AdvanceProc(cfg, s, pid, o);
            var hash := cfg.commitmentHash(op.commitment);
            var job := Job(op.jobId, ReviewReady, op.commitment, hash, o.now, o.now, None, None);
            if op.jobId in s.store.jobs then after.store == s.store && pid !in after.procs
            else if cfg.atomicCreation then
              after.store.jobs == s.store.jobs[op.jobId := job] && pid !in after.procs &&
              forall j :: EventsOf(after.store, j) == EventsOf(s.store, j)
            else after.store == s.store && pid in after.procs && after.procs[pid] == IntakeSave(job)
  {
    hide Local, Cas, ClaimStep, SaveStep, IssueStep, AnswerStep;
  }

  /**
   * An intake write keeps every stored job climbing exactly when the job id is still free, or holds a job of the same
   * identity that nobody has armed yet.
   */
  lemma IntakeWriteKeepsJobsExactlyWhen(cfg: Config, s: State, pid: nat, o: Observation)
    requires pid in s.procs && s.procs[pid].IntakeSave? && s.procs[pid].job.status.ReviewReady?
    ensures var job, after := s.procs[pid].job, AdvanceProc(cfg, s, pid, o);
            (forall j :: j in s.store.jobs ==>
               j in after.store.jobs && Moved(s.store.jobs[j], after.store.jobs[j])) <==>
            (job.jobId in s.store.jobs ==>
               s.store.jobs[job.jobId].status.ReviewReady? && SameIdentity(s.store.jobs[job.jobId], job))
  {
    hide Local, Read, Cas, ClaimStep, SaveStep, IssueStep, AnswerStep, Reaches;
    var job, after := s.procs[pid].job, AdvanceProc(cfg, s, pid, o);
    assert after.store.jobs == s.store.jobs[job.jobId := job];
  }

  /** Every stored job is still there, the same job, and at most further up the ladder. */
  ghost predicate AllMoved(s: State, after: State) {
    forall j :: j in s.store.jobs ==> j in after.store.jobs && Moved(s.store.jobs[j], after.store.jobs[j])
  }

  /** Every step of the run keeps every stored job climbing. */
  ghost predicate Climbs(cfg: Config, steps: seq<Step>) {
    steps != [] ==>
      var front := steps[..|steps| - 1];
      Climbs(cfg, front) && AllMoved(Run(cfg, front), Run(cfg, steps))
  }

  /** A stale intake puts its job back, or gives it another identity. */
  lemma StaleIntakeBreaks(cfg: Config, s: State, step: Step)
    requires Inv(cfg, s) && StaleIntake(s, step)
    ensures !AllMoved(s, Do(cfg, s, step))
  {
    hide Inv, Local, Read, Cas, ClaimStep, SaveStep, IssueStep, AnswerStep, Reaches, LogShape;
    var job := s.procs[step.pid].job;
    ProcAt(cfg, s, step.pid);
    JobAt(cfg, s, job.jobId);
    assert Do(cfg, s, step).store.jobs[job.jobId] == job;
    assert !Moved(s.store.jobs[job.jobId], job);
  }

  /**
   * Over whole runs: the stored jobs climb, step after step, exactly when no intake replaces a job that was stored
   * since it looked. So orderly runs are all the runs in which jobs are never set back.
   */
  lemma {:induction false} OrderlyExactlyWhenJobsClimb(cfg: Config, steps: seq<Step>)
    requires IsRun(cfg, steps)
    ensures Orderly(cfg, steps) <==> Climbs(cfg, steps)
  {
    hide Do, Fair, StaleIntake, Inv, AllMoved;
    if steps != [] {
      var front, last := steps[..|steps| - 1], steps[|steps| - 1];
      var s := Run(cfg, front);
      OrderlyExactlyWhenJobsClimb(cfg, front);
      if Orderly(cfg, front) {
        RunKeepsInv(cfg, front);
        if StaleIntake(s, last) {
          StaleIntakeBreaks(cfg, s, last);
        } else {
          EveryJobMoves(cfg, s, last);
        }
      }
    }
  }

  lemma EveryJobMoves(cfg: Config, s: State, step: Step)
    requires Inv(cfg, s) && !StaleIntake(s, step)
    ensures AllMoved(s, Do(cfg, s, step))
  {
    hide Inv, Do, StaleIntake, Moved, Stamped;
    forall j | j in s.store.jobs
      ensures j in Do(cfg, s, step).store.jobs && Moved(s.store.jobs[j], Do(cfg, s, step).store.jobs[j])
    {
      DoOn(cfg, s, step, j);
    }
  }
}
