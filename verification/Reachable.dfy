/** The invariant over whole runs: a new block, a new call, a crash, and then every step of every run. */
module Reachable {
  import opened AtMostOnce
  import opened Dispatching
  import opened Governor
  import opened Grounds
  import opened Growth
  import opened Invariant
  import opened Jobs
  import opened JobStore
  import opened LocalSteps
  import opened Protocol
  import opened Safety
  import opened StateMachine
  import opened Wrappers

  // ------------------------------------------------------------------ a new block

  /** Only chains changed, each grew, and every new receipt lies in a block nobody had seen. */
  ghost predicate Grew(s: State, s': State) {
    && s'.store == s.store && s'.procs == s.procs && s'.log == s.log && s'.owner == s.owner && s'.issued == s.issued
    && (forall id :: Extends(ChainFor(s.chains, id), ChainFor(s'.chains, id)))
    && (forall id, t :: t in ChainFor(s'.chains, id).receipts && t !in ChainFor(s.chains, id).receipts ==>
          ChainFor(s'.chains, id).receipts[t].block >= |ChainFor(s.chains, id).blocks|)
  }

  lemma MineGrows(cfg: Config, s: State, id: nat, block: Block, receipts: map<TxHash, TxReceipt>)
    requires Fair(cfg, s, Mine(id, block, receipts))
    ensures Grew(s, Do(cfg, s, Mine(id, block, receipts)))
  {
    hide AdvanceProc;
    var c := ChainFor(s.chains, id);
    assert Extends(c, MineBlock(c, block, receipts));
  }

  lemma GrewParts(s: State, s': State, pid: nat, base: Job)
    requires Grew(s, s')
    ensures Fresh(s'.store, base) == Fresh(s.store, base) && Owns(s', pid, base) == Owns(s, pid, base)
    ensures Extends(ChainOf(s, base), ChainOf(s', base))
  {
  }

  lemma CheckedGrows(cfg: Config, c: Chain, c': Chain, commitment: Commitment, b: nat, actions: seq<Action>,
                     action: Action)
    requires Extends(c, c')
    ensures Checked(cfg, c, commitment, b, actions) ==> Checked(cfg, c', commitment, b, actions)
    ensures CheckedAction(cfg, c, commitment, b, action) ==> CheckedAction(cfg, c', commitment, b, action)
    ensures AuthorizationAt(c, commitment, b) == Some(AuthorizationOf(commitment, actions)) ==>
              AuthorizationAt(c', commitment, b) == Some(AuthorizationOf(commitment, actions))
  {
    hide AuthorizationAt, ActionAt, Seen, Extends;
    AuthorizationGrows(c, c', commitment, b);
    if Seen(c, commitment, Executing) { SeenGrows(c, c', commitment, Executing); }
    if StillFrozen(cfg, c, commitment, b) { BundleGrows(cfg, c, c', commitment, b); }
  }

  lemma CasOkGrows(cfg: Config, s: State, s': State, pid: nat, p: Proc)
    requires Grew(s, s') && p.Casing? && CasOk(cfg, s, pid, p)
    ensures CasOk(cfg, s', pid, p)
  {
    hide Grew, Captured, Legit, IsPath, Trail, Fresh, Owns, ChainOf, Extends;
    GrewParts(s, s', pid, p.base);
    LegitGrows(cfg, ChainOf(s, p.base), ChainOf(s', p.base), s.log, s.issued, p.base, p.next, p.events);
    assert s'.log == s.log && s'.issued == s.issued by { GrewLog(s, s'); }
    if p.andThen.ClaimAndDispatch? {
      ApprovalHasRecord(cfg, s, pid, p);
      CapturedGrows(cfg, ChainOf(s, p.base), ChainOf(s', p.base), p.base.commitment, p.next.execution.value,
                    p.andThen.authBlock);
    }
  }

  lemma ApprovalHasRecord(cfg: Config, s: State, pid: nat, p: Proc)
    requires p.Casing? && CasOk(cfg, s, pid, p) && p.andThen.ClaimAndDispatch?
    ensures p.next.execution.Some?
  {
    hide Captured, IsPath, Trail, Owns, Bound, Judged, GovernorRead, PrepareRefusal;
  }

  lemma GrewLog(s: State, s': State)
    requires Grew(s, s')
    ensures s'.log == s.log && s'.issued == s.issued && s'.procs == s.procs && s'.store == s.store
  {
  }

  lemma ProcOkGrows(cfg: Config, s: State, s': State, pid: nat, p: Proc)
    requires Grew(s, s') && ProcOk(cfg, s, pid, p)
    ensures ProcOk(cfg, s', pid, p)
  {
    hide Grew, Captured, Checked, CheckedAction, Walked, Pristine, AuthorizationAt, Fresh, Owns, CasOk, ChainOf,
      Extends, Seen, Carries, CarriesRequest;
    if p.Start? || p.IntakeSave? { return; }
    GrewParts(s, s', pid, p.base);
    GrewLog(s, s');
    var c, c' := ChainOf(s, p.base), ChainOf(s', p.base);
    if p.Casing? {
      CasOkGrows(cfg, s, s', pid, p);
    } else if p.PrepareAuthorization? || p.ApproveAuthorization? {
      SeenGrows(c, c', p.base.commitment, Executing);
    } else if p.PrepareBlock? || p.PrepareSnapshot? {
      CarriesGrows(cfg, c, c', p.base.commitment, p.action);
    } else if p.PrepareSimulate? {
      var b: nat :| Captured(cfg, c, p.base.commitment, p.execution, b);
      CapturedGrows(cfg, c, c', p.base.commitment, p.execution, b);
    } else if p.ApproveSimulate? {
      CheckedGrows(cfg, c, c', p.base.commitment, p.authBlock, p.actions, Action(0, "", 0, "", []));
    } else if p.ApproveBlock? || p.ApproveSnapshot? {
      CheckedGrows(cfg, c, c', p.base.commitment, p.authBlock, [], p.action);
    } else if p.FinalVerify? {
      CheckedGrows(cfg, c, c', p.base.commitment, p.authBlock, p.actions, Action(0, "", 0, "", []));
    } else if p.Claiming? || p.Saving? || p.Issuing? {
      CapturedGrows(cfg, c, c', p.base.commitment, p.base.execution.value, p.authBlock);
    }
  }

  lemma EntryOkGrows(cfg: Config, s: State, s': State, k: nat)
    requires Grew(s, s') && k < |s.log| && EntryOk(cfg, s, k, s.log[k])
    ensures EntryOk(cfg, s', k, s'.log[k])
  {
    hide DispatchOk;
    var d := s.log[k];
    var job := s.store.jobs[d.jobId];
    DispatchGrows(cfg, ChainOf(s, job), ChainOf(s', job), job, d);
  }

  lemma DispatchGrows(cfg: Config, c: Chain, c': Chain, job: Job, d: Dispatch)
    requires Extends(c, c') && DispatchOk(cfg, c, job, d)
    requires forall t :: t in c'.receipts && t !in c.receipts ==> c'.receipts[t].block >= |c.blocks|
    ensures DispatchOk(cfg, c', job, d)
  {
    hide Captured, PastApproval;
    CapturedGrows(cfg, c, c', job.commitment, d.execution, d.authBlock);
  }

  lemma GrowthKeeps(cfg: Config, s: State, s': State)
    requires Inv(cfg, s) && Grew(s, s')
    ensures Inv(cfg, s')
  {
    hide Grew, ProcOk, RecordOk, LogShape, EntryOk, Extends, ChainOf;
    GrewLog(s, s');
    forall q | q in s'.procs ensures ProcOk(cfg, s', q, s'.procs[q]) { ProcOkGrows(cfg, s, s', q, s.procs[q]); }
    forall k | 0 <= k < |s'.log| ensures EntryOk(cfg, s', k, s'.log[k]) { EntryOkGrows(cfg, s, s', k); }
    forall i | i in s'.store.jobs
      ensures JobOk(cfg, ChainOf(s', s'.store.jobs[i]), s'.log, s'.issued, s'.store.jobs[i], EventsOf(s'.store, i))
    {
      GrewParts(s, s', 0, s.store.jobs[i]);
      RecordOkGrows(cfg, ChainOf(s, s.store.jobs[i]), ChainOf(s', s.store.jobs[i]), s.log, s.issued, s.store.jobs[i]);
    }
  }

  // ------------------------------------------------------------------ calls come and go

  lemma SpawnKeeps(cfg: Config, s: State, op: Op)
    requires Inv(cfg, s) && PidsBelow(s)
    ensures Inv(cfg, Do(cfg, s, Spawn(op)))
  {
    hide ProcOk, JobOk, EntryOk, AdvanceProc;
    var s' := Do(cfg, s, Spawn(op));
    forall q | q in s'.procs ensures ProcOk(cfg, s', q, s'.procs[q]) {
      if q != s.nextPid {
        ProcOkFrame(cfg, s, s', q, s.procs[q]);
      } else {
        StartOk(cfg, s', q, op);
      }
    }
    forall k | 0 <= k < |s'.log| ensures EntryOk(cfg, s', k, s'.log[k]) { EntryFrame(cfg, s, s', k); }
  }

  lemma StartOk(cfg: Config, s: State, pid: nat, op: Op)
    ensures ProcOk(cfg, s, pid, Start(op))
  {
  }

  // ------------------------------------------------------------------ every step

  /** An intake whose job id somebody else has stored since it looked, about to replace that job by another document. */
  predicate StaleIntake(s: State, step: Step) {
    step.Advance? && step.pid in s.procs && s.procs[step.pid].IntakeSave? &&
    var job := s.procs[step.pid].job; job.jobId in s.store.jobs && s.store.jobs[job.jobId] != job
  }

  lemma ProcAt(cfg: Config, s: State, pid: nat)
    requires Inv(cfg, s) && pid in s.procs
    ensures ProcOk(cfg, s, pid, s.procs[pid])
    ensures s.procs[pid].IntakeSave? ==> !cfg.atomicCreation && Newborn(cfg, s.procs[pid].job)
  {
    hide JobsOk, LogOk;
    assert ProcOk(cfg, s, pid, s.procs[pid]);
  }

  lemma LocalKeepsInv(cfg: Config, s: State, pid: nat, o: Observation)
    requires Inv(cfg, s) && pid in s.procs && !s.procs[pid].Start? && !s.procs[pid].IntakeSave?
    requires ClosingRead(cfg, ChainOf(s, s.procs[pid].base), s.procs[pid], o)
    ensures Inv(cfg, Set(s, pid, Local(cfg, ChainOf(s, s.procs[pid].base), s.procs[pid], o)))
  {
    hide Inv, Set, Local, OutcomeOk, ProcOk;
    ProcAt(cfg, s, pid);
    var p := s.procs[pid];
    LocalOk(cfg, s, pid, p, o);
    SetKeeps(cfg, s, pid, Local(cfg, ChainOf(s, p.base), p, o));
  }

  /** Writing the document that is stored already changes nothing anybody can see. */
  lemma RewriteKeeps(cfg: Config, s: State, pid: nat, job: Job)
    requires Inv(cfg, s) && job.jobId in s.store.jobs && s.store.jobs[job.jobId] == job
    ensures Inv(cfg, Set(s.(store := Save(s.store, job)), pid, Stop))
  {
    hide Inv, Set;
    var s' := s.(store := Save(s.store, job));
    assert s'.store.jobs == s.store.jobs;
    SharedKeeps(cfg, s, s');
    StopKeeps(cfg, s', pid);
  }

  lemma AdvanceKeepsInv(cfg: Config, s: State, pid: nat, o: Observation)
    requires Inv(cfg, s) && DispatchInv(cfg, s) && pid in s.procs
    requires Fair(cfg, s, Advance(pid, o)) && !StaleIntake(s, Advance(pid, o))
    ensures Inv(cfg, AdvanceProc(cfg, s, pid, o))
  {
    hide Inv, DispatchInv, Read, Cas, ClaimStep, SaveStep, IssueStep, AnswerStep, Local, Set, ProcOk, Newborn;
    var p := s.procs[pid];
    match p
    case Start(op) => ReadKeepsInv(cfg, s, pid, op, o.now);
    case IntakeSave(job) =>
      ProcAt(cfg, s, pid);
      if job.jobId in s.store.jobs { RewriteKeeps(cfg, s, pid, job); } else { CreateKeeps(cfg, s, pid, job); }
    case Casing(_, _, _, _, _) => CasKeepsInv(cfg, s, pid, o.now);
    case Claiming(_, _, _) => ClaimKeepsInv(cfg, s, pid);
    case Saving(_, _) => SaveKeepsInv(cfg, s, pid);
    case Issuing(_, _) => IssueKeepsInv(cfg, s, pid);
    case Awaiting(_, _) => AnswerKeepsInv(cfg, s, pid, o.answer, o.now);
    case _ => LocalKeepsInv(cfg, s, pid, o);
  }

  lemma DoKeepsInv(cfg: Config, s: State, step: Step)
    requires Inv(cfg, s) && DispatchInv(cfg, s) && Fair(cfg, s, step) && !StaleIntake(s, step)
    ensures Inv(cfg, Do(cfg, s, step))
  {
    hide Inv, AdvanceProc, Set;
    match step
    case Spawn(op) => SpawnKeeps(cfg, s, op);
    case Crash(pid) =>
      StopKeeps(cfg, s, pid);
      assert Do(cfg, s, step) == Set(s, pid, Stop) by { CrashIsStop(cfg, s, pid); }
    case Mine(id, block, receipts) => MineGrows(cfg, s, id, block, receipts); GrowthKeeps(cfg, s, Do(cfg, s, step));
    case Advance(pid, o) => if pid in s.procs { AdvanceKeepsInv(cfg, s, pid, o); }
  }

  lemma CrashIsStop(cfg: Config, s: State, pid: nat)
    ensures Do(cfg, s, Crash(pid)) == Set(s, pid, Stop)
  {
    hide AdvanceProc;
  }

  /** A run the environment may take and in which no intake replaces a job it did not see. */
  ghost predicate Orderly(cfg: Config, steps: seq<Step>) {
    steps != [] ==>
      var front, last := steps[..|steps| - 1], steps[|steps| - 1];
      Orderly(cfg, front) && Fair(cfg, Run(cfg, front), last) && !StaleIntake(Run(cfg, front), last)
  }

  lemma {:induction false} OrderlyIsRun(cfg: Config, steps: seq<Step>)
    requires Orderly(cfg, steps)
    ensures IsRun(cfg, steps)
  {
    hide Do, Fair, StaleIntake;
    if steps != [] { OrderlyIsRun(cfg, steps[..|steps| - 1]); }
  }

  lemma {:induction false} RunKeepsInv(cfg: Config, steps: seq<Step>)
    requires Orderly(cfg, steps)
    ensures Inv(cfg, Run(cfg, steps)) && DispatchInv(cfg, Run(cfg, steps))
  {
    hide Do, JobOk, EntryOk, ProcOk, DispatchInv, Fair;
    RunKeeps(cfg, steps);
    if steps != [] {
      var front := steps[..|steps| - 1];
      RunKeepsInv(cfg, front);
      DoKeepsInv(cfg, Run(cfg, front), steps[|steps| - 1]);
    }
  }

  /** Where a job is looked up and created in one step, every run is orderly. */
  lemma {:induction false} AtomicCreationIsOrderly(cfg: Config, steps: seq<Step>)
    requires cfg.atomicCreation && IsRun(cfg, steps)
    ensures Orderly(cfg, steps)
  {
    hide Do, Fair, Inv, ProcOk;
    if steps != [] {
      var front, last := steps[..|steps| - 1], steps[|steps| - 1];
      AtomicCreationIsOrderly(cfg, front);
      RunKeepsInv(cfg, front);
      var s := Run(cfg, front);
      if last.Advance? && last.pid in s.procs { ProcAt(cfg, s, last.pid); }
    }
  }
}
