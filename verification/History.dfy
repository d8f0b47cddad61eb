/** What one step, and then a whole run, may do to a stored job. */
module History {
  import opened Grounds
  import opened Invariant
  import opened Jobs
  import opened JobStore
  import opened Protocol
  import opened Reachable
  import opened Safety
  import opened StateMachine
  import opened Wrappers

  /** The same job, either not moved at all or moved up the ladder along a walk of the table under its own mode. */
  ghost predicate Moved(before: Job, after: Job) {
    && SameIdentity(before, after)
    && (before.status != after.status ==>
          Rank(before.status) < Rank(after.status) && Reaches(before.status, after.status, before.commitment.mode))
  }

  /** The one change that is no change of status: an EXECUTING job gets its request hash. */
  ghost predicate Stamped(cfg: Config, before: Job, after: Job) {
    && before.status.Executing? && before.execution.Some?
    && after == before.(execution := Some(before.execution.value.(
         requestHash := Some(cfg.requestHash(CallOf(before.commitment))))))
  }

  /** What a step makes of job `j`; only the owner of an EXECUTING job changes it. */
  ghost predicate StepOn(cfg: Config, s: State, step: Step, j: JobId, after: State)
    requires j in s.store.jobs
  {
    && j in after.store.jobs
    && var was, now := s.store.jobs[j], after.store.jobs[j];
       && Moved(was, now)
       && (was != now && was.status == now.status ==> Stamped(cfg, was, now))
       && (was != now && was.status.Executing? ==> step.Advance? && j in s.owner && s.owner[j] == step.pid)
  }

  lemma Untouched(cfg: Config, s: State, step: Step, j: JobId, after: State)
    requires j in s.store.jobs && j in after.store.jobs && after.store.jobs[j] == s.store.jobs[j]
    ensures StepOn(cfg, s, step, j, after)
  {
  }

  lemma ReadOn(cfg: Config, s: State, pid: nat, op: Op, now: Timestamp, j: JobId)
    requires j in s.store.jobs
    ensures var after := Read(cfg, s, pid, op, now); j in after.store.jobs && after.store.jobs[j] == s.store.jobs[j]
  {
    hide AfterRead;
  }

  /** A winning compare-and-set takes the job along the walk the call made. */
  lemma WinMoves(cfg: Config, s: State, pid: nat, p: Proc)
    requires p.Casing? && CasOk(cfg, s, pid, p)
    ensures p.base.jobId == p.next.jobId && Moved(p.base, p.next) && p.base.status != p.next.status
    ensures p.base.status.Executing? ==> p.base.jobId in s.owner && s.owner[p.base.jobId] == pid
  {
    hide Captured, Bound, Judged, GovernorRead, Durable, PrepareRefusal, IsPath;
    assert Connects(p.trail, p.base.status, p.next.status, p.base.commitment.mode);
  }

  lemma CasOn(cfg: Config, s: State, pid: nat, o: Observation, j: JobId)
    requires Inv(cfg, s) && pid in s.procs && s.procs[pid].Casing? && j in s.store.jobs
    ensures StepOn(cfg, s, Advance(pid, o), j, Cas(s, pid, s.procs[pid], o.now))
  {
    hide Inv, CasOk, Fresh, AfterCas, Moved, StatusOf, Set, Stamped;
    var p := s.procs[pid];
    var after := Cas(s, pid, p, o.now);
    if StatusOf(s.store, p.next.jobId) == Some(p.base.status) {
      CasConflictKeeps(cfg, s, pid, p);
      WinnerSawTheDocument(cfg, s, pid, p);
      WinMoves(cfg, s, pid, p);
      SetSame(Won(s, pid, p), pid, AfterCas(p.next, p.andThen, o.now));
      if j != p.base.jobId { Untouched(cfg, s, Advance(pid, o), j, after); }
    } else {
      SetSame(s, pid, Stop);
      Untouched(cfg, s, Advance(pid, o), j, after);
    }
  }

  lemma SaveOn(cfg: Config, s: State, pid: nat, o: Observation, j: JobId)
    requires Inv(cfg, s) && pid in s.procs && s.procs[pid].Saving? && j in s.store.jobs
    ensures StepOn(cfg, s, Advance(pid, o), j, SaveStep(cfg, s, pid, s.procs[pid]))
  {
    hide Inv, Captured;
    InvJobs(cfg, s);
    SavingParts(cfg, s, pid, s.procs[pid]);
  }

  lemma ClaimStore(cfg: Config, s: State, pid: nat, p: Proc)
    requires p.Claiming?
    ensures ClaimStep(cfg, s, pid, p).store.jobs == s.store.jobs
  {
    hide CallOf;
  }

  lemma IssueStore(cfg: Config, s: State, pid: nat, p: Proc)
    requires p.Issuing?
    ensures IssueStep(cfg, s, pid, p).store == s.store
  {
    hide CallOf, ChainOf;
  }

  lemma AnswerStore(s: State, pid: nat, p: Proc, answer: Answer, now: Timestamp)
    requires p.Awaiting?
    ensures AnswerStep(s, pid, p, answer, now).store == s.store
  {
  }

  lemma AdvanceOn(cfg: Config, s: State, pid: nat, o: Observation, j: JobId)
    requires Inv(cfg, s) && pid in s.procs && !StaleIntake(s, Advance(pid, o)) && j in s.store.jobs
    ensures StepOn(cfg, s, Advance(pid, o), j, AdvanceProc(cfg, s, pid, o))
  {
    hide Inv, Read, Cas, ClaimStep, SaveStep, IssueStep, AnswerStep, Local, StepOn;
    var p := s.procs[pid];
    if p.Start? {
      ReadOn(cfg, s, pid, p.op, o.now, j);
      Untouched(cfg, s, Advance(pid, o), j, AdvanceProc(cfg, s, pid, o));
    } else if p.IntakeSave? {
      Untouched(cfg, s, Advance(pid, o), j, AdvanceProc(cfg, s, pid, o));
    } else if p.Casing? {
      CasOn(cfg, s, pid, o, j);
    } else if p.Saving? {
      SaveOn(cfg, s, pid, o, j);
    } else {
      if p.Claiming? { ClaimStore(cfg, s, pid, p); }
      else if p.Issuing? { IssueStore(cfg, s, pid, p); }
      else if p.Awaiting? { AnswerStore(s, pid, p, o.answer, o.now); }
      else { SetSame(s, pid, Local(cfg, ChainOf(s, p.base), p, o)); }
      Untouched(cfg, s, Advance(pid, o), j, AdvanceProc(cfg, s, pid, o));
    }
  }

  lemma DoOn(cfg: Config, s: State, step: Step, j: JobId)
    requires Inv(cfg, s) && !StaleIntake(s, step) && j in s.store.jobs
    ensures StepOn(cfg, s, step, j, Do(cfg, s, step))
  {
    hide Inv, AdvanceProc, StepOn;
    if step.Advance? && step.pid in s.procs {
      AdvanceOn(cfg, s, step.pid, step.seen, j);
    } else {
      Untouched(cfg, s, step, j, Do(cfg, s, step));
    }
  }

  /** Every step of an orderly run. */
  lemma EveryStep(cfg: Config, steps: seq<Step>, step: Step, j: JobId)
    requires Orderly(cfg, steps + [step]) && j in Run(cfg, steps).store.jobs
    ensures StepOn(cfg, Run(cfg, steps), step, j, Run(cfg, steps + [step]))
  {
    hide Do, Inv, StepOn;
    var all := steps + [step];
    assert all[..|all| - 1] == steps;
    RunKeepsInv(cfg, steps);
    DoOn(cfg, Run(cfg, steps), step, j);
  }

  lemma {:induction false} OrderlyPrefix(cfg: Config, steps: seq<Step>, n: nat)
    requires Orderly(cfg, steps) && n <= |steps|
    ensures Orderly(cfg, steps[..n])
  {
    hide Do, Fair, StaleIntake;
    if n < |steps| {
      OrderlyPrefix(cfg, steps[..|steps| - 1], n);
      assert steps[..|steps| - 1][..n] == steps[..n];
    } else {
      assert steps[..n] == steps;
    }
  }

  lemma ReachesTransitive(a: Status, b: Status, c: Status, mode: Mode)
    requires Reaches(a, b, mode) && Reaches(b, c, mode)
    ensures Reaches(a, c, mode)
  {
    var p :| Connects(p, a, b, mode);
    var q :| Connects(q, b, c, mode);
    var r := p + q[1..];
    forall i | 0 < i < |r| ensures IsLegalTransition(r[i - 1], r[i], Some(mode)) {
      if i < |p| {
        assert r[i - 1] == p[i - 1];
      } else {
        assert r[i] == q[i - |p| + 1] && r[i - 1] == q[i - |p|];
      }
    }
    assert Connects(r, a, c, mode);
  }

  lemma MovedTransitive(a: Job, b: Job, c: Job)
    requires Moved(a, b) && Moved(b, c)
    ensures Moved(a, c)
  {
    hide Rank;
    if a.status != b.status && b.status != c.status {
      ReachesTransitive(a.status, b.status, c.status, a.commitment.mode);
    }
  }

  /**
   * From any moment of a run to its end: a stored job stays stored under the same id, commitment, commitment hash and
   * creation time, and its status only ever climbs, along a legal walk of the table under its mode.
   */
  lemma {:induction false} JobsOnlyClimb(cfg: Config, steps: seq<Step>, n: nat, j: JobId)
    requires Orderly(cfg, steps) && n <= |steps| && j in Run(cfg, steps[..n]).store.jobs
    ensures j in Run(cfg, steps).store.jobs && Moved(Run(cfg, steps[..n]).store.jobs[j], Run(cfg, steps).store.jobs[j])
  {
    hide Do, Fair, StaleIntake, Moved;
    if n == |steps| {
      assert steps[..n] == steps;
      MovedReflexive(Run(cfg, steps).store.jobs[j]);
    } else {
      var front, last := steps[..|steps| - 1], steps[|steps| - 1];
      assert front[..n] == steps[..n] && front + [last] == steps;
      JobsOnlyClimb(cfg, front, n, j);
      EveryStep(cfg, front, last, j);
      MovedTransitive(Run(cfg, steps[..n]).store.jobs[j], Run(cfg, front).store.jobs[j], Run(cfg, steps).store.jobs[j]);
    }
  }

  lemma MovedReflexive(a: Job)
    ensures Moved(a, a)
  {
  }

  /** A status that tops the ladder is final. */
  lemma TopIsFinal(cfg: Config, steps: seq<Step>, n: nat, j: JobId)
    requires Orderly(cfg, steps) && n <= |steps| && j in Run(cfg, steps[..n]).store.jobs
    requires Rank(Run(cfg, steps[..n]).store.jobs[j].status) == 8
    ensures j in Run(cfg, steps).store.jobs
    ensures Run(cfg, steps).store.jobs[j].status == Run(cfg, steps[..n]).store.jobs[j].status
  {
    hide Run, Orderly, Reaches, Rank, SameIdentity;
    JobsOnlyClimb(cfg, steps, n, j);
    NoRankAboveEight(Run(cfg, steps).store.jobs[j].status);
  }

  lemma NoRankAboveEight(st: Status)
    ensures Rank(st) <= 8
  {
  }

  /** How often the stored status of a job changed during a run. */
  ghost function StatusChanges(cfg: Config, steps: seq<Step>, j: JobId): nat {
    if steps == [] then 0
    else
      var front := steps[..|steps| - 1];
      var was, now := StatusOf(Run(cfg, front).store, j), StatusOf(Run(cfg, steps).store, j);
      StatusChanges(cfg, front, j) + (if was.Some? && was != now then 1 else 0)
  }

  /** Cyclic though the table is, no stored job ever changes status more than eight times. */
  lemma {:induction false} AtMostEightChanges(cfg: Config, steps: seq<Step>, j: JobId)
    requires Orderly(cfg, steps)
    ensures j !in Run(cfg, steps).store.jobs ==> StatusChanges(cfg, steps, j) == 0
    ensures j in Run(cfg, steps).store.jobs ==>
              StatusChanges(cfg, steps, j) <= Rank(Run(cfg, steps).store.jobs[j].status) <= 8
  {
    hide Do, Fair, StaleIntake;
    if steps != [] {
      var front, last := steps[..|steps| - 1], steps[|steps| - 1];
      assert front + [last] == steps;
      AtMostEightChanges(cfg, front, j);
      if j in Run(cfg, front).store.jobs { EveryStep(cfg, front, last, j); }
    }
  }
}
