/**
 * What every document says, stored or held by a call, in every run: whoever writes over whom, each document is true of
 * its own dispatch and of the chain, because every write is built from the document its own call read.
 */
module Documents {
  import opened Dispatching
  import opened Governor
  import opened Grounds
  import opened Growth
  import opened Invariant
  import opened Jobs
  import opened JobStore
  import opened LocalSteps
  import opened Moves
  import opened Protocol
  import opened Reachable
  import opened Safety
  import opened StateMachine
  import opened Wrappers

  // ------------------------------------------------------------------ one document

  /** A well-formed document whose dispatch, once it records one, is entry `k` of the log. */
  ghost predicate DocOk(cfg: Config, chain: Chain, log: seq<Dispatch>, job: Job, k: nat) {
    && RecordOk(cfg, chain, log, map[job.jobId := k], job)
    && (PastDispatch(job.status) ==> DispatchOk(cfg, chain, job, log[k]))
  }

  ghost predicate StoredOk(cfg: Config, s: State, job: Job) {
    exists k: nat :: DocOk(cfg, ChainOf(s, job), s.log, job, k)
  }

  /** The log has grown, and entries may have been answered that were not before. */
  ghost predicate LogKept(log: seq<Dispatch>, log': seq<Dispatch>) {
    |log| <= |log'| && forall i :: 0 <= i < |log| && !log[i].answer.Silent? ==> log'[i] == log[i]
  }

  lemma DocKept(cfg: Config, chain: Chain, log: seq<Dispatch>, log': seq<Dispatch>, job: Job, k: nat)
    requires LogKept(log, log') && DocOk(cfg, chain, log, job, k)
    ensures DocOk(cfg, chain, log', job, k)
  {
    hide RecordShape, ChainFacts, DispatchOk, Pristine;
  }

  lemma DocGrows(cfg: Config, c: Chain, c': Chain, log: seq<Dispatch>, job: Job, k: nat)
    requires Extends(c, c') && DocOk(cfg, c, log, job, k)
    requires forall t :: t in c'.receipts && t !in c.receipts ==> c'.receipts[t].block >= |c.blocks|
    ensures DocOk(cfg, c', log, job, k)
  {
    hide RecordShape, ChainFacts, DispatchOk, Extends, Pristine;
    RecordOkGrows(cfg, c, c', log, map[job.jobId := k], job);
    if PastDispatch(job.status) { DispatchGrows(cfg, c, c', job, log[k]); }
  }

  // ------------------------------------------------------------------ one call

  /** The state as the call sees it that holds this document and shares it with nobody. */
  function Alone(s: State, pid: nat, base: Job, k: nat): State {
    State(Store(map[base.jobId := base], map[], map[]), s.chains, map[], 0, s.log, map[], map[base.jobId := pid],
          map[base.jobId := k])
  }

  predicate Holds(p: Proc) {
    !p.Start? && !p.IntakeSave?
  }

  /** A call, its document and the place of its document's dispatch in the log. */
  ghost predicate HolderOk(cfg: Config, s: State, pid: nat, p: Proc, k: nat)
    requires Holds(p)
  {
    && DocOk(cfg, ChainOf(s, p.base), s.log, p.base, k)
    && ProcOk(cfg, Alone(s, pid, p.base, k), pid, p)
    && (p.Casing? && PastDispatch(p.next.status) ==>
          k < |s.log| && DispatchOk(cfg, ChainOf(s, p.base), p.next, s.log[k]))
    && (p.Awaiting? ==>
          p.index == k < |s.log| && s.log[k].answer.Silent? && DispatchOk(cfg, ChainOf(s, p.base), p.base, s.log[k]))
  }

  ghost predicate CallOk(cfg: Config, s: State, pid: nat, p: Proc) {
    && (p.IntakeSave? ==> Newborn(cfg, p.job))
    && (Holds(p) ==> exists k: nat :: HolderOk(cfg, s, pid, p, k))
  }

  ghost predicate DocInv(cfg: Config, s: State) {
    && (forall j :: j in s.store.jobs ==> s.store.jobs[j].jobId == j && StoredOk(cfg, s, s.store.jobs[j]))
    && (forall pid :: pid in s.procs ==> CallOk(cfg, s, pid, s.procs[pid]))
    && (forall pid, q ::
          pid in s.procs && q in s.procs && pid != q && s.procs[pid].Awaiting? && s.procs[q].Awaiting? ==>
            s.procs[pid].index != s.procs[q].index)
  }

  /** A write past dispatch continues an answered entry of the log. */
  lemma PastDispatchIsAnswered(cfg: Config, s: State, pid: nat, p: Proc, k: nat)
    requires p.Casing? && HolderOk(cfg, s, pid, p, k) && PastDispatch(p.next.status)
    ensures k < |s.log| && s.log[k].answer.Answered?
    ensures p.next.jobId == p.base.jobId && p.next.commitment == p.base.commitment
    ensures Bound(s.log, map[p.base.jobId := k], p.next)
  {
    hide RecordShape, ChainFacts, DispatchOk, Fresh, Owns, Captured, IsPath, Trail, Judged, GovernorRead,
      PrepareRefusal, Durable;
    var a := Alone(s, pid, p.base, k);
    BoundKept(cfg, ChainOf(a, p.base), s.log, a.issued, p.base, p.next, p.events);
  }

  lemma LegitLogKept(cfg: Config, chain: Chain, log: seq<Dispatch>, log': seq<Dispatch>, issued: map<JobId, nat>,
                     base: Job, next: Job, events: seq<Event>)
    requires LogKept(log, log') && Legit(cfg, chain, log, issued, base, next, events)
    ensures Legit(cfg, chain, log', issued, base, next, events)
  {
    hide Judged, GovernorRead, Pristine, IsArm, IsDisarm, IsApproval, PrepareRefusal;
  }

  lemma CasLogKept(cfg: Config, a: State, a': State, pid: nat, p: Proc)
    requires a' == a.(log := a'.log) && LogKept(a.log, a'.log) && p.Casing? && CasOk(cfg, a, pid, p)
    ensures CasOk(cfg, a', pid, p)
  {
    hide LogKept, Owns, Captured, Legit, IsPath, Trail, ChainFor;
    assert Owns(a', pid, p.base) == Owns(a, pid, p.base) by { OwnsLog(a, a', pid, p.base); }
    LegitLogKept(cfg, ChainOf(a, p.base), a.log, a'.log, a.issued, p.base, p.next, p.events);
  }

  lemma OwnsLog(a: State, a': State, pid: nat, base: Job)
    requires a' == a.(log := a'.log)
    ensures Owns(a', pid, base) == Owns(a, pid, base)
  {
  }

  lemma ProcLogKept(cfg: Config, a: State, a': State, pid: nat, p: Proc)
    requires a' == a.(log := a'.log) && LogKept(a.log, a'.log) && ProcOk(cfg, a, pid, p)
    requires p.Awaiting? && p.index < |a.log| ==> a'.log[p.index] == a.log[p.index]
    ensures ProcOk(cfg, a', pid, p)
  {
    hide Fresh, Owns, Captured, CasOk, Checked, CheckedAction, Walked, Pristine, AuthorizationAt, ChainFor, Seen,
      Carries, CarriesRequest;
    if p.Start? || p.IntakeSave? { return; }
    OwnsLog(a, a', pid, p.base);
    assert ChainOf(a', p.base) == ChainOf(a, p.base);
    if p.Casing? {
      CasLogKept(cfg, a, a', pid, p);
    } else if p.PrepareSimulate? {
      var b: nat :| Captured(cfg, ChainOf(a, p.base), p.base.commitment, p.execution, b);
      assert Captured(cfg, ChainOf(a', p.base), p.base.commitment, p.execution, b);
    }
  }

  /** A call keeps its footing whatever other calls log or learn. */
  lemma HolderKept(cfg: Config, s: State, s': State, pid: nat, p: Proc, k: nat)
    requires Holds(p) && HolderOk(cfg, s, pid, p, k) && s'.chains == s.chains && LogKept(s.log, s'.log)
    requires p.Awaiting? ==> s'.log[k] == s.log[k]
    ensures HolderOk(cfg, s', pid, p, k)
  {
    hide DocOk, ProcOk, DispatchOk;
    DocKept(cfg, ChainOf(s, p.base), s.log, s'.log, p.base, k);
    ProcLogKept(cfg, Alone(s, pid, p.base, k), Alone(s', pid, p.base, k), pid, p);
    if p.Casing? && PastDispatch(p.next.status) { PastDispatchIsAnswered(cfg, s, pid, p, k); }
  }

  // ------------------------------------------------------------------ one step of one call

  /** One call may write one document, lengthen the log or answer its own entry, and then moves on. */
  lemma StepKeeps(cfg: Config, s: State, mid: State, pid: nat, next: Outcome)
    requires DocInv(cfg, s) && mid.procs == s.procs && mid.chains == s.chains && LogKept(s.log, mid.log)
    requires forall q :: q in s.procs && q != pid && s.procs[q].Awaiting? && s.procs[q].index < |s.log| ==>
               mid.log[s.procs[q].index] == s.log[s.procs[q].index]
    requires forall j :: j in mid.store.jobs ==>
               (j in s.store.jobs && mid.store.jobs[j] == s.store.jobs[j]) ||
               (mid.store.jobs[j].jobId == j && StoredOk(cfg, mid, mid.store.jobs[j]))
    requires next.Go? ==> CallOk(cfg, mid, pid, next.proc)
    requires next.Go? && next.proc.Awaiting? ==>
               forall q :: q in s.procs && q != pid && s.procs[q].Awaiting? ==> s.procs[q].index != next.proc.index
    ensures DocInv(cfg, Set(mid, pid, next))
  {
    hide LogKept, DocOk, HolderOk, Newborn;
    var s' := Set(mid, pid, next);
    forall j | j in s'.store.jobs ensures s'.store.jobs[j].jobId == j && StoredOk(cfg, s', s'.store.jobs[j]) {
      if j in s.store.jobs && mid.store.jobs[j] == s.store.jobs[j] {
        StoredKept(cfg, s, s', s.store.jobs[j]);
      } else {
        StoredKept(cfg, mid, s', mid.store.jobs[j]);
      }
    }
    forall q | q in s'.procs ensures CallOk(cfg, s', q, s'.procs[q]) {
      if q == pid {
        CallKept(cfg, mid, s', q, next.proc);
      } else {
        CallKept(cfg, s, s', q, s.procs[q]);
      }
    }
  }

  lemma StoredKept(cfg: Config, s: State, s': State, job: Job)
    requires StoredOk(cfg, s, job) && s'.chains == s.chains && (s'.log == s.log || LogKept(s.log, s'.log))
    ensures StoredOk(cfg, s', job)
  {
    hide DocOk, LogKept;
    var k: nat :| DocOk(cfg, ChainOf(s, job), s.log, job, k);
    if s'.log != s.log { DocKept(cfg, ChainOf(s, job), s.log, s'.log, job, k); }
    assert DocOk(cfg, ChainOf(s', job), s'.log, job, k);
  }

  lemma CallKept(cfg: Config, s: State, s': State, pid: nat, p: Proc)
    requires CallOk(cfg, s, pid, p) && s'.chains == s.chains && (s'.log == s.log || LogKept(s.log, s'.log))
    requires p.Awaiting? && p.index < |s.log| <= |s'.log| ==> s'.log[p.index] == s.log[p.index]
    ensures CallOk(cfg, s', pid, p)
  {
    hide HolderOk, Newborn;
    if Holds(p) {
      var k: nat :| HolderOk(cfg, s, pid, p, k);
      assert p.Awaiting? ==> p.index == k < |s.log| by { AwaitsIts(cfg, s, pid, p, k); }
      LogRefl(s.log);
      HolderKept(cfg, s, s', pid, p, k);
    }
  }

  lemma AwaitsIts(cfg: Config, s: State, pid: nat, p: Proc, k: nat)
    requires Holds(p) && HolderOk(cfg, s, pid, p, k)
    ensures p.Awaiting? ==> p.index == k < |s.log|
  {
    hide DocOk, ProcOk, DispatchOk;
  }

  lemma LogRefl(log: seq<Dispatch>)
    ensures LogKept(log, log)
  {
  }

  /** A call that changes nothing shared moves on. */
  lemma MoveOn(cfg: Config, s: State, pid: nat, next: Outcome)
    requires DocInv(cfg, s) && (next.Go? ==> CallOk(cfg, s, pid, next.proc) && !next.proc.Awaiting?)
    ensures DocInv(cfg, Set(s, pid, next))
  {
    hide DocInv, CallOk, Set;
    LogRefl(s.log);
    assert forall j :: j in s.store.jobs ==> s.store.jobs[j] == s.store.jobs[j];
    StepKeeps(cfg, s, s, pid, next);
  }

  /** A call writes a document and moves on. */
  lemma WriteAndMoveOn(cfg: Config, s: State, mid: State, pid: nat, job: Job, next: Outcome)
    requires DocInv(cfg, s) && mid.procs == s.procs && mid.chains == s.chains && mid.log == s.log
    requires mid.store.jobs == s.store.jobs[job.jobId := job] && StoredOk(cfg, s, job)
    requires next.Go? ==> CallOk(cfg, s, pid, next.proc) && !next.proc.Awaiting?
    ensures DocInv(cfg, Set(mid, pid, next))
  {
    hide DocInv, CallOk, StoredOk, Set;
    LogRefl(s.log);
    StoredKept(cfg, s, mid, job);
    if next.Go? { CallKept(cfg, s, mid, pid, next.proc); }
    StepKeeps(cfg, s, mid, pid, next);
  }

  lemma Holding(cfg: Config, s: State, pid: nat) returns (k: nat)
    requires DocInv(cfg, s) && pid in s.procs && Holds(s.procs[pid])
    ensures HolderOk(cfg, s, pid, s.procs[pid], k)
  {
    hide StoredOk, HolderOk, Newborn;
    assert CallOk(cfg, s, pid, s.procs[pid]);
    k :| HolderOk(cfg, s, pid, s.procs[pid], k);
  }

  // ------------------------------------------------------------------ reading

  /** What any read leads to is still about the same document, and is no write of an answer. */
  predicate StaysOn(base: Job, r: Outcome) {
    r.Go? ==>
      Holds(r.proc) && r.proc.base == base && !r.proc.Awaiting? && (r.proc.Casing? ==> !r.proc.next.status.Reconciling?)
  }

  lemma LocalStaysOn(cfg: Config, chain: Chain, p: Proc, o: Observation)
    requires Holds(p)
    ensures StaysOn(p.base, Local(cfg, chain, p, o))
  {
    hide AuthorizationAt, Protocol.Eligible, Snapshot, FinalVerdict, FinalReceipt, FirstSelected,
      Erc20.TryDecodeTransfer, IsLegalTransition;
  }

  lemma ReadStaysOn(op: Op, base: Job, now: Timestamp)
    requires RecordShape(base)
    ensures StaysOn(base, AfterRead(op, base, now))
  {
    hide IsLegalTransition;
  }

  /** A well-placed outcome about the same document holds that document. */
  lemma OutcomeHolds(cfg: Config, s: State, pid: nat, base: Job, k: nat, r: Outcome)
    requires DocOk(cfg, ChainOf(s, base), s.log, base, k)
    requires StaysOn(base, r) && OutcomeOk(cfg, Alone(s, pid, base, k), pid, r)
    ensures r.Go? ==> CallOk(cfg, s, pid, r.proc)
  {
    hide DocOk, ProcOk, DispatchOk;
    if r.Go? {
      if r.proc.Casing? && PastDispatch(r.proc.next.status) { DispatchStays(cfg, s, pid, r.proc, k); }
      assert HolderOk(cfg, s, pid, r.proc, k);
    }
  }

  lemma DispatchStays(cfg: Config, s: State, pid: nat, p: Proc, k: nat)
    requires p.Casing? && DocOk(cfg, ChainOf(s, p.base), s.log, p.base, k) &&
             ProcOk(cfg, Alone(s, pid, p.base, k), pid, p)
    requires PastDispatch(p.next.status) && !p.next.status.Reconciling?
    ensures k < |s.log| && DispatchOk(cfg, ChainOf(s, p.base), p.next, s.log[k])
  {
    hide RecordShape, ChainFacts, Fresh, Owns, Captured, IsPath, Trail, Judged, GovernorRead, PrepareRefusal, Durable;
  }

  lemma AloneIsFresh(s: State, pid: nat, base: Job, k: nat)
    requires Durable(base.status)
    ensures Fresh(Alone(s, pid, base, k).store, base) && ChainOf(Alone(s, pid, base, k), base) == ChainOf(s, base)
    ensures base.status.Executing? ==> Owns(Alone(s, pid, base, k), pid, base)
  {
  }

  lemma ReadKeepsDocs(cfg: Config, s: State, pid: nat, op: Op, now: Timestamp)
    requires DocInv(cfg, s) && pid in s.procs
    ensures DocInv(cfg, Read(cfg, s, pid, op, now))
  {
    hide DocInv, Set, AfterRead, OutcomeOk, Alone, StaysOn, StoredOk, CallOk;
    if op.jobId in s.store.jobs {
      var base := s.store.jobs[op.jobId];
      StoredReads(cfg, s, pid, op, base, now);
      MoveOn(cfg, s, pid, AfterRead(op, base, now));
    } else if !op.Intake? {
      MoveOn(cfg, s, pid, Stop);
    } else {
      var job := CreateReviewReadyJob(op.jobId, op.commitment, cfg.commitmentHash(op.commitment), now);
      NewbornIsOk(cfg, s, pid, job);
      if cfg.atomicCreation {
        WriteAndMoveOn(cfg, s, s.(store := Save(s.store, job)), pid, job, Stop);
      } else {
        MoveOn(cfg, s, pid, Go(IntakeSave(job)));
      }
    }
  }

  lemma StoredReads(cfg: Config, s: State, pid: nat, op: Op, base: Job, now: Timestamp)
    requires DocInv(cfg, s) && op.jobId in s.store.jobs && base == s.store.jobs[op.jobId]
    ensures var r := AfterRead(op, base, now); r.Go? ==> CallOk(cfg, s, pid, r.proc) && !r.proc.Awaiting?
  {
    hide AfterRead, OutcomeOk, CallOk, RecordShape, ChainFacts, Alone, Bound, DispatchOk, Durable, Fresh;
    assert StoredOk(cfg, s, base);
    var k: nat :| DocOk(cfg, ChainOf(s, base), s.log, base, k);
    AloneIsFresh(s, pid, base, k);
    AfterReadOk(cfg, Alone(s, pid, base, k), pid, op, base, now);
    ReadStaysOn(op, base, now);
    OutcomeHolds(cfg, s, pid, base, k, AfterRead(op, base, now));
  }

  lemma NewbornIsOk(cfg: Config, s: State, pid: nat, job: Job)
    requires Newborn(cfg, job)
    ensures StoredOk(cfg, s, job) && CallOk(cfg, s, pid, IntakeSave(job))
  {
    hide Bound, Judged, GovernorRead, Pristine, DispatchOk;
    assert DocOk(cfg, ChainOf(s, job), s.log, job, 0);
  }

  lemma LocalKeepsDocs(cfg: Config, s: State, pid: nat, o: Observation)
    requires DocInv(cfg, s) && pid in s.procs && Holds(s.procs[pid])
    requires ClosingRead(cfg, ChainOf(s, s.procs[pid].base), s.procs[pid], o)
    ensures DocInv(cfg, Set(s, pid, Local(cfg, ChainOf(s, s.procs[pid].base), s.procs[pid], o)))
  {
    hide DocInv, Set, Local, OutcomeOk, CallOk, DocOk, ProcOk, DispatchOk;
    var p := s.procs[pid];
    var k := Holding(cfg, s, pid);
    LocalOk(cfg, Alone(s, pid, p.base, k), pid, p, o);
    LocalStaysOn(cfg, ChainOf(s, p.base), p, o);
    OutcomeHolds(cfg, s, pid, p.base, k, Local(cfg, ChainOf(s, p.base), p, o));
    MoveOn(cfg, s, pid, Local(cfg, ChainOf(s, p.base), p, o));
  }

  // ------------------------------------------------------------------ compare-and-set

  /** What is about to be written is true of its dispatch and of the chain, whatever it is written over. */
  lemma WrittenIsOk(cfg: Config, s: State, pid: nat, p: Proc, k: nat)
    requires p.Casing? && HolderOk(cfg, s, pid, p, k)
    ensures p.next.jobId == p.base.jobId && ChainOf(s, p.next) == ChainOf(s, p.base)
    ensures DocOk(cfg, ChainOf(s, p.next), s.log, p.next, k)
  {
    hide RecordOk, DispatchOk, Fresh, Owns, Captured, IsPath, Trail, Judged, GovernorRead, Bound, PrepareRefusal,
      Durable;
    RecordOkKept(cfg, ChainOf(s, p.base), s.log, map[p.base.jobId := k], p.base, p.next, p.events);
  }

  lemma AfterWinStaysOn(cfg: Config, a: State, pid: nat, p: Proc, now: Timestamp)
    requires p.Casing? && CasOk(cfg, a, pid, p)
    ensures var r := AfterCas(p.next, p.andThen, now);
            r.Go? && Holds(r.proc) ==> StaysOn(p.next, r)
  {
    hide Owns, Captured, Legit, IsPath, Trail, Durable;
  }

  lemma AfterWinHolds(cfg: Config, s: State, pid: nat, p: Proc, k: nat, now: Timestamp)
    requires p.Casing? && HolderOk(cfg, s, pid, p, k)
    ensures var r := AfterCas(p.next, p.andThen, now); r.Go? ==> CallOk(cfg, s, pid, r.proc) && !r.proc.Awaiting?
  {
    hide DocOk, DispatchOk, CasOk, Fresh, AfterCas, OutcomeOk, CallOk;
    WrittenIsOk(cfg, s, pid, p, k);
    var a, a' := Alone(s, pid, p.base, k), Alone(s, pid, p.next, k);
    assert CasOk(cfg, a, pid, p);
    AfterWinOk(cfg, a, a', pid, p, now);
    AfterWinStaysOn(cfg, a, pid, p, now);
    var r := AfterCas(p.next, p.andThen, now);
    if r.Go? {
      if Holds(r.proc) { OutcomeHolds(cfg, s, pid, p.next, k, r); } else { RestartOk(cfg, s, pid, p, now); }
    }
  }

  lemma RestartOk(cfg: Config, s: State, pid: nat, p: Proc, now: Timestamp)
    requires p.Casing?
    ensures var r := AfterCas(p.next, p.andThen, now); r.Go? && !Holds(r.proc) ==> CallOk(cfg, s, pid, r.proc)
  {
  }

  lemma CasKeepsDocs(cfg: Config, s: State, pid: nat, now: Timestamp)
    requires DocInv(cfg, s) && pid in s.procs && s.procs[pid].Casing?
    ensures DocInv(cfg, Cas(s, pid, s.procs[pid], now))
  {
    hide DocInv, Set, AfterCas, StatusOf, HolderOk, DocOk, CallOk;
    var p := s.procs[pid];
    var k := Holding(cfg, s, pid);
    if StatusOf(s.store, p.next.jobId) == Some(p.base.status) {
      WrittenIsOk(cfg, s, pid, p, k);
      AfterWinHolds(cfg, s, pid, p, k, now);
      WriteAndMoveOn(cfg, s, Won(s, pid, p), pid, p.next, AfterCas(p.next, p.andThen, now));
    } else {
      MoveOn(cfg, s, pid, Stop);
    }
  }

  // ------------------------------------------------------------------ claim and save

  lemma ClaimKeepsDocs(cfg: Config, s: State, pid: nat)
    requires DocInv(cfg, s) && pid in s.procs && s.procs[pid].Claiming?
    ensures DocInv(cfg, ClaimStep(cfg, s, pid, s.procs[pid]))
  {
    hide DocInv, Set, CallOf, CallOk;
    var p := s.procs[pid];
    var request := cfg.requestHash(CallOf(p.base.commitment));
    ClaimedHolds(cfg, s, pid, p);
    if request in s.store.claims {
      MoveOn(cfg, s, pid, Go(Start(Reconcile(p.base.jobId))));
    } else {
      var store := TryClaim(s.store, request, p.base.jobId, p.actor).0;
      var mid := s.(store := store, claimant := s.claimant[request := pid]);
      LogRefl(s.log);
      CallKept(cfg, s, mid, pid, Saving(p.base, p.authBlock));
      StepKeeps(cfg, s, mid, pid, Go(Saving(p.base, p.authBlock)));
    }
  }

  lemma ClaimedHolds(cfg: Config, s: State, pid: nat, p: Proc)
    requires DocInv(cfg, s) && pid in s.procs && s.procs[pid] == p && p.Claiming?
    ensures CallOk(cfg, s, pid, Saving(p.base, p.authBlock)) && CallOk(cfg, s, pid, Start(Reconcile(p.base.jobId)))
  {
    hide DocInv, DocOk, ProcOk, DispatchOk;
    var k := Holding(cfg, s, pid);
    ClaimedProcOk(cfg, Alone(s, pid, p.base, k), pid, p);
    assert HolderOk(cfg, s, pid, Saving(p.base, p.authBlock), k);
  }

  /** An EXECUTING document carries nothing the log or the chain could contradict. */
  lemma StampedIsOk(cfg: Config, chain: Chain, log: seq<Dispatch>, base: Job, mine: Job, k: nat)
    requires DocOk(cfg, chain, log, base, k) && base.status.Executing? && base.execution.Some? && mine.execution.Some?
    requires mine == base.(execution := mine.execution)
    requires mine.execution.value.(requestHash := None) == base.execution.value.(requestHash := None)
    ensures DocOk(cfg, chain, log, mine, k)
  {
    hide Bound, Judged, GovernorRead, PrepareRefusal, DispatchOk, Grounded;
    RouteIsNoRefusal();
  }

  lemma SaveKeepsDocs(cfg: Config, s: State, pid: nat)
    requires DocInv(cfg, s) && pid in s.procs && s.procs[pid].Saving?
    ensures DocInv(cfg, SaveStep(cfg, s, pid, s.procs[pid]))
  {
    hide DocInv, Set, CallOf, DocOk, HolderOk, CallOk;
    var p := s.procs[pid];
    var k := Holding(cfg, s, pid);
    HolderParts(cfg, s, pid, p, k);
    var e := p.base.execution.value.(requestHash := Some(cfg.requestHash(CallOf(p.base.commitment))));
    var mine := p.base.(execution := Some(e));
    StampedIsOk(cfg, ChainOf(s, p.base), s.log, p.base, mine, k);
    assert DocOk(cfg, ChainOf(s, mine), s.log, mine, k);
    StampedHolds(cfg, s, pid, p, mine, k);
    WriteAndMoveOn(cfg, s, s.(store := Save(s.store, mine)), pid, mine, Go(Issuing(mine, p.authBlock)));
  }

  lemma HolderParts(cfg: Config, s: State, pid: nat, p: Proc, k: nat)
    requires (p.Saving? || p.Issuing?) && HolderOk(cfg, s, pid, p, k)
    ensures p.base.execution.Some? && Owns(Alone(s, pid, p.base, k), pid, p.base) && p.base.status.Executing?
    ensures DocOk(cfg, ChainOf(s, p.base), s.log, p.base, k)
    ensures Captured(cfg, ChainOf(s, p.base), p.base.commitment, p.base.execution.value, p.authBlock)
  {
    hide DocOk, Captured, DispatchOk;
  }

  lemma StampedHolds(cfg: Config, s: State, pid: nat, p: Proc, mine: Job, k: nat)
    requires p.Saving? && HolderOk(cfg, s, pid, p, k) && p.base.execution.Some? && mine.execution.Some?
    requires mine == p.base.(execution := mine.execution)
    requires mine.execution.value.(requestHash := None) == p.base.execution.value.(requestHash := None)
    requires CarriesRequest(cfg, mine) && DocOk(cfg, ChainOf(s, mine), s.log, mine, k)
    ensures CallOk(cfg, s, pid, Issuing(mine, p.authBlock))
  {
    hide DocOk, ProcOk, DispatchOk, OutcomeOk, Captured, CarriesRequest;
    HolderParts(cfg, s, pid, p, k);
    var a := Alone(s, pid, p.base, k);
    var mid, b := a.(store := Save(a.store, mine)), Alone(s, pid, mine, k);
    SavedProcOk(cfg, a, mid, pid, p.base, mine, p.authBlock);
    assert mid.store.jobs == b.store.jobs;
    OutcomeShared(cfg, mid, b, pid, Go(Issuing(mine, p.authBlock)));
    assert ProcOk(cfg, b, pid, Issuing(mine, p.authBlock)) by { OutcomeMeans(cfg, b, pid, Issuing(mine, p.authBlock)); }
    assert HolderOk(cfg, s, pid, Issuing(mine, p.authBlock), k);
  }

  lemma OutcomeMeans(cfg: Config, s: State, pid: nat, p: Proc)
    requires OutcomeOk(cfg, s, pid, Go(p))
    ensures ProcOk(cfg, s, pid, p)
  {
    hide ProcOk;
  }

  // ------------------------------------------------------------------ issue and answer

  lemma IssueKeepsDocs(cfg: Config, s: State, pid: nat)
    requires DocInv(cfg, s) && pid in s.procs && s.procs[pid].Issuing?
    ensures DocInv(cfg, IssueStep(cfg, s, pid, s.procs[pid]))
  {
    hide DocInv, Set, CallOf, DocOk, HolderOk, CallOk, Captured;
    var p := s.procs[pid];
    var k := Holding(cfg, s, pid);
    HolderParts(cfg, s, pid, p, k);
    var call := CallOf(p.base.commitment);
    var d := Dispatch(p.base.jobId, call, cfg.requestHash(call), p.base.execution.value, p.authBlock,
                      |ChainOf(s, p.base).blocks|, Silent);
    var mid := s.(log := s.log + [d], issued := s.issued[p.base.jobId := |s.log|]);
    IssuedHolds(cfg, s, mid, pid, p, k, d);
    forall q | q in s.procs && s.procs[q].Awaiting? ensures s.procs[q].index < |s.log| {
      var l := Holding(cfg, s, q);
      AwaitsIts(cfg, s, q, s.procs[q], l);
    }
    assert LogKept(s.log, mid.log);
    StepKeeps(cfg, s, mid, pid, Go(Awaiting(p.base, |s.log|)));
  }

  lemma IssuedHolds(cfg: Config, s: State, mid: State, pid: nat, p: Proc, k: nat, d: Dispatch)
    requires p.Issuing? && HolderOk(cfg, s, pid, p, k) && p.base.execution.Some?
    requires d == Dispatch(p.base.jobId, CallOf(p.base.commitment), d.request, p.base.execution.value, p.authBlock,
                           |ChainOf(s, p.base).blocks|, Silent)
    requires d.request == cfg.requestHash(d.call) && mid.chains == s.chains && mid.log == s.log + [d]
    ensures CallOk(cfg, mid, pid, Awaiting(p.base, |s.log|))
  {
    hide DocOk, ProcOk, DispatchOk, OutcomeOk, Captured, CallOf;
    HolderParts(cfg, s, pid, p, k);
    assert CarriesRequest(cfg, p.base) by { IssuingParts(cfg, Alone(s, pid, p.base, k), pid, p); }
    var a, b, n := Alone(s, pid, p.base, k), Alone(mid, pid, p.base, |s.log|), |s.log|;
    assert b == a.(log := a.log + [d], issued := a.issued[p.base.jobId := |a.log|]);
    IssuedProcOk(cfg, a, b, pid, p.base, d);
    OutcomeMeans(cfg, b, pid, Awaiting(p.base, n));
    IssuedEntryOk(cfg, a, b, pid, p.base, d);
    assert mid.log[n] == d && DispatchOk(cfg, ChainOf(mid, p.base), p.base, d) by { EntryMeans(cfg, b, n, d); }
    ExecutingAnywhere(cfg, ChainOf(s, p.base), s.log, mid.log, p.base, k, n);
    assert HolderOk(cfg, mid, pid, Awaiting(p.base, n), n);
  }

  lemma EntryMeans(cfg: Config, s: State, k: nat, d: Dispatch)
    requires EntryOk(cfg, s, k, d)
    ensures d.jobId in s.store.jobs && DispatchOk(cfg, ChainOf(s, s.store.jobs[d.jobId]), s.store.jobs[d.jobId], d)
  {
    hide DispatchOk;
  }

  /** Before its dispatch is on record a document does not depend on the log. */
  lemma ExecutingAnywhere(cfg: Config, chain: Chain, log: seq<Dispatch>, log': seq<Dispatch>, job: Job, k: nat, n: nat)
    requires DocOk(cfg, chain, log, job, k) && job.status.Executing?
    ensures DocOk(cfg, chain, log', job, n)
  {
    hide RecordShape, ChainFacts, DispatchOk;
  }

  lemma AnswerKeepsDocs(cfg: Config, s: State, pid: nat, answer: Answer, now: Timestamp)
    requires DocInv(cfg, s) && pid in s.procs && s.procs[pid].Awaiting? && AnswerIsNew(s, s.procs[pid], answer)
    ensures DocInv(cfg, AnswerStep(s, pid, s.procs[pid], answer, now))
  {
    hide DocInv, Set, DocOk, HolderOk, CallOk, AnswerIsNew;
    var p := s.procs[pid];
    var k := Holding(cfg, s, pid);
    AwaitingHolds(cfg, s, pid, p, k);
    if !answer.Silent? {
      var mid := Relabelled(s, k, answer);
      forall q | q in s.procs && q != pid && s.procs[q].Awaiting?
        ensures s.procs[q].index != k
      {
        Apart(cfg, s, pid, q);
      }
      assert LogKept(s.log, mid.log);
      if answer.Threw? {
        var next := Casing(p.base, p.base.(status := UnknownReconciling, updatedAt := now), [],
                           [p.base.status, UnknownReconciling], Finish);
        ThrewHolds(cfg, s, mid, pid, p, k, now);
        StepKeeps(cfg, s, mid, pid, Go(next));
      } else {
        var e := p.base.execution.value.(transactionHash := answer.txHash);
        var next := Casing(p.base, Updated(p.base, Reconciling, e, now), [], [p.base.status, Reconciling], Resume);
        AnsweredHolds(cfg, s, mid, pid, p, k, answer, now);
        StepKeeps(cfg, s, mid, pid, Go(next));
      }
    }
  }

  lemma Apart(cfg: Config, s: State, pid: nat, q: nat)
    requires DocInv(cfg, s) && pid in s.procs && q in s.procs &&
             pid != q && s.procs[pid].Awaiting? && s.procs[q].Awaiting?
    ensures s.procs[q].index != s.procs[pid].index
  {
    hide StoredOk, CallOk;
  }

  lemma AwaitingHolds(cfg: Config, s: State, pid: nat, p: Proc, k: nat)
    requires p.Awaiting? && HolderOk(cfg, s, pid, p, k)
    ensures p.index == k < |s.log| && s.log[k].answer.Silent? && s.log[k].jobId == p.base.jobId
    ensures p.base.execution.Some? && Owns(Alone(s, pid, p.base, k), pid, p.base) && p.base.status.Executing?
    ensures s.log[k].execution == p.base.execution.value
    ensures DocOk(cfg, ChainOf(s, p.base), s.log, p.base, k) && DispatchOk(cfg, ChainOf(s, p.base), p.base, s.log[k])
  {
    hide DocOk, DispatchOk, Pristine;
  }

  lemma ThrewHolds(cfg: Config, s: State, mid: State, pid: nat, p: Proc, k: nat, now: Timestamp)
    requires p.Awaiting? && HolderOk(cfg, s, pid, p, k) && mid.chains == s.chains
    ensures CallOk(cfg, mid, pid, Casing(p.base, p.base.(status := UnknownReconciling, updatedAt := now), [],
                                         [p.base.status, UnknownReconciling], Finish))
  {
    hide DocOk, ProcOk, DispatchOk, OutcomeOk, Pristine;
    AwaitingHolds(cfg, s, pid, p, k);
    var b := Alone(mid, pid, p.base, k);
    var next := Casing(p.base, p.base.(status := UnknownReconciling, updatedAt := now), [],
                       [p.base.status, UnknownReconciling], Finish);
    ThrewOk(cfg, b, pid, p.base, now);
    OutcomeMeans(cfg, b, pid, next);
    ExecutingAnywhere(cfg, ChainOf(s, p.base), s.log, mid.log, p.base, k, k);
    assert HolderOk(cfg, mid, pid, next, k);
  }

  lemma AnsweredHolds(cfg: Config, s: State, mid: State, pid: nat, p: Proc, k: nat, answer: Answer, now: Timestamp)
    requires p.Awaiting? && HolderOk(cfg, s, pid, p, k) && p.index == k < |s.log| && p.base.execution.Some?
    requires answer.Answered? && AnswerIsNew(s, p, answer)
    requires mid.chains == s.chains && mid.log == Relabelled(s, k, answer).log
    ensures CallOk(cfg, mid, pid,
                   Casing(p.base,
                          Updated(p.base, Reconciling, p.base.execution.value.(transactionHash := answer.txHash), now),
                          [], [p.base.status, Reconciling], Resume))
  {
    hide DocOk, ProcOk, OutcomeOk, Pristine, Captured, DispatchOk;
    AwaitingHolds(cfg, s, pid, p, k);
    var b := Alone(mid, pid, p.base, k);
    var job := Updated(p.base, Reconciling, p.base.execution.value.(transactionHash := answer.txHash), now);
    var next := Casing(p.base, job, [], [p.base.status, Reconciling], Resume);
    AnsweredOk(cfg, b, pid, p.base, k, answer.txHash, now);
    OutcomeMeans(cfg, b, pid, next);
    ExecutingAnywhere(cfg, ChainOf(s, p.base), s.log, mid.log, p.base, k, k);
    AnsweredDispatch(cfg, ChainOf(s, p.base), p.base, job, s.log[k], answer);
    assert HolderOk(cfg, mid, pid, next, k);
  }

  lemma AnsweredDispatch(cfg: Config, chain: Chain, base: Job, job: Job, d: Dispatch, answer: Answer)
    requires DispatchOk(cfg, chain, base, d) && answer.Answered?
    requires answer.txHash.Some? && answer.txHash.value in chain.receipts ==>
               chain.receipts[answer.txHash.value].block >= d.minedBlocks
    requires job.jobId == base.jobId && job.commitment == base.commitment && job.status.Reconciling?
    ensures DispatchOk(cfg, chain, job, d.(answer := answer))
  {
    hide Captured;
  }

  // ------------------------------------------------------------------ every step of every run

  lemma IntakeKeepsDocs(cfg: Config, s: State, pid: nat)
    requires DocInv(cfg, s) && pid in s.procs && s.procs[pid].IntakeSave?
    ensures DocInv(cfg, Set(s.(store := Save(s.store, s.procs[pid].job)), pid, Stop))
  {
    hide DocInv, Set, StoredOk, CallOk;
    var job := s.procs[pid].job;
    assert Newborn(cfg, job) by { IntakeIsNewborn(cfg, s, pid); }
    NewbornIsOk(cfg, s, pid, job);
    WriteAndMoveOn(cfg, s, s.(store := Save(s.store, job)), pid, job, Stop);
  }

  lemma IntakeIsNewborn(cfg: Config, s: State, pid: nat)
    requires DocInv(cfg, s) && pid in s.procs && s.procs[pid].IntakeSave?
    ensures Newborn(cfg, s.procs[pid].job)
  {
    hide StoredOk, Newborn, HolderOk;
    assert CallOk(cfg, s, pid, s.procs[pid]);
  }

  lemma AdvanceKeepsDocs(cfg: Config, s: State, pid: nat, o: Observation)
    requires DocInv(cfg, s) && pid in s.procs && Fair(cfg, s, Advance(pid, o))
    ensures DocInv(cfg, AdvanceProc(cfg, s, pid, o))
  {
    hide DocInv, Read, Cas, ClaimStep, SaveStep, IssueStep, AnswerStep, Local, Set, AnswerIsNew, ClosingRead;
    var p := s.procs[pid];
    match p
    case Start(op) => ReadKeepsDocs(cfg, s, pid, op, o.now);
    case IntakeSave(job) => IntakeKeepsDocs(cfg, s, pid);
    case Casing(_, _, _, _, _) => CasKeepsDocs(cfg, s, pid, o.now);
    case Claiming(_, _, _) => ClaimKeepsDocs(cfg, s, pid);
    case Saving(_, _) => SaveKeepsDocs(cfg, s, pid);
    case Issuing(_, _) => IssueKeepsDocs(cfg, s, pid);
    case Awaiting(_, _) => AnswerKeepsDocs(cfg, s, pid, o.answer, o.now);
    case _ => LocalKeepsDocs(cfg, s, pid, o);
  }

  lemma HolderGrows(cfg: Config, s: State, s': State, pid: nat, p: Proc, k: nat)
    requires Grew(s, s') && Holds(p) && HolderOk(cfg, s, pid, p, k)
    ensures HolderOk(cfg, s', pid, p, k)
  {
    hide DocOk, ProcOk, DispatchOk, Extends, ChainFor;
    DocGrows(cfg, ChainOf(s, p.base), ChainOf(s', p.base), s.log, p.base, k);
    ProcOkGrows(cfg, Alone(s, pid, p.base, k), Alone(s', pid, p.base, k), pid, p);
    if p.Casing? && PastDispatch(p.next.status) {
      DispatchGrows(cfg, ChainOf(s, p.base), ChainOf(s', p.base), p.next, s.log[k]);
    }
    if p.Awaiting? { DispatchGrows(cfg, ChainOf(s, p.base), ChainOf(s', p.base), p.base, s.log[k]); }
  }

  lemma GrowthKeepsDocs(cfg: Config, s: State, s': State)
    requires DocInv(cfg, s) && Grew(s, s')
    ensures DocInv(cfg, s')
  {
    hide DocOk, HolderOk, Newborn, Extends, ChainFor;
    forall j | j in s'.store.jobs ensures StoredOk(cfg, s', s'.store.jobs[j]) {
      var job := s.store.jobs[j];
      var k: nat :| DocOk(cfg, ChainOf(s, job), s.log, job, k);
      DocGrows(cfg, ChainOf(s, job), ChainOf(s', job), s.log, job, k);
    }
    forall q | q in s'.procs ensures CallOk(cfg, s', q, s'.procs[q]) {
      var p := s.procs[q];
      if Holds(p) {
        var k: nat :| HolderOk(cfg, s, q, p, k);
        HolderGrows(cfg, s, s', q, p, k);
      }
    }
  }

  lemma SpawnKeepsDocs(cfg: Config, s: State, op: Op)
    requires DocInv(cfg, s)
    ensures DocInv(cfg, Do(cfg, s, Spawn(op)))
  {
    hide AdvanceProc, CallOk, StoredOk;
    var s' := Do(cfg, s, Spawn(op));
    forall j | j in s'.store.jobs
      ensures StoredOk(cfg, s', s'.store.jobs[j])
    {
      StoredKept(cfg, s, s', s.store.jobs[j]);
    }
    forall q | q in s'.procs ensures CallOk(cfg, s', q, s'.procs[q]) {
      if q == s.nextPid { SpawnedOk(cfg, s', q, op); } else { CallKept(cfg, s, s', q, s.procs[q]); }
    }
  }

  lemma SpawnedOk(cfg: Config, s: State, pid: nat, op: Op)
    ensures CallOk(cfg, s, pid, Start(op))
  {
  }

  lemma DoKeepsDocs(cfg: Config, s: State, step: Step)
    requires DocInv(cfg, s) && Fair(cfg, s, step)
    ensures DocInv(cfg, Do(cfg, s, step))
  {
    hide DocInv, AdvanceProc, Set, Grew;
    match step
    case Spawn(op) => SpawnKeepsDocs(cfg, s, op);
    case Crash(pid) =>
      MoveOn(cfg, s, pid, Stop);
      assert Do(cfg, s, step) == Set(s, pid, Stop) by { CrashIsStop(cfg, s, pid); }
    case Mine(id, block, receipts) => MineGrows(cfg, s, id, block, receipts); GrowthKeepsDocs(cfg, s, Do(cfg, s, step));
    case Advance(pid, o) => if pid in s.procs { AdvanceKeepsDocs(cfg, s, pid, o); }
  }

  /** Every run, stale intake writes included. */
  lemma {:induction false} RunKeepsDocs(cfg: Config, steps: seq<Step>)
    requires IsRun(cfg, steps)
    ensures DocInv(cfg, Run(cfg, steps))
  {
    hide Do, StoredOk, CallOk, Fair;
    if steps != [] {
      var front := steps[..|steps| - 1];
      RunKeepsDocs(cfg, front);
      DoKeepsDocs(cfg, Run(cfg, front), steps[|steps| - 1]);
    }
  }

  // ------------------------------------------------------------------ what that means for a stored job

  lemma StoredDocument(cfg: Config, steps: seq<Step>, j: JobId) returns (k: nat)
    requires IsRun(cfg, steps) && j in Run(cfg, steps).store.jobs
    ensures var s := Run(cfg, steps);
            s.store.jobs[j].jobId == j && DocOk(cfg, ChainOf(s, s.store.jobs[j]), s.log, s.store.jobs[j], k)
  {
    hide Run, CallOk, DocOk;
    RunKeepsDocs(cfg, steps);
    var s := Run(cfg, steps);
    assert StoredOk(cfg, s, s.store.jobs[j]);
    k :| DocOk(cfg, ChainOf(s, s.store.jobs[j]), s.log, s.store.jobs[j], k);
  }

  /** In every run the stored commitment hash recomputes. */
  lemma CommitmentHashRecomputes(cfg: Config, steps: seq<Step>, j: JobId)
    requires IsRun(cfg, steps) && j in Run(cfg, steps).store.jobs
    ensures var job := Run(cfg, steps).store.jobs[j];
            job.jobId == j && job.commitmentHash == cfg.commitmentHash(job.commitment)
  {
    hide Run, RecordShape, Bound, ChainFacts, DispatchOk;
    var k := StoredDocument(cfg, steps, j);
  }

  /**
   * In every run a stored EXECUTING or UNKNOWN_RECONCILING job has no transaction hash, so reconciling one always stops
   * at the report and never takes the step that would move it to RECONCILING.
   */
  lemma ExecutingHasNoTransaction(cfg: Config, steps: seq<Step>, j: JobId, now: Timestamp)
    requires IsRun(cfg, steps) && j in Run(cfg, steps).store.jobs
    requires Run(cfg, steps).store.jobs[j].status.Executing? || Run(cfg, steps).store.jobs[j].status.UnknownReconciling?
    ensures var job := Run(cfg, steps).store.jobs[j];
            job.execution.Some? && job.execution.value.transactionHash.None? && ReconcileStart(job, now).Stop?
  {
    hide Run, Bound, ChainFacts, DispatchOk;
    var k := StoredDocument(cfg, steps, j);
  }
}
