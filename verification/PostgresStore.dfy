/**
 * The Postgres store: transactions of several statements at READ COMMITTED, interleaved statement by statement. Writing
 * the job row takes its lock; the event numbers are read afterwards, while the lock is held. A transaction may also be
 * rolled back at any point.
 */
module PostgresStore {
  import opened Jobs
  import opened JobStore
  import opened StateMachine
  import opened Tables
  import opened Wrappers

  /** `save` and `saveJobAndEvents` upsert; `saveWithCas` updates on a matching status, or inserts if none may exist. */
  datatype Request =
    | Put(job: Job, events: seq<Event>)
    | CasPut(job: Job, events: seq<Event>, expected: Option<Status>)

  /**
   * Where a transaction stands; `row` and `inserted` are its own writes, not yet visible to others. A lost
   * compare-and-set keeps its place in the history, and how long the history was when it asked for the actual status.
   */
  datatype Tx =
    | Pending(request: Request)
    | Wrote(request: Request, row: JobRow)
    | Numbering(request: Request, row: JobRow, inserted: seq<EventRow>, nextSeq: int)
    | Lost(request: Request, at: nat)
    | Conflicted(request: Request, at: nat, asked: nat, actual: Option<Status>)
    | Finished

  datatype Entry = Entry(request: Request, saved: bool)

  /** The committed tables, the transactions, who holds each job row's lock, and the history of outcomes. */
  datatype State = State(db: Db, txs: map<nat, Tx>, locks: map<JobId, nat>, history: seq<Entry>)

  const START := State(NO_ROWS, map[], map[], [])

  datatype Step =
    | Begin(tx: nat, request: Request)
    | WriteRow(tx: nat)
    | Lose(tx: nat)
    | ReadMax(tx: nat)
    | InsertEvent(tx: nat)
    | Commit(tx: nat)
    | Rollback(tx: nat)
    | SelectActual(tx: nat)

  function Holds(t: Tx): bool {
    t.Wrote? || t.Numbering?
  }

  /** The row the first statement writes, once it may: for a compare-and-set, the status must match. */
  function RowFor(db: Db, request: Request): Option<JobRow> {
    match request
    case Put(job, _) => Some(Upsert(db.jobs, job)[job.jobId])
    case CasPut(job, _, expected) =>
      if StatusColumn(db.jobs, job.jobId) == expected then Some(Upsert(db.jobs, job)[job.jobId]) else None
  }

  function Move(s: State, tx: nat, t: Tx): State {
    s.(txs := s.txs[tx := t])
  }

  function DoWrite(s: State, tx: nat, request: Request): State {
    match RowFor(s.db, request)
    case Some(row) =>
      if request.job.jobId in s.locks then s
      else Move(s, tx, Wrote(request, row)).(locks := s.locks[request.job.jobId := tx])
    case None => s
  }

  /** No committed row matches: the statement returns no row, and the transaction goes on to read the actual status. */
  function DoLose(s: State, tx: nat, request: Request): State {
    if RowFor(s.db, request).None? then
      Move(s, tx, Lost(request, |s.history|)).(history := s.history + [Entry(request, false)])
    else s
  }

  function DoSelect(s: State, tx: nat, t: Tx): State
    requires t.Lost?
  {
    Move(s, tx, Conflicted(t.request, t.at, |s.history|, StatusColumn(s.db.jobs, t.request.job.jobId)))
  }

  function DoInsert(s: State, tx: nat, t: Tx): State
    requires t.Numbering?
  {
    var k := |t.inserted|;
    if k < |t.request.events| then
      Move(s, tx,
           t.(inserted := t.inserted + [EventRow(t.request.job.jobId, t.nextSeq, t.request.events[k])],
              nextSeq := t.nextSeq + 1))
    else s
  }

  function Publish(s: State, tx: nat, t: Tx, inserted: seq<EventRow>): State
    requires Holds(t)
  {
    var j := t.request.job.jobId;
    State(s.db.(jobs := s.db.jobs[j := t.row], events := s.db.events + inserted), s.txs[tx := Finished], s.locks - {j},
          s.history + [Entry(t.request, true)])
  }

  function DoCommit(s: State, tx: nat, t: Tx): State {
    if t.Wrote? && t.request.events == [] then Publish(s, tx, t, [])
    else if t.Numbering? && |t.inserted| == |t.request.events| then Publish(s, tx, t, t.inserted)
    else s
  }

  function DoRollback(s: State, tx: nat, t: Tx): State {
    if t.Pending? then Move(s, tx, Finished)
    else if Holds(t) then Move(s, tx, Finished).(locks := s.locks - {t.request.job.jobId})
    else s
  }

  function Do(s: State, step: Step): State {
    if step.Begin? then (if step.tx in s.txs then s else Move(s, step.tx, Pending(step.request)))
    else if step.tx !in s.txs then s
    else
      var t := s.txs[step.tx];
      match step
      case WriteRow(tx) => if t.Pending? then DoWrite(s, tx, t.request) else s
      case Lose(tx) => if t.Pending? then DoLose(s, tx, t.request) else s
      case ReadMax(tx) =>
        if t.Wrote? then Move(s, tx, Numbering(t.request, t.row, [], MaxNumber(s.db.events, t.request.job.jobId) + 1))
        else s
      case InsertEvent(tx) => if t.Numbering? then DoInsert(s, tx, t) else s
      case Commit(tx) => DoCommit(s, tx, t)
      case Rollback(tx) => DoRollback(s, tx, t)
      case SelectActual(tx) => if t.Lost? then DoSelect(s, tx, t) else s
      case Begin(_, _) => s
  }

  function Run(steps: seq<Step>): State {
    if steps == [] then START else Do(Run(steps[..|steps| - 1]), steps[|steps| - 1])
  }

  // ------------------------------------------------------------------ the abstract store behind a history

  /** What the abstract store does with a request. */
  function Apply(s: Store, request: Request): (Store, CasResult) {
    match request
    case Put(job, events) => (SaveJobAndEvents(s, job, events), Saved)
    case CasPut(job, events, expected) => SaveWithCas(s, job, events, expected)
  }

  function Replay(history: seq<Entry>): Store {
    if history == [] then EMPTY else Apply(Replay(history[..|history| - 1]), history[|history| - 1].request).0
  }

  /** Every outcome is the one the abstract store gives at that point. */
  ghost predicate Faithful(history: seq<Entry>) {
    forall i :: 0 <= i < |history| ==> history[i].saved == Apply(Replay(history[..i]), history[i].request).1.Saved?
  }

  // ------------------------------------------------------------------ the invariant

  /** What a transaction that holds a lock has seen and written. */
  ghost predicate HolderOk(s: State, tx: nat, t: Tx)
    requires Holds(t)
  {
    var j := t.request.job.jobId;
    && j in s.locks && s.locks[j] == tx
    && RowFor(s.db, t.request) == Some(t.row)
    && (t.Numbering? ==>
          var first := MaxNumber(s.db.events, j) + 1;
          && |t.inserted| <= |t.request.events|
          && t.inserted == Numbered(j, t.request.events[..|t.inserted|], first) && t.nextSeq == first + |t.inserted|)
  }

  ghost predicate Inv(s: State) {
    && Represents(s.db, Replay(s.history)) && Faithful(s.history)
    && (forall tx :: tx in s.txs && Holds(s.txs[tx]) ==> HolderOk(s, tx, s.txs[tx]))
    && (forall j :: j in s.locks ==>
          s.locks[j] in s.txs && Holds(s.txs[s.locks[j]]) && s.txs[s.locks[j]].request.job.jobId == j)
  }

  lemma ReplayMore(history: seq<Entry>, e: Entry)
    ensures Replay(history + [e]) == Apply(Replay(history), e.request).0
    ensures Faithful(history) && e.saved == Apply(Replay(history), e.request).1.Saved? ==> Faithful(history + [e])
  {
    hide Apply;
    var more := history + [e];
    assert more[..|history|] == history;
    if Faithful(history) && e.saved == Apply(Replay(history), e.request).1.Saved? {
      forall i | 0 <= i < |more| ensures more[i].saved == Apply(Replay(more[..i]), more[i].request).1.Saved? {
        if i < |history| { assert more[..i] == history[..i]; }
      }
    }
  }

  /** Other transactions keep their footing when one that does not hold their lock moves. */
  lemma HolderKept(s: State, s': State, tx: nat, t: Tx)
    requires Holds(t) && HolderOk(s, tx, t)
    requires var j := t.request.job.jobId;
             && j in s'.locks && s'.locks[j] == tx
             && (j in s'.db.jobs <==> j in s.db.jobs) && (j in s.db.jobs ==> s'.db.jobs[j] == s.db.jobs[j])
             && MaxNumber(s'.db.events, j) == MaxNumber(s.db.events, j)
    ensures HolderOk(s', tx, t)
  {
  }

  lemma {:induction false} OthersMax(rows: seq<EventRow>, more: seq<EventRow>, owner: JobId, j: JobId)
    requires j != owner && forall i :: 0 <= i < |more| ==> more[i].jobId == owner
    ensures MaxNumber(rows + more, j) == MaxNumber(rows, j)
  {
    if more == [] {
      assert rows + more == rows;
    } else {
      assert (rows + more)[..|rows + more| - 1] == rows + more[..|more| - 1];
      OthersMax(rows, more[..|more| - 1], owner, j);
    }
  }

  /** A step that changes one transaction and nothing that is committed. */
  lemma PrivateStep(s: State, s': State, tx: nat)
    requires Inv(s) && s'.db == s.db && s'.history == s.history
    requires forall q :: q in s'.txs && q != tx ==> q in s.txs && s'.txs[q] == s.txs[q]
    requires forall q :: q in s.txs && q != tx ==> q in s'.txs
    requires tx in s'.txs && (Holds(s'.txs[tx]) ==> HolderOk(s', tx, s'.txs[tx]))
    requires forall j :: j in s'.locks && s'.locks[j] != tx <==> j in s.locks && s.locks[j] != tx
    requires forall j :: j in s'.locks && s'.locks[j] != tx ==> s'.locks[j] == s.locks[j]
    requires forall j :: j in s'.locks && s'.locks[j] == tx ==> Holds(s'.txs[tx]) && s'.txs[tx].request.job.jobId == j
    ensures Inv(s')
  {
    hide Represents, Faithful, HolderOk;
    forall q | q in s'.txs && Holds(s'.txs[q]) ensures HolderOk(s', q, s'.txs[q]) {
      if q != tx {
        HolderLock(s, q, s.txs[q]);
        HolderKept(s, s', q, s.txs[q]);
      }
    }
  }

  lemma HolderLock(s: State, tx: nat, t: Tx)
    requires Holds(t) && HolderOk(s, tx, t)
    ensures t.request.job.jobId in s.locks && s.locks[t.request.job.jobId] == tx
  {
  }

  lemma WriteKeeps(s: State, tx: nat)
    requires Inv(s) && tx in s.txs && s.txs[tx].Pending?
    ensures Inv(DoWrite(s, tx, s.txs[tx].request))
  {
    hide Represents, Faithful, MaxNumber, Inv, RowFor;
    var s' := DoWrite(s, tx, s.txs[tx].request);
    if s' != s {
      NoLock(s, tx);
      PrivateStep(s, s', tx);
    }
  }

  lemma NoLock(s: State, tx: nat)
    requires Inv(s) && tx in s.txs && !Holds(s.txs[tx])
    ensures forall j :: j in s.locks ==> s.locks[j] != tx
  {
    hide Represents, Faithful, HolderOk;
  }

  lemma OwnLock(s: State, tx: nat)
    requires Inv(s) && tx in s.txs && Holds(s.txs[tx])
    ensures HolderOk(s, tx, s.txs[tx]) && Represents(s.db, Replay(s.history))
    ensures forall j :: j in s.locks && s.locks[j] == tx ==> j == s.txs[tx].request.job.jobId
  {
    hide Represents, Faithful;
  }

  lemma NumberKeeps(s: State, tx: nat)
    requires Inv(s) && tx in s.txs && s.txs[tx].Wrote?
    ensures var t := s.txs[tx];
            Inv(Move(s, tx, Numbering(t.request, t.row, [], MaxNumber(s.db.events, t.request.job.jobId) + 1)))
  {
    hide Inv, Represents, MaxNumber, RowFor;
    OwnLock(s, tx);
    var t := s.txs[tx];
    PrivateStep(s, Move(s, tx, Numbering(t.request, t.row, [], MaxNumber(s.db.events, t.request.job.jobId) + 1)), tx);
  }

  lemma InsertKeeps(s: State, tx: nat)
    requires Inv(s) && tx in s.txs && s.txs[tx].Numbering?
    ensures Inv(DoInsert(s, tx, s.txs[tx]))
  {
    hide Inv, Represents, MaxNumber, RowFor;
    OwnLock(s, tx);
    var t := s.txs[tx];
    var k := |t.inserted|;
    if k < |t.request.events| {
      assert t.request.events[..k + 1][..k] == t.request.events[..k];
      PrivateStep(s, DoInsert(s, tx, t), tx);
    }
  }

  lemma LoseKeeps(s: State, tx: nat)
    requires Inv(s) && tx in s.txs && s.txs[tx].Pending?
    ensures Inv(DoLose(s, tx, s.txs[tx].request))
  {
    hide Represents, Inv, MaxNumber, Faithful;
    var r := s.txs[tx].request;
    if RowFor(s.db, r).None? {
      NoLock(s, tx);
      PrivateStep(s, Move(s, tx, Lost(r, |s.history|)), tx);
      InvParts(s);
      StatusColumnIsStatus(s.db, Replay(s.history), r.job.jobId);
      assert Apply(Replay(s.history), r).0 == Replay(s.history) && !Apply(Replay(s.history), r).1.Saved?;
      ReplayMore(s.history, Entry(r, false));
      HistoryOnly(Move(s, tx, Lost(r, |s.history|)), s.history + [Entry(r, false)]);
    }
  }

  lemma InvParts(s: State)
    requires Inv(s)
    ensures Represents(s.db, Replay(s.history)) && Faithful(s.history)
  {
    hide Represents, Faithful, HolderOk;
  }

  lemma HistoryOnly(s: State, history: seq<Entry>)
    requires Inv(s) && Replay(history) == Replay(s.history) && Faithful(history)
    ensures Inv(s.(history := history))
  {
    hide Represents, Faithful, RowFor, MaxNumber;
  }

  /** Publishing a holder's writes is the abstract operation. */
  lemma PublishIsApply(s: State, tx: nat, t: Tx, inserted: seq<EventRow>)
    requires Holds(t) && HolderOk(s, tx, t) && Represents(s.db, Replay(s.history))
    requires inserted ==
               Numbered(t.request.job.jobId, t.request.events, MaxNumber(s.db.events, t.request.job.jobId) + 1)
    ensures Apply(Replay(s.history), t.request).1.Saved?
    ensures Represents(Publish(s, tx, t, inserted).db, Apply(Replay(s.history), t.request).0)
  {
    hide Represents, MaxNumber, Numbered, SaveJobAndEvents;
    var r, store := t.request, Replay(s.history);
    StatusColumnIsStatus(s.db, store, r.job.jobId);
    WriteAndInserts(s.db, store, r.job, r.events);
    assert s.db.jobs[r.job.jobId := t.row] == Upsert(s.db.jobs, r.job);
  }

  lemma PublishKeeps(s: State, tx: nat, inserted: seq<EventRow>)
    requires Inv(s) && tx in s.txs && Holds(s.txs[tx])
    requires var r := s.txs[tx].request; inserted == Numbered(r.job.jobId, r.events,
                                                              MaxNumber(s.db.events, r.job.jobId) + 1)
    ensures Inv(Publish(s, tx, s.txs[tx], inserted))
  {
    hide Represents, Faithful, MaxNumber, Apply, HolderOk;
    var t, s' := s.txs[tx], Publish(s, tx, s.txs[tx], inserted);
    var j := t.request.job.jobId;
    PublishIsApply(s, tx, t, inserted);
    ReplayMore(s.history, Entry(t.request, true));
    HolderLock(s, tx, t);
    forall q | q in s'.txs && Holds(s'.txs[q]) ensures HolderOk(s', q, s'.txs[q]) {
      HolderLock(s, q, s.txs[q]);
      OthersMax(s.db.events, inserted, j, s.txs[q].request.job.jobId);
      HolderKept(s, s', q, s.txs[q]);
    }
  }

  lemma CommitKeeps(s: State, tx: nat)
    requires Inv(s) && tx in s.txs
    ensures Inv(DoCommit(s, tx, s.txs[tx]))
  {
    hide Inv, Represents, MaxNumber, RowFor, Publish;
    var t := s.txs[tx];
    if Holds(t) {
      OwnLock(s, tx);
      if t.Wrote? && t.request.events == [] {
        PublishKeeps(s, tx, []);
      } else if t.Numbering? && |t.inserted| == |t.request.events| {
        assert t.request.events[..|t.inserted|] == t.request.events;
        PublishKeeps(s, tx, t.inserted);
      }
    }
  }

  lemma RollbackKeeps(s: State, tx: nat)
    requires Inv(s) && tx in s.txs
    ensures Inv(DoRollback(s, tx, s.txs[tx]))
  {
    hide Inv, Represents, MaxNumber, HolderOk;
    var t := s.txs[tx];
    if t.Pending? {
      NoLock(s, tx);
      PrivateStep(s, DoRollback(s, tx, t), tx);
    } else if Holds(t) {
      OwnLock(s, tx);
      HolderLock(s, tx, t);
      PrivateStep(s, DoRollback(s, tx, t), tx);
    }
  }

  lemma DoKeeps(s: State, step: Step)
    requires Inv(s)
    ensures Inv(Do(s, step))
  {
    hide Inv, DoWrite, DoLose, DoInsert, DoCommit, DoRollback, MaxNumber, HolderOk;
    if step.Begin? {
      if step.tx !in s.txs { BeginKeeps(s, step.tx, step.request); }
    } else if step.tx in s.txs {
      var t := s.txs[step.tx];
      match step
      case WriteRow(tx) => if t.Pending? { WriteKeeps(s, tx); }
      case Lose(tx) => if t.Pending? { LoseKeeps(s, tx); }
      case ReadMax(tx) => if t.Wrote? { NumberKeeps(s, tx); }
      case InsertEvent(tx) => if t.Numbering? { InsertKeeps(s, tx); }
      case Commit(tx) => CommitKeeps(s, tx);
      case Rollback(tx) => RollbackKeeps(s, tx);
      case SelectActual(tx) =>
        if t.Lost? {
          NoLock(s, tx);
          PrivateStep(s, DoSelect(s, tx, t), tx);
        }
      case Begin(_, _) =>
    }
  }

  lemma BeginKeeps(s: State, tx: nat, request: Request)
    requires Inv(s) && tx !in s.txs
    ensures Inv(Move(s, tx, Pending(request)))
  {
    hide Represents, Faithful, HolderOk;
    var s' := Move(s, tx, Pending(request));
    forall q | q in s'.txs && Holds(s'.txs[q]) ensures HolderOk(s', q, s'.txs[q]) {
      HolderLock(s, q, s.txs[q]);
      HolderKept(s, s', q, s.txs[q]);
    }
  }

  /**
   * Refinement, over every interleaving with rollbacks anywhere: the committed tables hold exactly the abstract store
   * that the outcomes, taken one after another in commit order, produce, and every outcome is the abstract one. In
   * particular each job's events are numbered 0, 1, 2, … and the status column is the document's status.
   */
  lemma {:induction false} PostgresRefines(steps: seq<Step>)
    ensures Represents(Run(steps).db, Replay(Run(steps).history)) && Faithful(Run(steps).history)
    ensures Inv(Run(steps))
  {
    hide Do, HolderOk;
    if steps != [] {
      PostgresRefines(steps[..|steps| - 1]);
      DoKeeps(Run(steps[..|steps| - 1]), steps[|steps| - 1]);
    }
  }

  // ------------------------------------------------------------------ one winner

  lemma ApplyStatus(s: Store, request: Request, j: JobId)
    ensures var (s', r) := Apply(s, request);
            StatusOf(s', j) == if r.Saved? && request.job.jobId == j then Some(request.job.status) else StatusOf(s, j)
  {
  }

  /** Unless a saved entry of the job in between has the status, the stored status does not become it. */
  lemma {:induction false} StatusStays(history: seq<Entry>, i: nat, k: nat, j: JobId, st: Option<Status>)
    requires Faithful(history) && i <= k <= |history| && StatusOf(Replay(history[..i]), j) != st
    requires forall m :: i <= m < k && history[m].saved && history[m].request.job.jobId == j ==>
        Some(history[m].request.job.status) != st
    ensures StatusOf(Replay(history[..k]), j) != st
  {
    hide Apply, StatusOf;
    if i < k {
      StatusStays(history, i, k - 1, j, st);
      ApplyStatus(Replay(history[..k - 1]), history[k - 1].request, j);
      assert history[..k][..k - 1] == history[..k - 1];
      assert history[k - 1].saved == Apply(Replay(history[..k - 1]), history[k - 1].request).1.Saved?;
    }
  }

  /** The status the last saved entry of a job wrote. */
  function LastWritten(history: seq<Entry>, j: JobId): Option<Status> {
    if history == [] then None
    else
      var last := history[|history| - 1];
      if last.saved && last.request.job.jobId == j then Some(last.request.job.status)
      else LastWritten(history[..|history| - 1], j)
  }

  lemma {:induction false} StatusFollowsWrites(history: seq<Entry>, i: nat, k: nat, j: JobId)
    requires Faithful(history) && i <= k <= |history|
    ensures var last := LastWritten(history[i..k], j);
            StatusOf(Replay(history[..k]), j) == if last.Some? then last else StatusOf(Replay(history[..i]), j)
  {
    hide Apply, StatusOf;
    if i < k {
      StatusFollowsWrites(history, i, k - 1, j);
      ApplyStatus(Replay(history[..k - 1]), history[k - 1].request, j);
      assert history[..k][..k - 1] == history[..k - 1];
      assert history[i..k][..k - i - 1] == history[i..k - 1];
      assert history[k - 1].saved == Apply(Replay(history[..k - 1]), history[k - 1].request).1.Saved?;
    }
  }

  lemma {:induction false} NothingWritten(history: seq<Entry>, j: JobId)
    ensures LastWritten(history, j).None? <==>
            forall m :: 0 <= m < |history| && history[m].saved ==> history[m].request.job.jobId != j
  {
    if history != [] {
      NothingWritten(history[..|history| - 1], j);
      assert forall m :: 0 <= m < |history| - 1 ==> history[m] == history[..|history| - 1][m];
    }
  }

  /**
   * Two compare-and-sets of one job from the same status. The first wins exactly when the job is at that status; once
   * it has won, the second wins exactly when the last write from then on, the first one's own included, left the job at
   * that status. So where the first moves the job on and nothing else writes it, exactly the first wins.
   */
  lemma OneWinner(steps: seq<Step>, i: nat, k: nat)
    requires i < k < |Run(steps).history|
    requires var a, b := Run(steps).history[i].request, Run(steps).history[k].request;
             a.CasPut? && b.CasPut? && a.job.jobId == b.job.jobId && a.expected == b.expected
    ensures var h := Run(steps).history;
            var j, st, last := h[i].request.job.jobId, h[i].request.expected,
                               LastWritten(h[i..k], h[i].request.job.jobId);
            && (h[i].saved <==> StatusOf(Replay(h[..i]), j) == st)
            && (h[i].saved ==> last.Some? && (h[k].saved <==> last == st))
            && (h[i].saved && h[k].saved ==>
                  exists m :: i <= m < k && h[m].saved && h[m].request.job.jobId == j &&
                              Some(h[m].request.job.status) == st)
  {
    hide Run, Inv, Replay, StatusOf;
    PostgresRefines(steps);
    var h := Run(steps).history;
    var j := h[i].request.job.jobId;
    assert h[i].saved == Apply(Replay(h[..i]), h[i].request).1.Saved?;
    assert h[k].saved == Apply(Replay(h[..k]), h[k].request).1.Saved?;
    StatusFollowsWrites(h, i, k, j);
    if h[i].saved {
      assert h[i..k][0] == h[i];
      NothingWritten(h[i..k], j);
      var m := LastWriter(h[i..k], j);
      assert h[i..k][m] == h[i + m];
    }
  }

  lemma {:induction false} LastWriter(history: seq<Entry>, j: JobId) returns (m: nat)
    requires LastWritten(history, j).Some?
    ensures m < |history| && history[m].saved && history[m].request.job.jobId == j
    ensures Some(history[m].request.job.status) == LastWritten(history, j)
  {
    var last := history[|history| - 1];
    if last.saved && last.request.job.jobId == j {
      m := |history| - 1;
    } else {
      m := LastWriter(history[..|history| - 1], j);
    }
  }

  // ------------------------------------------------------------------ what a loser is told

  /** A loser's place in the history, and the status it was told: the abstract one at the moment it asked. */
  ghost predicate ToldOk(history: seq<Entry>, t: Tx) {
    && (t.Lost? || t.Conflicted? ==> t.at < |history| && history[t.at] == Entry(t.request, false))
    && (t.Conflicted? ==>
          t.at < t.asked <= |history| && t.actual == StatusOf(Replay(history[..t.asked]), t.request.job.jobId))
  }

  lemma ToldLater(history: seq<Entry>, more: seq<Entry>, t: Tx)
    requires ToldOk(history, t) && history <= more
    ensures ToldOk(more, t)
  {
    if t.Conflicted? { assert more[..t.asked] == history[..t.asked]; }
  }

  lemma StepLogs(s: State, step: Step)
    ensures s.history <= Do(s, step).history
  {
    hide RowFor, MaxNumber;
  }

  lemma StepTells(s: State, step: Step, tx: nat)
    requires Inv(s) && tx in Do(s, step).txs && (tx in s.txs ==> ToldOk(s.history, s.txs[tx]))
    ensures ToldOk(Do(s, step).history, Do(s, step).txs[tx])
  {
    hide Inv, RowFor, MaxNumber, Represents, StatusOf, StatusColumn, Replay;
    StepLogs(s, step);
    var s' := Do(s, step);
    if tx in s.txs && s'.txs[tx] == s.txs[tx] {
      ToldLater(s.history, s'.history, s.txs[tx]);
    } else if s'.txs[tx].Conflicted? {
      InvParts(s);
      StatusColumnIsStatus(s.db, Replay(s.history), s'.txs[tx].request.job.jobId);
      assert s'.history[..|s.history|] == s.history;
    }
  }

  lemma {:induction false} RunTells(steps: seq<Step>, tx: nat)
    requires tx in Run(steps).txs
    ensures ToldOk(Run(steps).history, Run(steps).txs[tx])
  {
    hide Do, Inv, ToldOk;
    if steps != [] {
      var front, last := steps[..|steps| - 1], steps[|steps| - 1];
      PostgresRefines(front);
      if tx in Run(front).txs { RunTells(front, tx); }
      StepTells(Run(front), last, tx);
    }
  }

  /**
   * A losing compare-and-set is told the status at its later SELECT. That is the abstract outcome, the status it lost
   * to, exactly when no write of the job was committed in between or the last one put that status back; and it is told
   * the very status it expected exactly when the last such write put the job there.
   */
  lemma LoserIsToldExactlyWhen(steps: seq<Step>, tx: nat)
    requires tx in Run(steps).txs && Run(steps).txs[tx].Conflicted?
    ensures var h, t := Run(steps).history, Run(steps).txs[tx];
            && t.at < t.asked <= |h| && h[t.at] == Entry(t.request, false) && t.request.CasPut?
            && var lostTo, last := StatusOf(Replay(h[..t.at]), t.request.job.jobId),
                                   LastWritten(h[t.at..t.asked], t.request.job.jobId);
               && Apply(Replay(h[..t.at]), t.request).1 == Conflict(lostTo) && lostTo != t.request.expected
               && (t.actual == lostTo <==> last.None? || last == lostTo)
               && (t.actual == t.request.expected <==> last.Some? && last == t.request.expected)
  {
    hide Run, Inv, Represents, StatusOf, Replay;
    PostgresRefines(steps);
    RunTells(steps, tx);
    var h, t := Run(steps).history, Run(steps).txs[tx];
    assert h[t.at].saved == Apply(Replay(h[..t.at]), t.request).1.Saved?;
    StatusFollowsWrites(h, t.at, t.asked, t.request.job.jobId);
  }

  /** With no committed write of the job between losing and asking, the loser is told what it lost to. */
  lemma UndisturbedLoserIsTold(steps: seq<Step>, tx: nat)
    requires tx in Run(steps).txs && Run(steps).txs[tx].Conflicted?
    requires var h, t := Run(steps).history, Run(steps).txs[tx];
             forall m :: t.at <= m < t.asked && m < |h| && h[m].saved ==> h[m].request.job.jobId != t.request.job.jobId
    ensures var h, t := Run(steps).history, Run(steps).txs[tx];
            t.at <= |h| && Apply(Replay(h[..t.at]), t.request).1 == Conflict(t.actual)
  {
    hide Run, StatusOf, Replay, Apply;
    LoserIsToldExactlyWhen(steps, tx);
    var h, t := Run(steps).history, Run(steps).txs[tx];
    NothingWritten(h[t.at..t.asked], t.request.job.jobId);
  }

  lemma RunMore(steps: seq<Step>, step: Step)
    ensures Run(steps + [step]) == Do(Run(steps), step)
  {
    hide Do;
    assert (steps + [step])[..|steps|] == steps;
  }

  /** One transaction that writes a job without events, start to finish. */
  lemma WritesThrough(steps: seq<Step>, tx: nat, request: Request)
    requires tx !in Run(steps).txs && request.events == [] && request.job.jobId !in Run(steps).locks
    requires RowFor(Run(steps).db, request).Some?
    ensures var s, s' := Run(steps), Run(steps + [Begin(tx, request)] + [WriteRow(tx)] + [Commit(tx)]);
            && StatusColumn(s'.db.jobs, request.job.jobId) == Some(request.job.status)
            && s'.locks == s.locks && s'.txs == s.txs[tx := Finished]
  {
    hide Run, MaxNumber;
    var s := Run(steps);
    RunMore(steps, Begin(tx, request));
    RunMore(steps + [Begin(tx, request)], WriteRow(tx));
    RunMore(steps + [Begin(tx, request)] + [WriteRow(tx)], Commit(tx));
    var row := RowFor(s.db, request).value;
    assert Do(Do(s, Begin(tx, request)), WriteRow(tx)).txs[tx] == Wrote(request, row);
    assert row.status == request.job.status;
  }

  /**
   * It does happen: a job is ARMED, a compare-and-set that expects AWAITING_APPROVAL loses, another one takes the job
   * from ARMED to AWAITING_APPROVAL, and the loser is then told AWAITING_APPROVAL, the status it expected.
   */
  lemma LoserToldWhatItExpected(armed: Job, gated: Job, next: Job)
    requires armed.jobId == gated.jobId == next.jobId && armed.status.Armed? && gated.status.AwaitingApproval?
    ensures exists steps :: 1 in Run(steps).txs && Run(steps).txs[1].Conflicted? &&
                            Run(steps).txs[1].request == CasPut(next, [], Some(AwaitingApproval)) &&
                            Run(steps).txs[1].actual == Some(AwaitingApproval)
  {
    hide Run, MaxNumber;
    assert Run([]) == START by { EmptyRun(); }
    WritesThrough([], 0, Put(armed, []));
    var losing, winning := CasPut(next, [], Some(AwaitingApproval)), CasPut(gated, [], Some(Armed));
    var first := [] + [Begin(0, Put(armed, []))] + [WriteRow(0)] + [Commit(0)];
    RunMore(first, Begin(1, losing));
    RunMore(first + [Begin(1, losing)], Lose(1));
    var lost := first + [Begin(1, losing)] + [Lose(1)];
    assert Run(lost).txs[1].Lost? && Run(lost).txs[1].request == losing;
    WritesThrough(lost, 2, winning);
    var won := lost + [Begin(2, winning)] + [WriteRow(2)] + [Commit(2)];
    RunMore(won, SelectActual(1));
    assert Run(won + [SelectActual(1)]).txs[1].actual == Some(AwaitingApproval);
  }

  lemma EmptyRun()
    ensures Run([]) == START
  {
  }

  /** What a transaction has written is invisible until it commits; rolling back leaves no trace of job or events. */
  lemma OnlyCommitPublishes(s: State, step: Step)
    ensures !step.Commit? ==> Do(s, step).db == s.db
    ensures Do(s, step).db != s.db ==>
              && step.tx in s.txs && Holds(s.txs[step.tx])
              && Do(s, step).db.jobs == s.db.jobs[s.txs[step.tx].request.job.jobId := s.txs[step.tx].row]
              && |Do(s, step).db.events| == |s.db.events| + |s.txs[step.tx].request.events|
  {
    hide MaxNumber, RowFor;
  }

  // ------------------------------------------------------------------ the revision column

  function CommittedWrites(history: seq<Entry>, j: JobId): nat {
    if history == [] then 0
    else
      var last := history[|history| - 1];
      CommittedWrites(history[..|history| - 1], j) + if last.saved && last.request.job.jobId == j then 1 else 0
  }

  /** A job's row counts its committed writes from 0, and there is no row before the first. */
  ghost predicate Counted(s: State, j: JobId) {
    var n := CommittedWrites(s.history, j);
    (j in s.db.jobs <==> n > 0) && (n > 0 ==> s.db.jobs[j].revision == n - 1)
  }

  lemma StepCounts(s: State, step: Step, j: JobId)
    requires Inv(s) && Counted(s, j)
    ensures Counted(Do(s, step), j)
  {
    hide Inv, Represents, MaxNumber, Faithful, Replay;
    var s' := Do(s, step);
    if s'.history != s.history { assert s'.history[..|s.history|] == s.history; }
    if step.Commit? && step.tx in s.txs && Holds(s.txs[step.tx]) { OwnLock(s, step.tx); }
  }

  /** In every interleaving the revision is the number of the job's committed writes, less one: no write is lost. */
  lemma {:induction false} RevisionCountsWrites(steps: seq<Step>, j: JobId)
    ensures var n := CommittedWrites(Run(steps).history, j);
            && (j in Run(steps).db.jobs <==> n > 0)
            && (n > 0 ==> Run(steps).db.jobs[j].revision == n - 1)
  {
    hide Do, Inv;
    if steps != [] {
      PostgresRefines(steps[..|steps| - 1]);
      RevisionCountsWrites(steps[..|steps| - 1], j);
      StepCounts(Run(steps[..|steps| - 1]), steps[|steps| - 1], j);
    }
  }
}
