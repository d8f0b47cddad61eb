/** The three SQL tables behind both database stores, and what it means for them to hold an abstract store. */
module Tables {
  import opened Jobs
  import opened JobStore
  import opened StateMachine
  import opened Wrappers

  datatype JobRow = JobRow(job: Job, status: Status, revision: nat)

  /** Rows in insertion order; nothing in the schema makes `(jobId, number)` unique. */
  datatype EventRow = EventRow(jobId: JobId, number: int, event: Event)

  datatype Db = Db(jobs: map<JobId, JobRow>, events: seq<EventRow>, claims: map<Digest, Claim>)

  const NO_ROWS := Db(map[], [], map[])

  // ------------------------------------------------------------------ statements

  function Upsert(rows: map<JobId, JobRow>, job: Job): map<JobId, JobRow> {
    rows[job.jobId := JobRow(job, job.status, if job.jobId in rows then rows[job.jobId].revision + 1 else 0)]
  }

  function StatusColumn(rows: map<JobId, JobRow>, jobId: JobId): Option<Status> {
    if jobId in rows then Some(rows[jobId].status) else None
  }

  /** The rows of one job, in insertion order. */
  function RowsOf(rows: seq<EventRow>, jobId: JobId): (r: seq<EventRow>)
    ensures forall i :: 0 <= i < |r| ==> r[i].jobId == jobId
  {
    if rows == [] then []
    else
      var front, last := rows[..|rows| - 1], rows[|rows| - 1];
      RowsOf(front, jobId) + (if last.jobId == jobId then [last] else [])
  }

  /** `COALESCE(MAX(seq), -1)` over the rows of one job. */
  function MaxNumber(rows: seq<EventRow>, jobId: JobId): int {
    if rows == [] then -1
    else
      var front, last := rows[..|rows| - 1], rows[|rows| - 1];
      var m := MaxNumber(front, jobId);
      if last.jobId == jobId && (m < last.number || RowsOf(front, jobId) == []) then last.number else m
  }

  function InsertByNumber(row: EventRow, sorted: seq<EventRow>): seq<EventRow> {
    if sorted == [] || row.number < sorted[0].number then [row] + sorted
    else [sorted[0]] + InsertByNumber(row, sorted[1..])
  }

  /** `ORDER BY seq ASC`. */
  function ByNumber(rows: seq<EventRow>): seq<EventRow> {
    if rows == [] then [] else InsertByNumber(rows[|rows| - 1], ByNumber(rows[..|rows| - 1]))
  }

  function EventsIn(rows: seq<EventRow>): (r: seq<Event>)
    ensures |r| == |rows|
  {
    seq(|rows|, i requires 0 <= i < |rows| => rows[i].event)
  }

  /** What a reader of a job's events gets. */
  function ReadEvents(rows: seq<EventRow>, jobId: JobId): seq<Event> {
    EventsIn(ByNumber(RowsOf(rows, jobId)))
  }

  /** The rows a run of inserts adds, numbered upward from `first`. */
  function Numbered(jobId: JobId, events: seq<Event>, first: int): seq<EventRow> {
    seq(|events|, i requires 0 <= i < |events| => EventRow(jobId, first + i, events[i]))
  }

  // ------------------------------------------------------------------ what tables hold

  /** Numbered 0, 1, 2, … without gap or repetition. */
  ghost predicate Dense(rows: seq<EventRow>) {
    forall i :: 0 <= i < |rows| ==> rows[i].number == i
  }

  /** The tables hold the abstract store, the status column is the document's own status, and numbering is dense. */
  ghost predicate Represents(db: Db, s: Store) {
    && db.jobs.Keys == s.jobs.Keys
    && (forall j :: j in db.jobs ==> db.jobs[j].job == s.jobs[j] && db.jobs[j].status == s.jobs[j].status)
    && (forall j :: Dense(RowsOf(db.events, j)) && EventsIn(RowsOf(db.events, j)) == EventsOf(s, j))
    && db.claims == s.claims
  }

  lemma {:induction false} RowsOfSplits(xs: seq<EventRow>, ys: seq<EventRow>, jobId: JobId)
    ensures RowsOf(xs + ys, jobId) == RowsOf(xs, jobId) + RowsOf(ys, jobId)
  {
    if ys == [] {
      assert xs + ys == xs;
    } else {
      var front := ys[..|ys| - 1];
      assert (xs + ys)[..|xs + ys| - 1] == xs + front;
      RowsOfSplits(xs, front, jobId);
    }
  }

  lemma {:induction false} RowsOfOwn(rows: seq<EventRow>, owner: JobId, jobId: JobId)
    requires forall i :: 0 <= i < |rows| ==> rows[i].jobId == owner
    ensures RowsOf(rows, jobId) == if jobId == owner then rows else []
  {
    if rows != [] { RowsOfOwn(rows[..|rows| - 1], owner, jobId); }
  }

  /** While numbering is dense, the next number is the count. */
  lemma {:induction false} NextNumberIsCount(rows: seq<EventRow>, jobId: JobId)
    requires Dense(RowsOf(rows, jobId))
    ensures MaxNumber(rows, jobId) + 1 == |RowsOf(rows, jobId)|
  {
    if rows != [] {
      var front, last := rows[..|rows| - 1], rows[|rows| - 1];
      var before := RowsOf(front, jobId);
      assert forall i :: 0 <= i < |before| ==> before[i] == RowsOf(rows, jobId)[i];
      NextNumberIsCount(front, jobId);
      if last.jobId == jobId { assert RowsOf(rows, jobId)[|before|] == last; }
    }
  }

  lemma {:induction false} InsertLast(row: EventRow, sorted: seq<EventRow>)
    requires forall i :: 0 <= i < |sorted| ==> sorted[i].number < row.number
    ensures InsertByNumber(row, sorted) == sorted + [row]
  {
    if sorted != [] { InsertLast(row, sorted[1..]); }
  }

  /** Dense rows are read back in the order they were written. */
  lemma {:induction false} DenseReadsBack(rows: seq<EventRow>)
    requires Dense(rows)
    ensures ByNumber(rows) == rows
  {
    if rows != [] {
      DenseReadsBack(rows[..|rows| - 1]);
      InsertLast(rows[|rows| - 1], rows[..|rows| - 1]);
    }
  }

  /** A reader of represented tables gets exactly the abstract event log. */
  lemma ReadersSeeTheLog(db: Db, s: Store, jobId: JobId)
    requires Represents(db, s)
    ensures ReadEvents(db.events, jobId) == EventsOf(s, jobId)
  {
    DenseReadsBack(RowsOf(db.events, jobId));
  }

  lemma StatusColumnIsStatus(db: Db, s: Store, jobId: JobId)
    requires Represents(db, s)
    ensures StatusColumn(db.jobs, jobId) == StatusOf(s, jobId)
  {
  }

  lemma UpsertSaves(db: Db, s: Store, job: Job)
    requires Represents(db, s)
    ensures Represents(db.(jobs := Upsert(db.jobs, job)), Save(s, job))
  {
    var db', s' := db.(jobs := Upsert(db.jobs, job)), Save(s, job);
    forall j ensures EventsIn(RowsOf(db'.events, j)) == EventsOf(s', j) {
      assert EventsOf(s', j) == EventsOf(s, j);
    }
  }

  lemma InsertedRows(rows: seq<EventRow>, jobId: JobId, events: seq<Event>, j: JobId)
    requires Dense(RowsOf(rows, jobId)) && Dense(RowsOf(rows, j))
    ensures var all := rows + Numbered(jobId, events, MaxNumber(rows, jobId) + 1);
            && Dense(RowsOf(all, j))
            && EventsIn(RowsOf(all, j)) == EventsIn(RowsOf(rows, j)) + (if j == jobId then events else [])
  {
    hide MaxNumber, RowsOf;
    NextNumberIsCount(rows, jobId);
    var more := Numbered(jobId, events, MaxNumber(rows, jobId) + 1);
    RowsOfSplits(rows, more, j);
    RowsOfOwn(more, jobId, j);
  }

  /** Inserting events numbered from the next free number appends them to the log. */
  lemma InsertsAppend(db: Db, s: Store, jobId: JobId, events: seq<Event>)
    requires Represents(db, s)
    ensures var rows := Numbered(jobId, events, MaxNumber(db.events, jobId) + 1);
            Represents(db.(events := db.events + rows), AppendEvents(s, jobId, events))
  {
    hide MaxNumber, RowsOf, Numbered, EventsIn, Dense;
    var rows := Numbered(jobId, events, MaxNumber(db.events, jobId) + 1);
    var s' := AppendEvents(s, jobId, events);
    forall j ensures Dense(RowsOf(db.events + rows, j)) && EventsIn(RowsOf(db.events + rows, j)) == EventsOf(s', j) {
      assert Dense(RowsOf(db.events, jobId)) && Dense(RowsOf(db.events, j));
      InsertedRows(db.events, jobId, events, j);
    }
  }

  /** The job write and its inserts together are the abstract save with events. */
  lemma WriteAndInserts(db: Db, s: Store, job: Job, events: seq<Event>)
    requires Represents(db, s)
    ensures Represents(Db(Upsert(db.jobs, job),
                          db.events + Numbered(job.jobId, events, MaxNumber(db.events, job.jobId) + 1), db.claims),
                       SaveJobAndEvents(s, job, events))
  {
    hide Represents;
    UpsertSaves(db, s, job);
    InsertsAppend(db.(jobs := Upsert(db.jobs, job)), Save(s, job), job.jobId, events);
  }
}
