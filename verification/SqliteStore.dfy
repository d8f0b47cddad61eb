/** The SQLite store: rows, `MAX(seq) + 1`, and transactions that roll back when any of their statements throws. */
module SqliteStore {
  import opened Jobs
  import opened JobStore
  import opened StateMachine
  import opened Tables
  import opened Wrappers

  lemma NumberedNone(jobId: JobId, events: seq<Event>, first: int)
    ensures Numbered(jobId, events[..0], first) == []
  {
  }

  lemma NumberedGrows(jobId: JobId, events: seq<Event>, i: nat, first: int)
    requires i < |events|
    ensures Numbered(jobId, events[..i + 1], first) ==
              Numbered(jobId, events[..i], first) + [EventRow(jobId, first + i, events[i])]
  {
  }

  class SqliteFulfillmentJobStore {
    var jobRows: map<JobId, JobRow>
    var eventRows: seq<EventRow>
    var claimRows: map<Digest, Claim>

    ghost function Rows(): Db
      reads this
    {
      Db(jobRows, eventRows, claimRows)
    }

    constructor ()
      ensures Represents(Rows(), EMPTY)
    {
      jobRows, eventRows, claimRows := map[], [], map[];
    }

    method Save(job: Job)
      modifies this
      ensures forall s :: old(Represents(Rows(), s)) ==> Represents(Rows(), JobStore.Save(s, job))
    {
      ghost var before := Rows();
      jobRows := Upsert(jobRows, job);
      forall s | Represents(before, s)
        ensures Represents(Rows(), JobStore.Save(s, job))
      {
        UpsertSaves(before, s, job);
      }
    }

    method Get(jobId: JobId) returns (job: Option<Job>)
      ensures forall s :: Represents(Rows(), s) ==> job == if jobId in s.jobs then Some(s.jobs[jobId]) else None
    {
      job := if jobId in jobRows then Some(jobRows[jobId].job) else None;
    }

    method GetEvents(jobId: JobId) returns (events: seq<Event>)
      ensures forall s :: Represents(Rows(), s) ==> events == EventsOf(s, jobId)
    {
      events := ReadEvents(eventRows, jobId);
      forall s | Represents(Rows(), s) ensures events == EventsOf(s, jobId) { ReadersSeeTheLog(Rows(), s, jobId); }
    }

    /** How many inserts get through when statement `failAt` throws: the SELECT is statement 0. */
    static function Inserted(events: seq<Event>, failAt: Option<nat>): (n: nat)
      ensures n <= |events|
    {
      if failAt.None? || failAt.value > |events| then |events| else if failAt.value == 0 then 0 else failAt.value - 1
    }

    /** Statement 0 reads the highest number, statement `k + 1` inserts event `k`; the one named by `failAt` throws. */
    method AppendEventsSync(jobId: JobId, events: seq<Event>, failAt: Option<nat>) returns (thrown: bool)
      modifies this`eventRows
      ensures thrown <==> failAt.Some? && failAt.value <= |events|
      ensures eventRows ==
                old(eventRows) +
                Numbered(jobId, events[..Inserted(events, failAt)], MaxNumber(old(eventRows), jobId) + 1)
    {
      hide Numbered, MaxNumber;
      NumberedNone(jobId, events, MaxNumber(eventRows, jobId) + 1);
      if failAt == Some(0) {
        return true;
      }
      ghost var first := MaxNumber(eventRows, jobId) + 1;
      var nextSeq := MaxNumber(eventRows, jobId) + 1;
      for i := 0 to |events|
        invariant failAt.Some? ==> i < failAt.value
        invariant nextSeq == first + i
        invariant eventRows == old(eventRows) + Numbered(jobId, events[..i], first)
      {
        if failAt == Some(i + 1) {
          return true;
        }
        NumberedGrows(jobId, events, i, first);
        eventRows := eventRows + [EventRow(jobId, nextSeq, events[i])];
        nextSeq := nextSeq + 1;
      }
      thrown := false;
    }

    /** Outside a transaction nothing is taken back: a throw keeps the events inserted before it. */
    method AppendEvents(jobId: JobId, events: seq<Event>, failAt: Option<nat>) returns (thrown: bool)
      modifies this
      ensures thrown <==> failAt.Some? && failAt.value <= |events|
      ensures forall s :: old(Represents(Rows(), s)) ==>
                Represents(Rows(), JobStore.AppendEvents(s, jobId, events[..Inserted(events, failAt)]))
    {
      ghost var before := Rows();
      thrown := AppendEventsSync(jobId, events, failAt);
      ghost var written := events[..Inserted(events, failAt)];
      forall s | Represents(before, s) ensures Represents(Rows(), JobStore.AppendEvents(s, jobId, written)) {
        InsertsAppend(before, s, jobId, written);
      }
    }

    /** ROLLBACK gives back the tables as BEGIN found them, which is the database's own promise. */
    method Rollback(atBegin: Db)
      modifies this
      ensures Rows() == atBegin
    {
      jobRows, eventRows, claimRows := atBegin.jobs, atBegin.events, atBegin.claims;
    }

    /** The writing statements of a transaction: 0 is the upsert, the rest are those of `AppendEventsSync`. */
    method WriteInTransaction(job: Job, events: seq<Event>, failAt: Option<nat>) returns (thrown: bool)
      modifies this`jobRows, this`eventRows
      ensures thrown <==> failAt.Some? && failAt.value <= |events| + 1
      ensures !thrown ==> jobRows == Upsert(old(jobRows), job)
      ensures !thrown ==>
          eventRows == old(eventRows) + Numbered(job.jobId, events, MaxNumber(old(eventRows), job.jobId) + 1)
    {
      if failAt == Some(0) {
        return true;
      }
      jobRows := Upsert(jobRows, job);
      thrown := AppendEventsSync(job.jobId, events, if failAt.Some? then Some(failAt.value - 1) else None);
      assert events[..|events|] == events;
    }

    /** Statement 0 is BEGIN, the last one COMMIT; whichever throws, nothing stays written. */
    method SaveJobAndEvents(job: Job, events: seq<Event>, failAt: Option<nat>) returns (thrown: bool)
      modifies this
      ensures thrown <==> failAt.Some? && failAt.value <= |events| + 3
      ensures thrown ==> Rows() == old(Rows())
      ensures !thrown ==> forall s :: old(Represents(Rows(), s)) ==>
          Represents(Rows(), JobStore.SaveJobAndEvents(s, job, events))
    {
      hide Represents, JobStore.SaveJobAndEvents, Upsert, Numbered, MaxNumber;
      if failAt == Some(0) {
        return true;
      }
      var atBegin := Db(jobRows, eventRows, claimRows);
      thrown := WriteInTransaction(job, events, if failAt.Some? then Some(failAt.value - 1) else None);
      if thrown || failAt == Some(|events| + 3) {
        Rollback(atBegin);
        return true;
      }
      forall s | Represents(atBegin, s) ensures Represents(Rows(), JobStore.SaveJobAndEvents(s, job, events)) {
        WriteAndInserts(atBegin, s, job, events);
      }
    }

    /**
     * Statement 0 is BEGIN, 1 the SELECT of the status, and the last one COMMIT, unless the status is another and the
     * transaction is rolled back at once. Absent when a statement threw and nothing stayed written.
     */
    method SaveWithCas(job: Job, events: seq<Event>, expected: Option<Status>, failAt: Option<nat>)
      returns (r: Option<CasResult>)
      modifies this
      ensures r.None? ==> Rows() == old(Rows())
      ensures r.None? <==> failAt.Some? &&
                           (failAt.value <= 1 ||
                            (old(StatusColumn(jobRows, job.jobId)) == expected && failAt.value <= |events| + 4))
      ensures r.Some? ==> forall s :: old(Represents(Rows(), s)) ==>
                var (s', result) := JobStore.SaveWithCas(s, job, events, expected);
                Represents(Rows(), s') && r.value == result
    {
      hide Represents, JobStore.SaveJobAndEvents, Upsert, Numbered, MaxNumber, StatusColumn;
      if failAt == Some(0) {
        return None;
      }
      var atBegin := Db(jobRows, eventRows, claimRows);
      if failAt == Some(1) {
        Rollback(atBegin);
        return None;
      }
      var actual := StatusColumn(jobRows, job.jobId);
      forall s | Represents(atBegin, s) ensures actual == StatusOf(s, job.jobId) {
        StatusColumnIsStatus(atBegin, s, job.jobId);
      }
      if actual != expected {
        Rollback(atBegin);
        return Some(Conflict(actual));
      }
      var thrown := WriteInTransaction(job, events, if failAt.Some? then Some(failAt.value - 2) else None);
      if thrown || failAt == Some(|events| + 4) {
        Rollback(atBegin);
        return None;
      }
      forall s | Represents(atBegin, s) ensures Represents(Rows(), JobStore.SaveJobAndEvents(s, job, events)) {
        WriteAndInserts(atBegin, s, job, events);
      }
      r := Some(Saved);
    }

    /** The primary key refuses a second row for a request; the holder is then read back. */
    method TryClaimExecution(request: Digest, jobId: JobId, actor: string) returns (r: ClaimResult)
      modifies this
      ensures forall s :: old(Represents(Rows(), s)) ==>
                var (s', result) := TryClaim(s, request, jobId, actor); Represents(Rows(), s') && r == result
    {
      var violated := request in claimRows;
      if !violated {
        claimRows := claimRows[request := Claim(jobId, actor)];
        r := Claimed;
      } else {
        r := AlreadyClaimed(claimRows[request].jobId);
      }
    }
  }
}
