/** The in-memory reference store: three maps changed by its methods. */
module InMemoryStore {
  import opened Jobs
  import opened JobStore
  import opened StateMachine
  import opened Wrappers

  datatype Snapshot = Snapshot(jobs: map<JobId, Job>, events: map<JobId, seq<Event>>)

  class InMemoryFulfillmentJobStore {
    var jobs: map<JobId, Job>
    var events: map<JobId, seq<Event>>
    var claims: map<Digest, Claim>

    ghost function Contents(): Store
      reads this
    {
      Store(jobs, events, claims)
    }

    constructor ()
      ensures Contents() == EMPTY
    {
      jobs, events, claims := map[], map[], map[];
    }

    method Save(job: Job)
      modifies this
      ensures Contents() == JobStore.Save(old(Contents()), job)
    {
      jobs := jobs[job.jobId := job];
      if job.jobId !in events {
        events := events[job.jobId := []];
      }
    }

    method Get(jobId: JobId) returns (job: Option<Job>)
      ensures job == if jobId in Contents().jobs then Some(Contents().jobs[jobId]) else None
    {
      job := if jobId in jobs then Some(jobs[jobId]) else None;
    }

    method AppendEvents(jobId: JobId, newEvents: seq<Event>)
      modifies this
      ensures Contents() == JobStore.AppendEvents(old(Contents()), jobId, newEvents)
    {
      var existing := if jobId in events then events[jobId] else [];
      events := events[jobId := existing + newEvents];
    }

    method GetEvents(jobId: JobId) returns (r: seq<Event>)
      ensures r == EventsOf(Contents(), jobId)
    {
      r := if jobId in events then events[jobId] else [];
    }

    method SaveJobAndEvents(job: Job, newEvents: seq<Event>)
      modifies this
      ensures Contents() == JobStore.SaveJobAndEvents(old(Contents()), job, newEvents)
    {
      Save(job);
      AppendEvents(job.jobId, newEvents);
    }

    method SaveWithCas(job: Job, newEvents: seq<Event>, expected: Option<Status>) returns (r: CasResult)
      modifies this
      ensures (Contents(), r) == JobStore.SaveWithCas(old(Contents()), job, newEvents, expected)
    {
      var current := Get(job.jobId);
      var currentStatus: Option<Status> := None;
      if current.Some? {
        currentStatus := Some(current.value.status);
      }
      if currentStatus != expected {
        return Conflict(currentStatus);
      }
      SaveJobAndEvents(job, newEvents);
      r := Saved;
    }

    method TryClaimExecution(request: Digest, jobId: JobId, actor: string) returns (r: ClaimResult)
      modifies this
      ensures (Contents(), r) == TryClaim(old(Contents()), request, jobId, actor)
    {
      if request in claims {
        return AlreadyClaimed(claims[request].jobId);
      }
      claims := claims[request := Claim(jobId, actor)];
      r := Claimed;
    }

    method ExportSnapshot() returns (r: Snapshot)
      ensures r == Snapshot(Contents().jobs, Contents().events)
    {
      r := Snapshot(jobs, events);
    }

    constructor FromSnapshot(snapshot: Snapshot)
      ensures Contents() == Store(snapshot.jobs, snapshot.events, map[])
    {
      jobs, events, claims := snapshot.jobs, snapshot.events, map[];
    }
  }

  /** A restart from a snapshot gives back the same store exactly when no claim was held; any claim is forgotten. */
  method Restart(store: InMemoryFulfillmentJobStore) returns (restored: InMemoryFulfillmentJobStore)
    ensures fresh(restored)
    ensures restored.Contents() == store.Contents() <==> store.claims == map[]
    ensures forall r, jobId, actor :: TryClaim(restored.Contents(), r, jobId, actor).1.Claimed?
  {
    var snapshot := store.ExportSnapshot();
    restored := new InMemoryFulfillmentJobStore.FromSnapshot(snapshot);
  }
}
