/** The store every process shares, as three maps and the operations on them. */
module JobStore {
  import opened Wrappers
  import opened StateMachine
  import opened Jobs

  datatype Claim = Claim(jobId: JobId, actor: string)

  datatype Store = Store(jobs: map<JobId, Job>, events: map<JobId, seq<Event>>, claims: map<Digest, Claim>)

  datatype CasResult = Saved | Conflict(actual: Option<Status>)

  datatype ClaimResult = Claimed | AlreadyClaimed(holder: JobId)

  const EMPTY := Store(map[], map[], map[])

  function StatusOf(s: Store, jobId: JobId): Option<Status> {
    if jobId in s.jobs then Some(s.jobs[jobId].status) else None
  }

  function EventsOf(s: Store, jobId: JobId): seq<Event> {
    if jobId in s.events then s.events[jobId] else []
  }

  /** Unconditional upsert; the event log of a known job is untouched. */
  function Save(s: Store, job: Job): Store {
    s.(jobs := s.jobs[job.jobId := job],
       events := if job.jobId in s.events then s.events else s.events[job.jobId := []])
  }

  function AppendEvents(s: Store, jobId: JobId, events: seq<Event>): Store {
    s.(events := s.events[jobId := EventsOf(s, jobId) + events])
  }

  function SaveJobAndEvents(s: Store, job: Job, events: seq<Event>): Store {
    AppendEvents(Save(s, job), job.jobId, events)
  }

  /** Compare-and-set on the stored status; `None` means the job must not exist yet. */
  function SaveWithCas(s: Store, job: Job, events: seq<Event>, expected: Option<Status>): (Store, CasResult) {
    if StatusOf(s, job.jobId) != expected then (s, Conflict(StatusOf(s, job.jobId)))
    else (SaveJobAndEvents(s, job, events), Saved)
  }

  /** Insert-only: the first claimant of a request hash keeps it for ever. */
  function TryClaim(s: Store, request: Digest, jobId: JobId, actor: string): (Store, ClaimResult) {
    if request in s.claims then (s, AlreadyClaimed(s.claims[request].jobId))
    else (s.(claims := s.claims[request := Claim(jobId, actor)]), Claimed)
  }
}
