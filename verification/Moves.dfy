/** A pending write that is legitimate for the stored document leaves a document that is again well formed. */
module Moves {
  import opened Governor
  import opened Jobs
  import opened Protocol
  import opened Invariant

  lemma LogShapeKept(cfg: Config, chain: Chain, log: seq<Dispatch>, issued: map<JobId, nat>, base: Job, next: Job,
                     events: seq<Event>, before: seq<Event>)
    requires LogShape(base, before) && Durable(next.status) && !next.status.ReviewReady?
    requires Legit(cfg, chain, log, issued, base, next, events)
    ensures LogShape(next, before + events)
  {
    hide Bound, Judged, GovernorRead, Pristine;
  }

  lemma RecordShapeKept(cfg: Config, chain: Chain, log: seq<Dispatch>, issued: map<JobId, nat>, base: Job, next: Job,
                        events: seq<Event>)
    requires RecordShape(base) && Durable(next.status) && !next.status.ReviewReady?
    requires Legit(cfg, chain, log, issued, base, next, events)
    ensures RecordShape(next)
  {
    hide GovernorRead, IsArm, IsDisarm, IsApproval;
  }

  lemma BoundKept(cfg: Config, chain: Chain, log: seq<Dispatch>, issued: map<JobId, nat>, base: Job, next: Job,
                  events: seq<Event>)
    requires PastDispatch(next.status) && (PastDispatch(base.status) ==> Bound(log, issued, base))
    requires Legit(cfg, chain, log, issued, base, next, events)
    ensures Bound(log, issued, next)
  {
    hide Judged, GovernorRead, IsArm, IsDisarm, IsApproval;
  }

  lemma ChainFactsKept(cfg: Config, chain: Chain, log: seq<Dispatch>, issued: map<JobId, nat>, base: Job, next: Job,
                       events: seq<Event>)
    requires RecordShape(base) && RecordShape(next) && Durable(next.status) && ChainFacts(cfg, chain, base)
    requires Legit(cfg, chain, log, issued, base, next, events)
    ensures ChainFacts(cfg, chain, next)
  {
    hide Judged, IsArm, IsDisarm, IsApproval, Bound;
    if Terminal(next.status) {
      var b :| GovernorRead(cfg, chain, base, b);
      assert GovernorRead(cfg, chain, next, b);
    }
  }

  lemma RecordOkKept(cfg: Config, chain: Chain, log: seq<Dispatch>, issued: map<JobId, nat>, base: Job, next: Job,
                     events: seq<Event>)
    requires RecordOk(cfg, chain, log, issued, base)
    requires Durable(next.status) && Rank(base.status) < Rank(next.status)
    requires Legit(cfg, chain, log, issued, base, next, events)
    ensures RecordOk(cfg, chain, log, issued, next)
    ensures PastApproval(base.status) ==> PastApproval(next.status)
  {
    hide RecordShape, ChainFacts, Bound, Judged, GovernorRead;
    RecordShapeKept(cfg, chain, log, issued, base, next, events);
    if PastDispatch(next.status) { BoundKept(cfg, chain, log, issued, base, next, events); }
    ChainFactsKept(cfg, chain, log, issued, base, next, events);
  }

  lemma JobOkKept(cfg: Config, chain: Chain, log: seq<Dispatch>, issued: map<JobId, nat>, base: Job, next: Job,
                  events: seq<Event>, before: seq<Event>)
    requires JobOk(cfg, chain, log, issued, base, before)
    requires Durable(next.status) && Rank(base.status) < Rank(next.status)
    requires Legit(cfg, chain, log, issued, base, next, events)
    ensures JobOk(cfg, chain, log, issued, next, before + events)
    ensures PastApproval(base.status) ==> PastApproval(next.status)
  {
    hide RecordOk, LogShape, Legit;
    assert !next.status.ReviewReady?;
    LogShapeKept(cfg, chain, log, issued, base, next, events, before);
    RecordOkKept(cfg, chain, log, issued, base, next, events);
  }
}
