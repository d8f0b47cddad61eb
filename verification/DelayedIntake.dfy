/** The get-then-save intake at work: a run in which a delayed first intake resets an armed job. */
module DelayedIntake {
  import opened Governor
  import opened Jobs
  import opened JobStore
  import opened Protocol
  import opened Reachable
  import opened StateMachine
  import opened Wrappers

  /** Any commitment under any hash functions, and what the chain shows of its proposal. */
  datatype Scenario = Scenario(cfg: Config, jobId: JobId, commitment: Commitment, actor: string, view: ProposalView) {
    /** Intake is two awaits, and the bundle the chain shows is the one the commitment froze. */
    ghost predicate Frozen() {
      !cfg.atomicCreation &&
      cfg.authorizationHash(AuthorizationOf(commitment, view.actions)) == commitment.frozenAuthorization
    }

    function Shown(): Block {
      Block(0, map[KeyOf(commitment) := view], map[])
    }

    function Looking(): Proc {
      Start(Intake(jobId, commitment))
    }

    function Arming(): Op {
      Arm(jobId, actor)
    }

    function Fresh(): Job {
      CreateReviewReadyJob(jobId, commitment, cfg.commitmentHash(commitment), 0)
    }

    function Armed(): Job {
      Fresh().(status := StateMachine.Armed)
    }

    function ArmedEvent(): Event {
      Event(EventKind.ArmedEvent, actor, None, 0, ReviewReady, StateMachine.Armed, cfg.commitmentHash(commitment))
    }

    function Pending(): Proc {
      Casing(Fresh(), Armed(), [ArmedEvent()], [ReviewReady, StateMachine.Armed], Finish)
    }

    function Holding(job: Job, events: seq<Event>): Store {
      Store(map[jobId := job], map[jobId := events], map[])
    }

    function Started(store: Store, procs: map<nat, Proc>, next: nat): State {
      State(store, map[commitment.chainId := Chain([Shown()], map[])], procs, next, [], map[], map[], map[])
    }

    /** Two intakes look before either writes; the second writes and its job is armed. */
    function Delayed(): seq<Step> {
      [Mine(commitment.chainId, Shown(), map[]),
       Spawn(Intake(jobId, commitment)),
       Spawn(Intake(jobId, commitment)),
       Advance(0, SEEN),
       Advance(1, SEEN),
       Advance(1, SEEN),
       Spawn(Arming()),
       Advance(2, SEEN),
       Advance(2, SEEN),
       Advance(2, SEEN)]
    }

    /** The state after the first `i` steps. */
    function At(i: nat): State {
      match i
      case 0 => INIT
      case 1 => Started(EMPTY, map[], 0)
      case 2 => Started(EMPTY, map[0 := Looking()], 1)
      case 3 => Started(EMPTY, map[0 := Looking(), 1 := Looking()], 2)
      case 4 => Started(EMPTY, map[0 := IntakeSave(Fresh()), 1 := Looking()], 2)
      case 5 => Started(EMPTY, map[0 := IntakeSave(Fresh()), 1 := IntakeSave(Fresh())], 2)
      case 6 => Started(Holding(Fresh(), []), map[0 := IntakeSave(Fresh())], 2)
      case 7 => Started(Holding(Fresh(), []), map[0 := IntakeSave(Fresh()), 2 := Start(Arming())], 3)
      case 8 => Started(Holding(Fresh(), []), map[0 := IntakeSave(Fresh()), 2 := ArmAuthorization(Fresh(), actor)], 3)
      case 9 => Started(Holding(Fresh(), []), map[0 := IntakeSave(Fresh()), 2 := Pending()], 3)
      case _ => Started(Holding(Armed(), [ArmedEvent()]), map[0 := IntakeSave(Fresh())], 3)
    }
  }

  const SEEN := Observation(0, false, 0, 0, 0, Compatible, Silent)

  lemma TwoIntakesLook(x: Scenario, i: nat)
    requires i < 3
    ensures Do(x.cfg, x.At(i), x.Delayed()[i]) == x.At(i + 1)
  {
    hide AdvanceProc;
    assert MineBlock(Chain([], map[]), x.Shown(), map[]) == Chain([x.Shown()], map[]);
    assert map[0 := x.Looking()][1 := x.Looking()] == map[0 := x.Looking(), 1 := x.Looking()];
  }

  lemma IntakesRead(x: Scenario, i: nat)
    requires x.Frozen() && 3 <= i < 5
    ensures Do(x.cfg, x.At(i), x.Delayed()[i]) == x.At(i + 1)
  {
    hide Local, Cas, ClaimStep, SaveStep, IssueStep, AnswerStep, AfterRead;
    var p := IntakeSave(x.Fresh());
    assert x.At(3).procs[0 := p] == x.At(4).procs && x.At(4).procs[1 := p] == x.At(5).procs;
  }

  lemma SecondWrites(x: Scenario)
    ensures Do(x.cfg, x.At(5), Advance(1, SEEN)) == x.At(6)
  {
    hide Local, Read, Cas, ClaimStep, SaveStep, IssueStep, AnswerStep;
    assert x.At(5).procs - {1} == x.At(6).procs;
    assert Save(EMPTY, x.Fresh()) == x.Holding(x.Fresh(), []);
  }

  lemma ArmReads(x: Scenario, i: nat)
    requires 6 <= i < 8
    ensures Do(x.cfg, x.At(i), x.Delayed()[i]) == x.At(i + 1)
  {
    hide Local, Cas, ClaimStep, SaveStep, IssueStep, AnswerStep;
    assert x.At(7).procs[2 := ArmAuthorization(x.Fresh(), x.actor)] == x.At(8).procs;
  }

  lemma ArmPasses(x: Scenario, chain: Chain)
    requires x.Frozen() && chain == Chain([x.Shown()], map[])
    ensures Local(x.cfg, chain, ArmAuthorization(x.Fresh(), x.actor), SEEN) == Go(x.Pending())
  {
    assert AuthorizationAt(chain, x.commitment, 0) == Some(AuthorizationOf(x.commitment, x.view.actions));
    var hash := x.cfg.commitmentHash(x.commitment);
    assert ArmJob(x.Fresh(), x.commitment, hash, x.commitment.frozenAuthorization, Full, x.actor, 0)
        == Ok(Move(x.Armed(), x.ArmedEvent()));
  }

  lemma ArmChecks(x: Scenario)
    requires x.Frozen()
    ensures Do(x.cfg, x.At(8), Advance(2, SEEN)) == x.At(9)
  {
    hide Local, Read, Cas, ClaimStep, SaveStep, IssueStep, AnswerStep;
    ArmPasses(x, Chain([x.Shown()], map[]));
    assert x.At(8).procs[2 := x.Pending()] == x.At(9).procs;
  }

  lemma ArmWrites(x: Scenario)
    ensures Do(x.cfg, x.At(9), Advance(2, SEEN)) == x.At(10)
  {
    hide Read, Local, ClaimStep, SaveStep, IssueStep, AnswerStep;
    hide SaveWithCas;
    assert x.At(9).procs - {2} == x.At(10).procs;
    ArmIsSaved(x);
  }

  lemma ArmIsSaved(x: Scenario)
    ensures SaveWithCas(x.Holding(x.Fresh(), []), x.Armed(), [x.ArmedEvent()], Some(ReviewReady)) ==
            (x.Holding(x.Armed(), [x.ArmedEvent()]), Saved)
  {
    var was, event := x.Holding(x.Fresh(), []), x.ArmedEvent();
    assert was.jobs[x.jobId := x.Armed()] == map[x.jobId := x.Armed()];
    assert EventsOf(Save(was, x.Armed()), x.jobId) + [event] == [event];
    assert was.events[x.jobId := [event]] == map[x.jobId := [event]];
  }

  /** The state the delayed intake leaves: the job is back at REVIEW_READY, its ARMED event still there. */
  lemma FirstWrites(x: Scenario)
    ensures Do(x.cfg, x.At(10), Advance(0, SEEN)) == x.Started(x.Holding(x.Fresh(), [x.ArmedEvent()]), map[], 3)
  {
    hide Read, Local, Cas, ClaimStep, SaveStep, IssueStep, AnswerStep;
    assert x.At(10).procs - {0} == map[];
    assert map[x.jobId := x.Armed()][x.jobId := x.Fresh()] == map[x.jobId := x.Fresh()];
  }

  lemma AtStep(x: Scenario, i: nat)
    requires x.Frozen() && i < 10
    ensures Do(x.cfg, x.At(i), x.Delayed()[i]) == x.At(i + 1) && Fair(x.cfg, x.At(i), x.Delayed()[i])
  {
    hide Do;
    if i <= 2 { TwoIntakesLook(x, i); }
    else if i <= 4 { IntakesRead(x, i); }
    else if i == 5 { SecondWrites(x); }
    else if i <= 7 { ArmReads(x, i); }
    else if i == 8 { ArmChecks(x); }
    else { ArmWrites(x); }
  }

  /** One step further along a run whose state is known. */
  lemma Next(cfg: Config, steps: seq<Step>, s: State, step: Step)
    requires IsRun(cfg, steps) && Run(cfg, steps) == s && Fair(cfg, s, step)
    ensures IsRun(cfg, steps + [step]) && Run(cfg, steps + [step]) == Do(cfg, s, step)
  {
    hide Do, Fair;
    assert (steps + [step])[..|steps|] == steps;
  }

  lemma {:induction false} DelayedRun(x: Scenario, i: nat)
    requires x.Frozen() && i <= 10
    ensures IsRun(x.cfg, x.Delayed()[..i]) && Run(x.cfg, x.Delayed()[..i]) == x.At(i)
  {
    hide Do, Fair;
    if i > 0 {
      DelayedRun(x, i - 1);
      AtStep(x, i - 1);
      Next(x.cfg, x.Delayed()[..i - 1], x.At(i - 1), x.Delayed()[i - 1]);
      assert x.Delayed()[..i - 1] + [x.Delayed()[i - 1]] == x.Delayed()[..i];
    }
  }

  /**
   * For any hash functions and any commitment whose bundle the chain shows, some run the environment may take ends so:
   * the job is ARMED with one ARMED event, and one step later back at REVIEW_READY with that event still in its log,
   * which no orderly run ever shows.
   */
  lemma DelayedIntakeResetsAnArmedJob(x: Scenario)
    requires x.Frozen()
    ensures var steps, all := x.Delayed(), x.Delayed() + [Advance(0, SEEN)];
            && IsRun(x.cfg, all) && !Orderly(x.cfg, all)
            && Run(x.cfg, steps).store == x.Holding(x.Armed(), [x.ArmedEvent()])
            && Run(x.cfg, all).store == x.Holding(x.Fresh(), [x.ArmedEvent()])
  {
    hide Do, Run, IsRun;
    var steps, all := x.Delayed(), x.Delayed() + [Advance(0, SEEN)];
    DelayedRun(x, 10);
    assert steps[..10] == steps;
    FirstWrites(x);
    Next(x.cfg, steps, x.At(10), Advance(0, SEEN));
    assert all[..|steps|] == steps;
    assert StaleIntake(x.At(10), Advance(0, SEEN));
  }
}
