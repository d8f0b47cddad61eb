/**
 * A job really can be MARKED: whatever the hash functions, and for any Governor, proposal and token, a run the
 * environment may take goes from intake to FULFILLED_VERIFIED.
 */
module Reached {
  import opened Abi
  import opened Bundles
  import opened Calldata
  import opened Commitments
  import opened Erc20
  import opened Execution
  import opened Governor
  import opened Intake
  import opened Jobs
  import opened JobStore
  import opened Ledger
  import opened Pipeline
  import opened Protocol
  import opened Reachable
  import opened StateMachine
  import opened Text
  import opened Wrappers

  // ------------------------------------------------------------------ the actors

  const TIMELOCK := "timelock"

  type Account = a: HexAddress | IsHexOf(a, 20) witness "0x0000000000000000000000000000000000000000"

  type Amount = n: nat | n < WORD_LIMIT

  /** The proposal pays an amount of the token from the timelock; intake builds the commitment from it. */
  datatype Scenario = Scenario(cfg: Config, chainId: nat, governor: HexAddress, proposalId: string, token: HexAddress,
                               payee: Account, amount: Amount)
  {
    function Payout(): Action {
      Action(0, token, 0, "transfer(address,uint256)", TransferArguments(payee, amount))
    }

    function Recipient(): HexAddress {
      ToLower(payee)
    }

    function Bundle(): Authorization {
      Authorization(1, chainId, governor, GovernorBravo, proposalId, [Payout()])
    }

    function PayoutBinding(): Binding {
      Binding(0, "erc20-transfer", "1", true,
              [BindingParam("token", token), BindingParam("recipient", Recipient()),
               BindingParam("rawAmount", Decimal(amount))])
    }

    function Reviewed(): Commitment {
      Commitment(1, chainId, governor, GovernorBravo, proposalId, cfg.authorizationHash(Bundle()), [0],
                 [PayoutBinding()], Mode.Approve, "keeperhub-direct-contract-call-v1", "1")
    }

    function Hash(): Digest {
      cfg.commitmentHash(Reviewed())
    }

    function Request(): Digest {
      cfg.requestHash(CallOf(Reviewed()))
    }

    // The chain: the proposal queued, then executed with one payment, then two more blocks.
    function Key(): ProposalKey {
      ProposalKey(ToLower(governor), DecimalValue(proposalId))
    }

    function Holder(): (string, string) {
      (ToLower(token), ToLower(payee))
    }

    function QueuedBlock(): Block {
      Block(0, map[Key() := ProposalView(5, 0, false, false, [Payout()])], map[Holder() := 0])
    }

    function ExecutedBlock(): Block {
      Block(0, map[Key() := ProposalView(7, 0, false, true, [Payout()])], map[Holder() := amount])
    }

    function Payment(): Log {
      Log(token, true, Some(TransferArgs(TIMELOCK, payee, amount)), None)
    }

    function TxReceipts(): map<TxHash, TxReceipt> {
      map["tx" := TxReceipt(1, [Payment()])]
    }

    function Before(): Chain {
      Chain([QueuedBlock()], map[])
    }

    function Included(): Chain {
      Chain([QueuedBlock(), ExecutedBlock()], TxReceipts())
    }

    function After(): Chain {
      Chain([QueuedBlock(), ExecutedBlock(), ExecutedBlock(), ExecutedBlock()], TxReceipts())
    }

    // The job, status by status, and its two events.
    function PreState(): ExecutionState {
      ExecutionState(0, 0, token, Recipient(), amount, None, None, None, None, None)
    }

    function FreshJob(): Job {
      CreateReviewReadyJob("j", Reviewed(), Hash(), 0)
    }

    function ArmedJob(): Job {
      FreshJob().(status := Armed)
    }

    function GatedJob(): Job {
      ArmedJob().(status := AwaitingApproval, execution := Some(PreState()))
    }

    function ExecutingJob(): Job {
      GatedJob().(status := Executing)
    }

    function StampedJob(): Job {
      ExecutingJob().(execution := Some(PreState().(requestHash := Some(Request()))))
    }

    function ReconcilingJob(): Job {
      StampedJob().(status := Reconciling,
                    execution := Some(StampedJob().execution.value.(transactionHash := Some("tx"))))
    }

    function WaitingJob(): Job {
      ReconcilingJob().(status := WaitingFinality,
                        execution := Some(ReconcilingJob().execution.value.(inclusionBlock := Some(1))))
    }

    function FinalJob(): Job {
      WaitingJob().(status := VerifyingGovernorState,
                    execution := Some(WaitingJob().execution.value.(finalityBlock := Some(3))))
    }

    function GovernedJob(): Job {
      FinalJob().(status := VerifyingPostcondition,
                  execution := Some(FinalJob().execution.value.(governorFinalState := Some(7))))
    }

    function ArmingEvent(): Event {
      Event(ArmedEvent, "a", None, 0, ReviewReady, Armed, Hash())
    }

    function ApprovingEvent(): Event {
      Event(ApprovedEvent, "a", None, 0, AwaitingApproval, Executing, Hash())
    }

    function Events(): seq<Event> {
      [ArmingEvent(), ApprovingEvent()]
    }

    function Claims(): map<Digest, Claim> {
      map[Request() := Claim("j", "a")]
    }

    /** Nothing is in flight. */
    function Idle(store: Store, next: nat): State {
      State(store, map[chainId := Before()], map[], next, [], map[], map[], map[])
    }

    /** The call has won the compare-and-set into EXECUTING. */
    function Approved(store: Store, p: Proc): State {
      Idle(store, 4).(procs := map[3 := p], owner := map["j" := 3])
    }

    /** It holds the claim. */
    function Claimed(job: Job, p: Proc): State {
      Approved(Holding(job, Events(), Claims()), p).(claimant := map[Request() := 3])
    }

    function Sending(answer: Answer): Dispatch {
      Dispatch("j", CallOf(Reviewed()), Request(), StampedJob().execution.value, 0, 1, answer)
    }

    /** The call has been sent. */
    function Dispatched(chain: Chain, job: Job, answer: Answer, p: Proc): State {
      State(Holding(job, Events(), Claims()), map[chainId := chain], map[3 := p], 4, [Sending(answer)],
            map[Request() := 3], map["j" := 3], map["j" := 0])
    }
  }

  const SEEN := Observation(0, false, 0, 0, 0, Compatible, Silent)
  const ANSWERED := Answered(Some("tx"))
  const LATER := Observation(0, false, 3, 3, 3, Compatible, ANSWERED)
  const TO_AUTHORIZATION := [Armed, WaitingEligibility] + [Status.Eligible, VerifyingLifecycle, VerifyingAuthorization]
  const TO_PRESTATE := TO_AUTHORIZATION + [CapturingPrestate]
  const TO_SIMULATING := TO_PRESTATE + [Simulating]

  function Holding(job: Job, events: seq<Event>, claims: map<Digest, Claim>): Store {
    Store(map["j" := job], map["j" := events], claims)
  }

  // ------------------------------------------------------------------ getting from state to state

  ghost predicate CanReach(x: Scenario, s: State) {
    exists steps :: Orderly(x.cfg, steps) && Run(x.cfg, steps) == s
  }

  lemma ReachStep(x: Scenario, s: State, step: Step, after: State)
    requires CanReach(x, s) && Fair(x.cfg, s, step) && !StaleIntake(s, step) && Do(x.cfg, s, step) == after
    ensures CanReach(x, after)
  {
    hide Do, Fair, StaleIntake;
    var steps :| Orderly(x.cfg, steps) && Run(x.cfg, steps) == s;
    var more := steps + [step];
    assert more[..|more| - 1] == steps;
    assert Orderly(x.cfg, more) && Run(x.cfg, more) == after;
  }

  lemma ReachSpawn(x: Scenario, s: State, op: Op)
    requires CanReach(x, s) && s.procs == map[]
    ensures CanReach(x, s.(procs := map[s.nextPid := Start(op)], nextPid := s.nextPid + 1))
  {
    hide AdvanceProc, CanReach;
    ReachStep(x, s, Spawn(op), s.(procs := map[s.nextPid := Start(op)], nextPid := s.nextPid + 1));
  }

  lemma ReachMine(x: Scenario, s: State, block: Block, receipts: map<TxHash, TxReceipt>)
    requires CanReach(x, s) && x.chainId in s.chains
    requires var c := s.chains[x.chainId];
             forall t :: t in receipts ==> t !in c.receipts && receipts[t].block == |c.blocks|
    ensures CanReach(x, s.(chains := s.chains[x.chainId := MineBlock(s.chains[x.chainId], block, receipts)]))
  {
    hide AdvanceProc, CanReach;
    ReachStep(x, s, Mine(x.chainId, block, receipts),
              s.(chains := s.chains[x.chainId := MineBlock(s.chains[x.chainId], block, receipts)]));
  }

  lemma Quiet(x: Scenario, s: State, pid: nat, p: Proc, o: Observation)
    requires s.procs == map[pid := p] && !p.Awaiting? && (p.IntakeSave? ==> p.job.jobId !in s.store.jobs)
    requires IsLocal(p) ==> ClosingRead(x.cfg, ChainOf(s, p.base), p, o)
    ensures Fair(x.cfg, s, Advance(pid, o)) && !StaleIntake(s, Advance(pid, o))
  {
  }

  lemma ReachRead(x: Scenario, s: State, pid: nat, op: Op, o: Observation, next: Proc)
    requires CanReach(x, s) && s.procs == map[pid := Start(op)] && !op.Intake? && op.jobId in s.store.jobs
    requires AfterRead(op, s.store.jobs[op.jobId], o.now) == Go(next)
    ensures CanReach(x, s.(procs := map[pid := next]))
  {
    hide Do, CanReach, AfterRead, Fair, StaleIntake;
    Quiet(x, s, pid, Start(op), o);
    StartAdvance(x.cfg, s, pid, op, o);
    assert s.procs[pid := next] == map[pid := next];
    ReachStep(x, s, Advance(pid, o), s.(procs := map[pid := next]));
  }

  lemma ReachLocal(x: Scenario, s: State, pid: nat, p: Proc, o: Observation, next: Proc)
    requires CanReach(x, s) && s.procs == map[pid := p] && IsLocal(p) && ClosingRead(x.cfg, ChainOf(s, p.base), p, o)
    requires Local(x.cfg, ChainOf(s, p.base), p, o) == Go(next)
    ensures CanReach(x, s.(procs := map[pid := next]))
  {
    hide Do, CanReach, Local, Fair, StaleIntake, ChainOf;
    Quiet(x, s, pid, p, o);
    LocalAdvance(x.cfg, s, pid, p, o);
    assert s.procs[pid := next] == map[pid := next];
    ReachStep(x, s, Advance(pid, o), s.(procs := map[pid := next]));
  }

  /** A winning compare-and-set; the call ends, or goes on to `next`. */
  lemma ReachCas(x: Scenario, s: State, pid: nat, p: Proc, o: Observation, next: Outcome)
    requires CanReach(x, s) && s.procs == map[pid := p] && p.Casing?
    requires StatusOf(s.store, p.next.jobId) == Some(p.base.status) && AfterCas(p.next, p.andThen, o.now) == next
    ensures CanReach(x, s.(store := SaveJobAndEvents(s.store, p.next, p.events),
                        owner := if p.next.status.Executing? then s.owner[p.next.jobId := pid] else s.owner,
                        procs := match next case Stop => map[] case Go(q) => map[pid := q]))
  {
    hide Do, CanReach, Fair, StaleIntake, AfterCas, SaveJobAndEvents, StatusOf;
    Quiet(x, s, pid, p, o);
    CasAdvance(x.cfg, s, pid, p, o);
    assert s.procs - {pid} == map[];
    assert next.Go? ==> s.procs[pid := next.proc] == map[pid := next.proc];
    ReachStep(x, s, Advance(pid, o), Cas(s, pid, p, o.now));
  }

  /** The action pays the amount to the payee. */
  lemma ActionPays(x: Scenario)
    ensures TryDecodeTransfer(x.Payout().signature, x.Payout().calldata) == Some(Transfer(x.Recipient(), x.amount))
  {
    hide TryDecodeTransfer, TransferArguments;
    assert TransferArguments(x.payee, x.amount) + [] == x.Payout().calldata;
    TransferRoundTrip(x.payee, x.amount, []);
  }

  lemma KeyIs(x: Scenario)
    ensures KeyOf(x.Reviewed()) == x.Key()
  {
  }

  /** What either chain shows of the proposal. */
  lemma Shows(x: Scenario)
    ensures AuthorizationAt(x.Before(), x.Reviewed(), 0) == Some(AuthorizationOf(x.Reviewed(), [x.Payout()]))
    ensures AuthorizationAt(x.After(), x.Reviewed(), 3) == Some(AuthorizationOf(x.Reviewed(), [x.Payout()]))
    ensures FirstSelected(x.Reviewed(), [x.Payout()]) == Some(x.Payout())
    ensures Protocol.Eligible(x.Before(), x.Reviewed(), SEEN) == Some((EligibleToExecute, 5, false))
    ensures Protocol.Eligible(x.After(), x.Reviewed(), LATER) == Some((AlreadyExecuted, 7, true))
  {
    KeyIs(x);
  }

  lemma SnapshotIs(x: Scenario)
    ensures Snapshot(x.Before(), x.Payout(), 0) == Some(x.PreState())
  {
    hide TryDecodeTransfer, TransferArguments;
    ActionPays(x);
    FoldsCase(x.payee);
  }

  // ------------------------------------------------------------------ up to the approval gate

  lemma Created(x: Scenario)
    ensures CanReach(x, x.Idle(Holding(x.FreshJob(), [], map[]), 1))
  {
    hide CanReach, Cas, ClaimStep, SaveStep, IssueStep, AnswerStep, Local, AfterRead;
    assert CanReach(x, INIT) by { Begins(x); }
    assert MineBlock(ChainFor(INIT.chains, x.chainId), x.QueuedBlock(), map[]) == x.Before();
    ReachStep(x, INIT, Mine(x.chainId, x.QueuedBlock(), map[]), x.Idle(EMPTY, 0));
    ReachSpawn(x, x.Idle(EMPTY, 0), Op.Intake("j", x.Reviewed()));
    var s := x.Idle(EMPTY, 1).(procs := map[0 := Start(Op.Intake("j", x.Reviewed()))]);
    Quiet(x, s, 0, Start(Op.Intake("j", x.Reviewed())), SEEN);
    var s' := x.Idle(EMPTY, 1).(procs := map[0 := IntakeSave(x.FreshJob())]);
    assert s.procs - {0} == map[] && s'.procs - {0} == map[] && s.procs[0 := IntakeSave(x.FreshJob())] == s'.procs;
    if x.cfg.atomicCreation {
      ReachStep(x, s, Advance(0, SEEN), x.Idle(Holding(x.FreshJob(), [], map[]), 1));
    } else {
      ReachStep(x, s, Advance(0, SEEN), s');
      Quiet(x, s', 0, IntakeSave(x.FreshJob()), SEEN);
      ReachStep(x, s', Advance(0, SEEN), x.Idle(Holding(x.FreshJob(), [], map[]), 1));
    }
  }

  lemma Begins(x: Scenario)
    ensures CanReach(x, INIT)
  {
    assert Orderly(x.cfg, []) && Run(x.cfg, []) == INIT;
  }

  lemma SavedAs(x: Scenario, was: Job, events: seq<Event>, claims: map<Digest, Claim>, next: Job, more: seq<Event>)
    requires was.jobId == "j" && next.jobId == "j"
    ensures SaveJobAndEvents(Holding(was, events, claims), next, more) == Holding(next, events + more, claims)
    ensures StatusOf(Holding(was, events, claims), "j") == Some(was.status)
  {
    assert map["j" := was]["j" := next] == map["j" := next];
    assert map["j" := events]["j" := events + more] == map["j" := events + more];
  }

  lemma ArmedIs(x: Scenario)
    ensures CanReach(x, x.Idle(Holding(x.ArmedJob(), [x.ArmingEvent()], map[]), 2))
  {
    hide CanReach, Local, AuthorizationAt, SaveJobAndEvents, StatusOf;
    Created(x);
    Shows(x);
    var s := x.Idle(Holding(x.FreshJob(), [], map[]), 2);
    ReachSpawn(x, x.Idle(Holding(x.FreshJob(), [], map[]), 1), Op.Arm("j", "a"));
    ReachRead(x, s.(procs := map[1 := Start(Op.Arm("j", "a"))]), 1, Op.Arm("j", "a"), SEEN,
              ArmAuthorization(x.FreshJob(), "a"));
    var p := Casing(x.FreshJob(), x.ArmedJob(), [x.ArmingEvent()], [ReviewReady, Armed], Then.Finish);
    ArmIs(x.cfg, x.Before(), x.FreshJob(), "a", SEEN);
    assert Jobs.ArmJob(x.FreshJob(), x.Reviewed(), x.Hash(), x.Reviewed().frozenAuthorization, Full, "a", 0) ==
             Ok(Jobs.Move(x.ArmedJob(), x.ArmingEvent()));
    ReachLocal(x, s.(procs := map[1 := ArmAuthorization(x.FreshJob(), "a")]), 1, ArmAuthorization(x.FreshJob(), "a"),
               SEEN, p);
    SavedAs(x, x.FreshJob(), [], map[], x.ArmedJob(), [x.ArmingEvent()]);
    assert [] + [x.ArmingEvent()] == [x.ArmingEvent()];
    ReachCas(x, s.(procs := map[1 := p]), 1, p, SEEN, Stop);
  }

  lemma FirstOutcomes(x: Scenario)
    ensures PrepareEligibilityStep(x.Before(), x.ArmedJob(), SEEN) ==
              Go(PrepareAuthorization(x.ArmedJob(), TO_AUTHORIZATION))
    ensures PrepareAuthorizationStep(x.cfg, x.Before(), x.ArmedJob(), TO_AUTHORIZATION, SEEN) ==
              Go(PrepareBlock(x.ArmedJob(), TO_PRESTATE, x.Payout()))
  {
    hide AuthorizationAt, FirstSelected, Protocol.Eligible, FinishPrepare;
    Shows(x);
  }

  lemma LaterOutcomes(x: Scenario)
    ensures PrepareBlockStep(x.Before(), x.ArmedJob(), TO_PRESTATE, x.Payout(), SEEN) ==
              Go(PrepareSnapshot(x.ArmedJob(), TO_PRESTATE, x.Payout(), 0))
    ensures PrepareSnapshotStep(x.Before(), x.ArmedJob(), TO_PRESTATE, x.Payout(), 0, SEEN) ==
              Go(PrepareSimulate(x.ArmedJob(), TO_SIMULATING, x.PreState()))
    ensures PrepareSimulateStep(x.ArmedJob(), TO_SIMULATING, x.PreState(), SEEN) ==
              Go(Casing(x.ArmedJob(), x.GatedJob(), [], TO_SIMULATING + [AwaitingApproval], Then.Finish))
  {
    hide Snapshot, TryDecodeTransfer, FinishPrepare;
    SnapshotIs(x);
    ActionPays(x);
    GateIsLegal(x, TO_SIMULATING);
  }

  /** A read of a call on a job of the run's proposal, with nothing else in flight. */
  lemma ReadsOn(x: Scenario, store: Store, next: nat, owner: map<JobId, nat>, pid: nat, p: Proc, q: Proc)
    requires CanReach(x, x.Idle(store, next).(procs := map[pid := p], owner := owner)) &&
             IsLocal(p) && p.base.commitment == x.Reviewed()
    requires Local(x.cfg, x.Before(), p, SEEN) == Go(q)
    ensures CanReach(x, x.Idle(store, next).(procs := map[pid := q], owner := owner))
  {
    hide CanReach, Local;
    ReachLocal(x, x.Idle(store, next).(procs := map[pid := p], owner := owner), pid, p, SEEN, q);
  }

  lemma SimulatedIs(x: Scenario)
    ensures CanReach(x, x.Idle(Holding(x.ArmedJob(), [x.ArmingEvent()], map[]), 3).(
                       procs := map[2 := Casing(x.ArmedJob(), x.GatedJob(), [], TO_SIMULATING + [AwaitingApproval],
                                                Then.Finish)]))
  {
    hide CanReach, Local, PrepareEligibilityStep, PrepareAuthorizationStep, PrepareBlockStep, PrepareSnapshotStep,
      PrepareSimulateStep;
    ArmedIs(x);
    FirstOutcomes(x);
    LaterOutcomes(x);
    var store := Holding(x.ArmedJob(), [x.ArmingEvent()], map[]);
    ReachSpawn(x, x.Idle(store, 2), Op.Prepare("j"));
    ReachRead(x, x.Idle(store, 3).(procs := map[2 := Start(Op.Prepare("j"))]), 2, Op.Prepare("j"), SEEN,
              PrepareEligibility(x.ArmedJob()));
    PrepareEligibilityIs(x.cfg, x.Before(), x.ArmedJob(), SEEN);
    PrepareAuthorizationIs(x.cfg, x.Before(), x.ArmedJob(), TO_AUTHORIZATION, SEEN);
    PrepareBlockIs(x.cfg, x.Before(), x.ArmedJob(), TO_PRESTATE, x.Payout(), SEEN);
    PrepareSnapshotIs(x.cfg, x.Before(), x.ArmedJob(), TO_PRESTATE, x.Payout(), 0, SEEN);
    PrepareSimulateIs(x.cfg, x.Before(), x.ArmedJob(), TO_SIMULATING, x.PreState(), SEEN);
    ReadsOn(x, store, 3, map[], 2, PrepareEligibility(x.ArmedJob()),
            PrepareAuthorization(x.ArmedJob(), TO_AUTHORIZATION));
    ReadsOn(x, store, 3, map[], 2, PrepareAuthorization(x.ArmedJob(), TO_AUTHORIZATION),
            PrepareBlock(x.ArmedJob(), TO_PRESTATE, x.Payout()));
    ReadsOn(x, store, 3, map[], 2, PrepareBlock(x.ArmedJob(), TO_PRESTATE, x.Payout()),
            PrepareSnapshot(x.ArmedJob(), TO_PRESTATE, x.Payout(), 0));
    ReadsOn(x, store, 3, map[], 2, PrepareSnapshot(x.ArmedJob(), TO_PRESTATE, x.Payout(), 0),
            PrepareSimulate(x.ArmedJob(), TO_SIMULATING, x.PreState()));
    ReadsOn(x, store, 3, map[], 2, PrepareSimulate(x.ArmedJob(), TO_SIMULATING, x.PreState()),
          Casing(x.ArmedJob(), x.GatedJob(), [], TO_SIMULATING + [AwaitingApproval], Then.Finish));
  }

  lemma GatedIs(x: Scenario)
    ensures CanReach(x, x.Idle(Holding(x.GatedJob(), [x.ArmingEvent()], map[]), 3))
  {
    hide CanReach, SaveJobAndEvents, StatusOf;
    SimulatedIs(x);
    var p := Casing(x.ArmedJob(), x.GatedJob(), [], TO_SIMULATING + [AwaitingApproval], Then.Finish);
    SavedAs(x, x.ArmedJob(), [x.ArmingEvent()], map[], x.GatedJob(), []);
    assert [x.ArmingEvent()] + [] == [x.ArmingEvent()];
    ReachCas(x, x.Idle(Holding(x.ArmedJob(), [x.ArmingEvent()], map[]), 3).(procs := map[2 := p]), 2, p, SEEN, Stop);
  }

  lemma GateIsLegal(x: Scenario, trail: seq<Status>)
    requires trail != [] && trail[|trail| - 1].Simulating?
    ensures FinishPrepare(x.ArmedJob(), trail, AwaitingApproval, Some(Mode.Approve), Some(x.PreState()), 0) ==
              Go(Casing(x.ArmedJob(), x.GatedJob(), [], trail + [AwaitingApproval], Then.Finish))
  {
  }

  // ------------------------------------------------------------------ approval and dispatch

  lemma ApprovalIs(x: Scenario)
    ensures ApproveSnapshotStep(x.Before(), x.GatedJob(), "a", x.Payout(), 0, 0, SEEN) ==
              Go(Casing(x.GatedJob(), x.ExecutingJob(), [x.ApprovingEvent()], [AwaitingApproval, Executing],
                        ClaimAndDispatch(0, "a")))
  {
    hide Snapshot, TryDecodeTransfer;
    SnapshotIs(x);
    assert Jobs.ApproveJob(x.GatedJob(), x.Hash(), "a", 0) == Ok(Jobs.Move(x.ExecutingJob(), x.ApprovingEvent()));
  }

  lemma ApprovalOutcomes(x: Scenario)
    ensures ApproveAuthorizationStep(x.cfg, x.Before(), x.GatedJob(), "a", SEEN) ==
              Go(ApproveSimulate(x.GatedJob(), "a", [x.Payout()], 0))
    ensures ApproveSimulateStep(x.GatedJob(), "a", [x.Payout()], 0, SEEN) ==
              Go(ApproveBlock(x.GatedJob(), "a", x.Payout(), 0))
  {
    hide AuthorizationAt, FirstSelected;
    Shows(x);
  }

  lemma EligibleIs(x: Scenario)
    ensures Local(x.cfg, x.Before(), ApproveEligibility(x.GatedJob(), "a"), SEEN) ==
              Go(ApproveAuthorization(x.GatedJob(), "a"))
    ensures Local(x.cfg, x.Before(), ApproveBlock(x.GatedJob(), "a", x.Payout(), 0), SEEN) ==
              Go(ApproveSnapshot(x.GatedJob(), "a", x.Payout(), 0, 0))
  {
    hide Local, Protocol.Eligible;
    Shows(x);
    ApproveEligibilityIs(x.cfg, x.Before(), x.GatedJob(), "a", SEEN);
    ApproveBlockIs(x.cfg, x.Before(), x.GatedJob(), "a", x.Payout(), 0, SEEN);
  }

  lemma RevalidatedIs(x: Scenario)
    ensures var p := Casing(x.GatedJob(), x.ExecutingJob(), [x.ApprovingEvent()], [AwaitingApproval, Executing],
                            ClaimAndDispatch(0, "a"));
            CanReach(x, x.Idle(Holding(x.GatedJob(), [x.ArmingEvent()], map[]), 4).(procs := map[3 := p]))
  {
    hide CanReach, Local, ApproveAuthorizationStep, ApproveSimulateStep, ApproveSnapshotStep;
    GatedIs(x);
    ApprovalOutcomes(x);
    ApprovalIs(x);
    EligibleIs(x);
    var store := Holding(x.GatedJob(), [x.ArmingEvent()], map[]);
    ReachSpawn(x, x.Idle(store, 3), Op.Approve("j", "a"));
    ReachRead(x, x.Idle(store, 4).(procs := map[3 := Start(Op.Approve("j", "a"))]), 3, Op.Approve("j", "a"), SEEN,
              ApproveEligibility(x.GatedJob(), "a"));
    ApproveAuthorizationIs(x.cfg, x.Before(), x.GatedJob(), "a", SEEN);
    ApproveSimulateIs(x.cfg, x.Before(), x.GatedJob(), "a", [x.Payout()], 0, SEEN);
    ApproveSnapshotIs(x.cfg, x.Before(), x.GatedJob(), "a", x.Payout(), 0, 0, SEEN);
    ReadsOn(x, store, 4, map[], 3, ApproveEligibility(x.GatedJob(), "a"), ApproveAuthorization(x.GatedJob(), "a"));
    ReadsOn(x, store, 4, map[], 3, ApproveAuthorization(x.GatedJob(), "a"),
            ApproveSimulate(x.GatedJob(), "a", [x.Payout()], 0));
    ReadsOn(x, store, 4, map[], 3, ApproveSimulate(x.GatedJob(), "a", [x.Payout()], 0),
            ApproveBlock(x.GatedJob(), "a", x.Payout(), 0));
    ReadsOn(x, store, 4, map[], 3, ApproveBlock(x.GatedJob(), "a", x.Payout(), 0),
            ApproveSnapshot(x.GatedJob(), "a", x.Payout(), 0, 0));
    ReadsOn(x, store, 4, map[], 3, ApproveSnapshot(x.GatedJob(), "a", x.Payout(), 0, 0),
          Casing(x.GatedJob(), x.ExecutingJob(), [x.ApprovingEvent()], [AwaitingApproval, Executing],
                 ClaimAndDispatch(0, "a")));
  }

  lemma ClaimedIs(x: Scenario)
    ensures CanReach(x, x.Claimed(x.ExecutingJob(), Saving(x.ExecutingJob(), 0)))
  {
    hide CanReach, SaveJobAndEvents, StatusOf, Do;
    RevalidatedIs(x);
    var p := Casing(x.GatedJob(), x.ExecutingJob(), [x.ApprovingEvent()], [AwaitingApproval, Executing],
                    ClaimAndDispatch(0, "a"));
    SavedAs(x, x.GatedJob(), [x.ArmingEvent()], map[], x.ExecutingJob(), [x.ApprovingEvent()]);
    assert [x.ArmingEvent()] + [x.ApprovingEvent()] == x.Events();
    assert map[]["j" := 3] == map["j" := 3];
    ReachCas(x, x.Idle(Holding(x.GatedJob(), [x.ArmingEvent()], map[]), 4).(procs := map[3 := p]), 3, p, SEEN,
             Go(Claiming(x.ExecutingJob(), "a", 0)));
    var s := x.Approved(Holding(x.ExecutingJob(), x.Events(), map[]), Claiming(x.ExecutingJob(), "a", 0));
    assert CanReach(x, s);
    Quiet(x, s, 3, Claiming(x.ExecutingJob(), "a", 0), SEEN);
    ClaimAdvance(x.cfg, s, 3, Claiming(x.ExecutingJob(), "a", 0), SEEN);
    ClaimComes(x, s);
    ReachStep(x, s, Advance(3, SEEN), x.Claimed(x.ExecutingJob(), Saving(x.ExecutingJob(), 0)));
  }

  lemma ClaimComes(x: Scenario, s: State)
    requires s == x.Approved(Holding(x.ExecutingJob(), x.Events(), map[]), Claiming(x.ExecutingJob(), "a", 0))
    ensures ClaimStep(x.cfg, s, 3, Claiming(x.ExecutingJob(), "a", 0)) ==
              x.Claimed(x.ExecutingJob(), Saving(x.ExecutingJob(), 0))
  {
    hide CallOf;
    assert s.procs[3 := Saving(x.ExecutingJob(), 0)] == map[3 := Saving(x.ExecutingJob(), 0)];
  }

  lemma SaveComes(x: Scenario, s: State)
    requires s == x.Claimed(x.ExecutingJob(), Saving(x.ExecutingJob(), 0))
    ensures SaveStep(x.cfg, s, 3, Saving(x.ExecutingJob(), 0)) ==
              x.Claimed(x.StampedJob(), Issuing(x.StampedJob(), 0))
  {
    hide CallOf;
    assert s.procs[3 := Issuing(x.StampedJob(), 0)] == map[3 := Issuing(x.StampedJob(), 0)];
    assert map["j" := x.ExecutingJob()]["j" := x.StampedJob()] == map["j" := x.StampedJob()];
  }

  lemma IssueComes(x: Scenario, s: State)
    requires s == x.Claimed(x.StampedJob(), Issuing(x.StampedJob(), 0))
    ensures IssueStep(x.cfg, s, 3, Issuing(x.StampedJob(), 0)) ==
              x.Dispatched(x.Before(), x.StampedJob(), Silent, Awaiting(x.StampedJob(), 0))
  {
    hide CallOf;
    assert s.procs[3 := Awaiting(x.StampedJob(), 0)] == map[3 := Awaiting(x.StampedJob(), 0)];
    assert s.log + [x.Sending(Silent)] == [x.Sending(Silent)];
  }

  lemma SentIs(x: Scenario)
    ensures CanReach(x, x.Dispatched(x.Before(), x.StampedJob(), Silent, Awaiting(x.StampedJob(), 0)))
  {
    hide CanReach, Do, CallOf, SaveStep, IssueStep;
    ClaimedIs(x);
    var s := x.Claimed(x.ExecutingJob(), Saving(x.ExecutingJob(), 0));
    Quiet(x, s, 3, Saving(x.ExecutingJob(), 0), SEEN);
    SaveAdvance(x.cfg, s, 3, Saving(x.ExecutingJob(), 0), SEEN);
    SaveComes(x, s);
    var t := x.Claimed(x.StampedJob(), Issuing(x.StampedJob(), 0));
    ReachStep(x, s, Advance(3, SEEN), t);
    Quiet(x, t, 3, Issuing(x.StampedJob(), 0), SEEN);
    IssueAdvance(x.cfg, t, 3, Issuing(x.StampedJob(), 0), SEEN);
    IssueComes(x, t);
    ReachStep(x, t, Advance(3, SEEN), x.Dispatched(x.Before(), x.StampedJob(), Silent, Awaiting(x.StampedJob(), 0)));
  }

  // ------------------------------------------------------------------ answer and reconciliation

  lemma AnswerComes(x: Scenario, s: State)
    requires s == x.Dispatched(x.Included(), x.StampedJob(), Silent, Awaiting(x.StampedJob(), 0))
    ensures AnswerStep(s, 3, Awaiting(x.StampedJob(), 0), ANSWERED, 0) ==
              x.Dispatched(x.Included(), x.StampedJob(), ANSWERED,
                           Casing(x.StampedJob(), x.ReconcilingJob(), [], [Executing, Reconciling], Resume))
  {
    hide CallOf;
    var p := Casing(x.StampedJob(), x.ReconcilingJob(), [], [Executing, Reconciling], Resume);
    assert s.procs[3 := p] == map[3 := p];
    assert s.log[0 := x.Sending(ANSWERED)] == [x.Sending(ANSWERED)];
  }

  lemma AnswerIsFair(x: Scenario, s: State)
    requires s == x.Dispatched(x.Included(), x.StampedJob(), Silent, Awaiting(x.StampedJob(), 0))
    ensures Fair(x.cfg, s, Advance(3, LATER)) && !StaleIntake(s, Advance(3, LATER))
  {
    hide CallOf;
    assert ChainOf(s, x.StampedJob()) == x.Included() && x.Included().receipts["tx"].block == 1;
  }

  lemma AnsweredIs(x: Scenario)
    ensures CanReach(x, x.Dispatched(x.Included(), x.ReconcilingJob(), ANSWERED, Start(Op.Reconcile("j"))))
  {
    hide CanReach, Do, CallOf, SaveJobAndEvents, StatusOf, Fair, StaleIntake, AnswerStep;
    SentIs(x);
    assert MineBlock(x.Before(), x.ExecutedBlock(), x.TxReceipts()) == x.Included();
    assert map[x.chainId := x.Before()][x.chainId := x.Included()] == map[x.chainId := x.Included()];
    ReachMine(x, x.Dispatched(x.Before(), x.StampedJob(), Silent, Awaiting(x.StampedJob(), 0)), x.ExecutedBlock(),
              x.TxReceipts());
    var s := x.Dispatched(x.Included(), x.StampedJob(), Silent, Awaiting(x.StampedJob(), 0));
    assert CanReach(x, s);
    AnswerIsFair(x, s);
    AnswerAdvance(x.cfg, s, 3, Awaiting(x.StampedJob(), 0), LATER);
    AnswerComes(x, s);
    var p := Casing(x.StampedJob(), x.ReconcilingJob(), [], [Executing, Reconciling], Resume);
    ReachStep(x, s, Advance(3, LATER), x.Dispatched(x.Included(), x.StampedJob(), ANSWERED, p));
    Moves(x, x.StampedJob(), x.ReconcilingJob(), p, LATER, Go(Start(Op.Reconcile("j"))), x.Included());
  }

  /** One compare-and-set of the reconciling call. */
  lemma Moves(x: Scenario, base: Job, next: Job, p: Proc, o: Observation, after: Outcome, chain: Chain)
    requires base.jobId == "j" && next.jobId == "j" && !next.status.Executing?
    requires p.Casing? && p.base == base && p.next == next && p.events == [] &&
             AfterCas(next, p.andThen, o.now) == after && after.Go?
    requires CanReach(x, x.Dispatched(chain, base, ANSWERED, p))
    ensures CanReach(x, x.Dispatched(chain, next, ANSWERED, after.proc))
  {
    hide CanReach, CallOf, SaveJobAndEvents, StatusOf, AfterCas;
    SavedAs(x, base, x.Events(), x.Claims(), next, []);
    assert x.Events() + [] == x.Events();
    ReachCas(x, x.Dispatched(chain, base, ANSWERED, p), 3, p, o, after);
  }

  /** One read of the reconciling call. */
  lemma Reads(x: Scenario, job: Job, chain: Chain, p: Proc, o: Observation, next: Proc)
    requires CanReach(x, x.Dispatched(chain, job, ANSWERED, p)) &&
             IsLocal(p) && p.base == job && job.commitment == x.Reviewed()
    requires ClosingRead(x.cfg, chain, p, o)
    requires Local(x.cfg, chain, p, o) == Go(next)
    ensures CanReach(x, x.Dispatched(chain, job, ANSWERED, next))
  {
    hide CanReach, Local, CallOf;
    ReachLocal(x, x.Dispatched(chain, job, ANSWERED, p), 3, p, o, next);
  }

  lemma WaitingIs(x: Scenario)
    ensures CanReach(x, x.Dispatched(x.Included(), x.WaitingJob(), ANSWERED, ReconcileFinality(x.WaitingJob(), 0)))
  {
    hide CanReach, Local, CallOf;
    AnsweredIs(x);
    ReachRead(x, x.Dispatched(x.Included(), x.ReconcilingJob(), ANSWERED, Start(Op.Reconcile("j"))), 3,
              Op.Reconcile("j"), SEEN,
              ReconcileReceipt(x.ReconcilingJob()));
    ReceiptIs(x.cfg, x.Included(), x.ReconcilingJob(), SEEN);
    var p := Casing(x.ReconcilingJob(), x.WaitingJob(), [], [Reconciling, WaitingFinality], Continue);
    assert x.Included().receipts["tx"].block == 1;
    Reads(x, x.ReconcilingJob(), x.Included(), ReconcileReceipt(x.ReconcilingJob()), SEEN, p);
    Moves(x, x.ReconcilingJob(), x.WaitingJob(), p, SEEN, Go(ReconcileFinality(x.WaitingJob(), 0)), x.Included());
  }

  lemma FinalityOutcome(x: Scenario)
    ensures ReconcileFinalityStep(x.After(), x.WaitingJob(), 0, LATER) ==
              Go(Casing(x.WaitingJob(), x.FinalJob(), [], [WaitingFinality, VerifyingGovernorState], Continue))
    ensures AfterCas(x.FinalJob(), Continue, 0) == Go(ReconcileGovernor(x.FinalJob(), 0))
  {
  }

  lemma ChainGrows(x: Scenario, mid: Chain)
    requires mid == Chain([x.QueuedBlock(), x.ExecutedBlock(), x.ExecutedBlock()], x.TxReceipts())
    ensures MineBlock(x.Included(), x.ExecutedBlock(), map[]) == mid &&
            MineBlock(mid, x.ExecutedBlock(), map[]) == x.After()
    ensures map[x.chainId := x.Included()][x.chainId := mid] == map[x.chainId := mid]
    ensures map[x.chainId := mid][x.chainId := x.After()] == map[x.chainId := x.After()]
  {
  }

  lemma FinalIs(x: Scenario)
    ensures CanReach(x, x.Dispatched(x.After(), x.FinalJob(), ANSWERED, ReconcileGovernor(x.FinalJob(), 0)))
  {
    hide CanReach, Local, CallOf, ReconcileFinalityStep, AfterCas, MineBlock;
    WaitingIs(x);
    var mid := Chain([x.QueuedBlock(), x.ExecutedBlock(), x.ExecutedBlock()], x.TxReceipts());
    ChainGrows(x, mid);
    ReachMine(x, x.Dispatched(x.Included(), x.WaitingJob(), ANSWERED, ReconcileFinality(x.WaitingJob(), 0)),
              x.ExecutedBlock(), map[]);
    ReachMine(x, x.Dispatched(mid, x.WaitingJob(), ANSWERED, ReconcileFinality(x.WaitingJob(), 0)), x.ExecutedBlock(),
              map[]);
    FinalityIs(x.cfg, x.After(), x.WaitingJob(), 0, LATER);
    FinalityOutcome(x);
    var p := Casing(x.WaitingJob(), x.FinalJob(), [], [WaitingFinality, VerifyingGovernorState], Continue);
    Reads(x, x.WaitingJob(), x.After(), ReconcileFinality(x.WaitingJob(), 0), LATER, p);
    Moves(x, x.WaitingJob(), x.FinalJob(), p, LATER, Go(ReconcileGovernor(x.FinalJob(), 0)), x.After());
  }

  lemma GovernedIs(x: Scenario)
    ensures CanReach(x,
                     x.Dispatched(x.After(), x.GovernedJob(), ANSWERED, FinalVerify(x.GovernedJob(), [x.Payout()], 3)))
  {
    hide CanReach, Local, CallOf, Protocol.Eligible, AuthorizationAt;
    FinalIs(x);
    Shows(x);
    GovernorIs(x.cfg, x.After(), x.FinalJob(), 0, LATER);
    var p := Casing(x.FinalJob(), x.GovernedJob(), [], [VerifyingGovernorState, VerifyingPostcondition], Continue);
    Reads(x, x.FinalJob(), x.After(), ReconcileGovernor(x.FinalJob(), 0), LATER, p);
    Moves(x, x.FinalJob(), x.GovernedJob(), p, LATER, Go(FinalAuthorization(x.GovernedJob())), x.After());
    FinalAuthorizationIs(x.cfg, x.After(), x.GovernedJob(), LATER);
    Reads(x, x.GovernedJob(), x.After(), FinalAuthorization(x.GovernedJob()), LATER,
          FinalVerify(x.GovernedJob(), [x.Payout()], 3));
  }

  lemma PaymentMatches(x: Scenario)
    ensures Verdict(0, x.amount, x.amount, x.token, x.Recipient(), Some([x.Payment()])).ExactMatch?
  {
    Itself(x.token);
    FoldsCase(x.payee);
    hide SameAddress;
    var l := TransferLog(-1, TIMELOCK, x.payee, x.amount);
    assert TokenTransfers([x.Payment()], x.token, 0) == [];
    assert TokenTransfers([x.Payment()], x.token, 1) == [l];
    assert [l][1..] == [];
    assert ToRecipient([l], x.Recipient()) == [l] && OfAmount([l], x.amount) == [l];
  }

  lemma FoldsCase(a: HexAddress)
    ensures ToLower(ToLower(a)) == ToLower(a) && SameAddress(a, ToLower(a)) && SameAddress(ToLower(a), a)
  {
    assert forall c: char :: LowerChar(LowerChar(c)) == LowerChar(c);
  }

  lemma VerdictIs(x: Scenario)
    ensures FinalVerdict(x.After(), x.GovernedJob(), [x.Payout()]) == Some(true)
  {
    hide TryDecodeTransfer, Verdict, FirstSelected;
    Shows(x);
    ActionPays(x);
    PaymentMatches(x);
    FoldsCase(x.payee);
    assert BalanceAt(x.After(), x.token, x.Recipient(), 1) == Some(x.amount);
  }

  lemma FinalWrite(x: Scenario) returns (next: Job)
    ensures next.status.FulfilledVerified? && next.jobId == "j" && next.commitment == x.Reviewed()
    ensures next.execution == x.GovernedJob().execution &&
            next.receipt.Some? && next.receipt.value.executionTxHash == "tx"
    ensures FinalVerifyStep(x.cfg, x.After(), x.GovernedJob(), [x.Payout()], LATER) ==
              Go(Casing(x.GovernedJob(), next, [], [VerifyingPostcondition, FulfilledVerified], Then.Finish))
  {
    hide FinalVerdict;
    VerdictIs(x);
    var r := FinalReceipt(x.GovernedJob(), x.Reviewed().frozenAuthorization, true, 0);
    next := x.GovernedJob().(status := FulfilledVerified, receipt := Some(r));
  }

  // ------------------------------------------------------------------ what the run meets

  /** The token's ledger: the payment, in the block that executed the proposal. */
  function PayoutLedger(x: Scenario): seq<seq<Movement>> {
    [[], [Transferred("tx", TIMELOCK, x.payee, x.amount, x.amount, x.amount)], [], []]
  }

  /** A MARKED job that meets everything the guarantees ask for. */
  ghost predicate Marks(x: Scenario, s: State) {
    && "j" in s.store.jobs && s.store.jobs["j"].status.FulfilledVerified?
    && s.store.jobs["j"].commitment == x.Reviewed()
    && var job, chain := s.store.jobs["j"], ChainOf(s, s.store.jobs["j"]);
       && Separates(x.cfg, chain, job.commitment) && IntakeBuilt(x.cfg, chain, job.commitment)
       && job.receipt.Some? && job.execution.Some?
       && KeepsLedger(chain, job.execution.value.token, job.execution.value.recipient, PayoutLedger(x))
       && LogsKept(chain, job.execution.value.token, PayoutLedger(x), job.receipt.value.executionTxHash)
       && forall b :: 0 <= b < |PayoutLedger(x)| ==> Exact(PayoutLedger(x)[b])
  }

  lemma OneBundle(x: Scenario)
    ensures Separates(x.cfg, x.After(), x.Reviewed())
  {
    KeyIs(x);
    forall b: nat | AuthorizationAt(x.After(), x.Reviewed(), b).Some?
      ensures AuthorizationAt(x.After(), x.Reviewed(), b) == Some(x.Bundle())
    {
      assert x.After().blocks[b] == x.QueuedBlock() || x.After().blocks[b] == x.ExecutedBlock();
    }
  }

  lemma BuiltByIntake(x: Scenario)
    ensures IntakeBuilt(x.cfg, x.After(), x.Reviewed())
  {
    hide TryDecodeTransfer;
    KeyIs(x);
    ActionPays(x);
    assert AuthorizationAt(x.After(), x.Reviewed(), 0) == Some(x.Bundle());
    assert BuildBinding(x.Payout(), true) == Some(x.PayoutBinding());
    assert BuiltAt(x.cfg, x.After(), x.Reviewed(), 0);
  }

  lemma PaysAnother(x: Scenario)
    ensures !SameAddress(TIMELOCK, x.Recipient())
  {
    FoldsCase(x.payee);
    assert ToLower(TIMELOCK)[0] == 't' && ToLower(x.payee)[0] == '0';
  }

  lemma LedgerIsKept(x: Scenario)
    ensures KeepsLedger(x.After(), x.token, x.Recipient(), PayoutLedger(x))
    ensures LogsKept(x.After(), x.token, PayoutLedger(x), "tx")
    ensures forall b :: 0 <= b < |PayoutLedger(x)| ==> Exact(PayoutLedger(x)[b])
  {
    FoldsCase(x.payee);
    PaysAnother(x);
    Itself(x.Recipient());
    Itself(x.token);
    hide SameAddress;
    var paid := PayoutLedger(x)[1];
    assert paid[1..] == [];
    assert Net(paid, x.Recipient()) == Effect(paid[0], x.Recipient()) + Net(paid[1..], x.Recipient()) == x.amount;
    forall b | 0 <= b < 4
      ensures BalanceAt(x.After(), x.token, x.Recipient(), b) == Some(if b == 0 then 0 else x.amount)
    {
      assert x.After().blocks[b] == if b == 0 then x.QueuedBlock() else x.ExecutedBlock();
    }
    assert TokenTransfers([x.Payment()], x.token, 0) == [];
    assert TokenTransfers([x.Payment()], x.token, 1) == [TransferLogOf(x.Payment())];
    assert TransfersOf(paid, "tx") == paid;
  }

  lemma Itself(a: HexAddress)
    ensures SameAddress(a, a)
  {
  }

  /**
   * FULFILLED_VERIFIED is reached by an orderly run, by a job whose commitment intake built and whose token kept its
   * ledger, so what is proved of MARKED jobs is proved of something.
   */
  lemma MarkedIsReached(x: Scenario)
    ensures exists steps :: Orderly(x.cfg, steps) && IsRun(x.cfg, steps) && Marks(x, Run(x.cfg, steps))
  {
    hide Local, CallOf, SaveJobAndEvents, StatusOf, FinalVerifyStep, Orderly, Run, IsRun, Separates, IntakeBuilt,
      KeepsLedger, LogsKept, Exact, CanReach;
    GovernedIs(x);
    var next := FinalWrite(x);
    FinalVerifyIs(x.cfg, x.After(), x.GovernedJob(), [x.Payout()], 3, LATER);
    var p := Casing(x.GovernedJob(), next, [], [VerifyingPostcondition, FulfilledVerified], Then.Finish);
    Reads(x, x.GovernedJob(), x.After(), FinalVerify(x.GovernedJob(), [x.Payout()], 3), LATER, p);
    SavedAs(x, x.GovernedJob(), x.Events(), x.Claims(), next, []);
    assert x.Events() + [] == x.Events();
    var s := x.Dispatched(x.After(), x.GovernedJob(), ANSWERED, p);
    ReachCas(x, s, 3, p, LATER, Stop);
    var last := s.(store := Holding(next, x.Events(), x.Claims()), procs := map[]);
    assert CanReach(x, last);
    OneBundle(x);
    BuiltByIntake(x);
    LedgerIsKept(x);
    assert Marks(x, last);
    MarksIsReached(x, last);
  }

  lemma MarksIsReached(x: Scenario, last: State)
    requires CanReach(x, last) && Marks(x, last)
    ensures exists steps :: Orderly(x.cfg, steps) && IsRun(x.cfg, steps) && Marks(x, Run(x.cfg, steps))
  {
    hide Orderly, Run, IsRun, Marks;
    var steps :| Orderly(x.cfg, steps) && Run(x.cfg, steps) == last;
    OrderlyIsRun(x.cfg, steps);
  }
}
