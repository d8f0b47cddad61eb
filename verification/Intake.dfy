/** How a commitment is built from a resolved proposal, and why the legs written as literals are sound. */
module Intake {
  import opened Bundles
  import opened Erc20
  import opened Governor
  import opened Grounds
  import opened Jobs
  import opened Protocol
  import opened StateMachine
  import opened Text
  import opened Wrappers

  const ADAPTER_ID := "erc20-transfer"
  const ADAPTER_VERSION := "1"

  /** A bundle as it is read from the Governor: every action carries its own position. */
  ghost predicate Indexed(actions: seq<Action>) {
    forall i :: 0 <= i < |actions| ==> actions[i].actionIndex == i
  }

  predicate Supported(a: Action) {
    TryDecodeTransfer(a.signature, a.calldata).Some?
  }

  /** The positions of the actions that decode, in order. */
  function SupportedIndexes(actions: seq<Action>): seq<nat> {
    if actions == [] then []
    else
      var front, last := actions[..|actions| - 1], actions[|actions| - 1];
      SupportedIndexes(front) + (if Supported(last) then [last.actionIndex] else [])
  }

  function RequiredIndexes(actions: seq<Action>): (r: seq<nat>)
    ensures |r| == |actions| && forall i :: 0 <= i < |r| ==> r[i] == actions[i].actionIndex
  {
    seq(|actions|, i requires 0 <= i < |actions| => actions[i].actionIndex)
  }

  function CountIn(xs: seq<nat>, covered: set<nat>): (n: nat)
    ensures n <= |xs|
  {
    if xs == [] then 0 else (if xs[0] in covered then 1 else 0) + CountIn(xs[1..], covered)
  }

  function ClassifyCoverage(required: seq<nat>, supported: seq<nat>): Coverage {
    var n := CountIn(required, set i | i in supported);
    if |required| == 0 then Unsupported
    else if n == 0 then Unsupported
    else if n == |required| then Full
    else Partial
  }

  lemma {:induction false} CountAll(xs: seq<nat>, covered: set<nat>)
    ensures CountIn(xs, covered) == |xs| <==> forall i :: 0 <= i < |xs| ==> xs[i] in covered
    ensures CountIn(xs, covered) == 0 <==> forall i :: 0 <= i < |xs| ==> xs[i] !in covered
  {
    if xs != [] {
      CountAll(xs[1..], covered);
      assert forall i :: 0 < i < |xs| ==> xs[i] == xs[1..][i - 1];
      assert forall i :: 0 <= i < |xs[1..]| ==> xs[1..][i] == xs[i + 1];
    }
  }

  /** FULL: something is required and all of it is supported. UNSUPPORTED: nothing required is supported. */
  lemma CoverageMeans(required: seq<nat>, supported: seq<nat>)
    ensures ClassifyCoverage(required, supported).Full? <==>
        required != [] && forall i :: 0 <= i < |required| ==> required[i] in supported
    ensures ClassifyCoverage(required, supported).Unsupported? <==>
        forall i :: 0 <= i < |required| ==> required[i] !in supported
  {
    CountAll(required, set i | i in supported);
  }

  function CoverageOf(actions: seq<Action>): Coverage {
    ClassifyCoverage(RequiredIndexes(actions), SupportedIndexes(actions))
  }

  lemma {:induction false} SupportedOnes(actions: seq<Action>, x: nat)
    ensures x in SupportedIndexes(actions) <==>
        exists i :: 0 <= i < |actions| && Supported(actions[i]) && actions[i].actionIndex == x
  {
    hide Supported;
    if actions != [] {
      var front := actions[..|actions| - 1];
      SupportedOnes(front, x);
      if i :| 0 <= i < |actions| && Supported(actions[i]) && actions[i].actionIndex == x {
        if i < |front| { assert front[i] == actions[i]; }
      }
    }
  }

  /** A bundle is fully covered exactly when it has an action and every action decodes. */
  lemma FullExactlyWhen(actions: seq<Action>)
    requires Indexed(actions)
    ensures CoverageOf(actions).Full? <==> actions != [] && forall i :: 0 <= i < |actions| ==> Supported(actions[i])
  {
    hide Supported, SupportedIndexes, ClassifyCoverage;
    CoverageMeans(RequiredIndexes(actions), SupportedIndexes(actions));
    forall i | 0 <= i < |actions| ensures i in SupportedIndexes(actions) <==> Supported(actions[i]) {
      SupportedOnes(actions, i);
    }
    if CoverageOf(actions).Full? {
      forall i | 0 <= i < |actions| ensures Supported(actions[i]) {
        assert RequiredIndexes(actions)[i] in SupportedIndexes(actions);
      }
    }
  }

  /** A bundle is not covered at all exactly when no action decodes. */
  lemma UnsupportedExactlyWhen(actions: seq<Action>)
    requires Indexed(actions)
    ensures CoverageOf(actions).Unsupported? <==> forall i :: 0 <= i < |actions| ==> !Supported(actions[i])
  {
    hide Supported, SupportedIndexes, ClassifyCoverage;
    CoverageMeans(RequiredIndexes(actions), SupportedIndexes(actions));
    forall i | 0 <= i < |actions| ensures i in SupportedIndexes(actions) <==> Supported(actions[i]) {
      SupportedOnes(actions, i);
    }
    if CoverageOf(actions).Unsupported? {
      forall i | 0 <= i < |actions| ensures !Supported(actions[i]) {
        assert RequiredIndexes(actions)[i] !in SupportedIndexes(actions);
      }
    }
  }

  /** One binding per covered action, reproducible from the action alone. */
  function BuildBinding(a: Action, required: bool): Option<Binding> {
    match TryDecodeTransfer(a.signature, a.calldata)
    case None => None
    case Some(t) =>
      Some(Binding(a.actionIndex, ADAPTER_ID, ADAPTER_VERSION, required,
                   [BindingParam("token", a.target), BindingParam("recipient", t.recipient),
                    BindingParam("rawAmount", Decimal(t.amount))]))
  }

  /** What intake knows of a proposal after its reads; the authorization is absent for an unsupported family. */
  datatype Resolved = Resolved(
    chainId: nat, governor: HexAddress, proposalId: string, actions: Option<seq<Action>>, authorizationHash: Digest,
    eligibility: Option<Eligibility>)

  /** Fulfillability as far as intake lets it vary: family, eligibility, coverage. */
  predicate CanArm(familySupported: bool, eligibility: Option<Eligibility>, coverage: Coverage) {
    familySupported && eligibility == Some(EligibleToExecute) && coverage.Full?
  }

  /**
   * The binding says of the action at position `i` which token it moves, to whom and how much of it; it is required,
   * and it names the adapter that judges it.
   */
  predicate Binds(b: Binding, a: Action, i: nat) {
    var t := TryDecodeTransfer(a.signature, a.calldata);
    && t.Some?
    && b.actionIndex == i && b.required && b.adapterId == "erc20-transfer" && b.adapterVersion == "1"
    && |b.params| == 3
    && b.params[0].key == "token" && SameAddress(b.params[0].value, a.target)
    && b.params[1].key == "recipient" && b.params[1].value == t.value.recipient
    && b.params[2].key == "rawAmount" && IsDecimal(b.params[2].value)
    && DecimalValue(b.params[2].value) == t.value.amount
    && (|b.params[2].value| > 1 ==> b.params[2].value[0] != '0')
  }

  /** The commitment a fully covered bundle gets: every action selected, in order, each with its binding. */
  ghost predicate BuiltFrom(c: Commitment, r: Resolved) {
    && r.actions.Some?
    && var actions := r.actions.value;
       && c.version == 1 && c.chainId == r.chainId && c.governor == r.governor && c.proposalId == r.proposalId
       && c.governorFamily == GovernorBravo && c.frozenAuthorization == r.authorizationHash && c.mode == Mode.Approve
       && c.executionSurfaceId == "keeperhub-direct-contract-call-v1" && c.executionPolicyVersion == "1"
       && |c.selectedActionIndexes| == |actions| && |c.bindings| == |actions|
       && (forall i :: 0 <= i < |actions| ==>
             c.selectedActionIndexes[i] == i && Binds(c.bindings[i], actions[i], i) &&
             c.bindings[i].params[0].value == actions[i].target)
  }

  lemma {:induction false} AllSupported(actions: seq<Action>)
    requires Indexed(actions) && forall i :: 0 <= i < |actions| ==> Supported(actions[i])
    ensures SupportedIndexes(actions) == RequiredIndexes(actions)
  {
    hide Supported;
    if actions != [] {
      var front := actions[..|actions| - 1];
      AllSupported(front);
      assert RequiredIndexes(actions) == RequiredIndexes(front) + [actions[|actions| - 1].actionIndex];
    }
  }

  /**
   * The intake: a commitment comes out exactly when the proposal can be executed now and every one of its actions is
   * a transfer the adapter understands, and then it selects and binds them all.
   */
  method ResolveGovernanceIntake(r: Resolved) returns (coverage: Coverage, commitment: Option<Commitment>)
    requires r.actions.Some? ==> Indexed(r.actions.value)
    ensures commitment.Some? <==>
        r.actions.Some? && r.eligibility == Some(EligibleToExecute) && r.actions.value != [] &&
                                  forall i :: 0 <= i < |r.actions.value| ==> Supported(r.actions.value[i])
    ensures commitment.Some? ==> BuiltFrom(commitment.value, r)
    ensures coverage.Full? <==>
        r.actions.Some? && r.actions.value != [] &&
        forall i :: 0 <= i < |r.actions.value| ==> Supported(r.actions.value[i])
    ensures coverage.Unsupported? <==>
        r.actions.Some? ==> forall i :: 0 <= i < |r.actions.value| ==> !Supported(r.actions.value[i])
  {
    hide Supported, SupportedIndexes, ClassifyCoverage, TryDecodeTransfer, Binds, CoverageOf, BuildBinding;
    var familySupported := r.actions.Some?;
    var eligibility: Option<Eligibility> := None;
    if r.actions.Some? {
      eligibility := r.eligibility;
    }
    var actions := if r.actions.Some? then r.actions.value else [];
    FullExactlyWhen(actions);
    UnsupportedExactlyWhen(actions);
    coverage := if r.actions.Some? then CoverageOf(actions) else Unsupported;
    commitment := None;
    if CanArm(familySupported, eligibility, coverage) && r.actions.Some? {
      AllSupported(actions);
      var selected := SupportedIndexes(actions);
      var bindings: seq<Binding> := [];
      for i := 0 to |selected|
        invariant |bindings| == i
        invariant forall k :: 0 <= k < i ==>
            Binds(bindings[k], actions[k], k) && |bindings[k].params| > 0 &&
            bindings[k].params[0].value == actions[k].target
      {
        assert Supported(actions[i]);
        SupportedBinds(actions[i]);
        bindings := bindings + [BuildBinding(actions[selected[i]], true).value];
      }
      commitment := Some(Commitment(1, r.chainId, r.governor, GovernorBravo, r.proposalId, r.authorizationHash,
                                    selected, bindings,
                                    Mode.Approve, "keeperhub-direct-contract-call-v1", "1"));
    }
  }

  lemma SupportedBinds(a: Action)
    requires Supported(a)
    ensures BuildBinding(a, true).Some? && Binds(BuildBinding(a, true).value, a, a.actionIndex)
    ensures |BuildBinding(a, true).value.params| > 0 && BuildBinding(a, true).value.params[0].value == a.target
  {
    hide TryDecodeTransfer;
  }

  // ------------------------------------------------------------------ the literal legs

  /** The commitment was built by intake from the bundle the chain showed at some block. */
  ghost predicate IntakeBuilt(cfg: Config, chain: Chain, c: Commitment) {
    exists b :: BuiltAt(cfg, chain, c, b)
  }

  ghost predicate BuiltAt(cfg: Config, chain: Chain, c: Commitment, b: nat) {
    var a := AuthorizationAt(chain, c, b);
    && a.Some? && a.value.actions != [] && Indexed(a.value.actions)
    && (forall i :: 0 <= i < |a.value.actions| ==> Supported(a.value.actions[i]))
    && BuiltFrom(c,
                 Resolved(c.chainId, c.governor, c.proposalId, Some(a.value.actions), cfg.authorizationHash(a.value),
                          Some(EligibleToExecute)))
  }

  /**
   * As long as the live hash is the frozen one: coverage really is FULL, the first selected action is there and
   * decodes, and each binding, the first included, is of the live action at its position, so the two legs written as
   * literals and the index leg hold.
   */
  lemma UnchangedHashMeansCovered(cfg: Config, chain: Chain, c: Commitment, b: nat)
    requires IntakeBuilt(cfg, chain, c) && Separates(cfg, chain, c) && StillFrozen(cfg, chain, c, b)
    ensures CoverageOf(AuthorizationAt(chain, c, b).value.actions).Full?
    ensures ActionAt(chain, c, b).Some? && TransferAt(chain, c, b).Some?
    ensures c.selectedActionIndexes != [] && c.bindings != [] && c.bindings[0].actionIndex == c.selectedActionIndexes[0]
    ensures var live := AuthorizationAt(chain, c, b).value.actions;
            |c.bindings| == |live| && forall i :: 0 <= i < |live| ==> Binds(c.bindings[i], live[i], i)
  {
    hide Supported, SupportedIndexes, ClassifyCoverage, AuthorizationAt, CoverageOf, TryDecodeTransfer, ActionAt, Binds;
    FirstIsActionAt(chain, c, b);
    var b0 :| BuiltAt(cfg, chain, c, b0);
    var then_, now := AuthorizationAt(chain, c, b0).value.actions, AuthorizationAt(chain, c, b).value.actions;
    assert SameHashAt(cfg, chain, c, b0, b);
    forall i | 0 <= i < |now| ensures Supported(now[i]) && now[i].actionIndex == i && Binds(c.bindings[i], now[i], i) {
      assert SameAction(then_[i], now[i]) && Supported(then_[i]);
      SupportedAlike(then_[i], now[i]);
      BindsAlike(c.bindings[i], then_[i], now[i], i);
    }
    FullExactlyWhen(now);
    assert c.bindings[0].actionIndex == 0 by { BindsMeans(c.bindings[0], now[0], 0); }
    assert TransferAt(chain, c, b).Some? by { assert Supported(now[0]); DecodesWhenSupported(now[0]); }
  }

  lemma BindsAlike(b: Binding, x: Action, y: Action, i: nat)
    requires SameAction(x, y) && Binds(b, x, i)
    ensures Binds(b, y, i)
  {
    hide TryDecodeTransfer;
  }

  lemma BindsMeans(b: Binding, a: Action, i: nat)
    requires Binds(b, a, i)
    ensures b.actionIndex == i
  {
    hide TryDecodeTransfer;
  }

  lemma SupportedAlike(a: Action, b: Action)
    requires SameAction(a, b) && Supported(a)
    ensures Supported(b)
  {
  }

  lemma DecodesWhenSupported(a: Action)
    requires Supported(a)
    ensures TryDecodeTransfer(a.signature, a.calldata).Some?
  {
  }

  /** When an arm goes through, the coverage it reports as FULL is the live bundle's. */
  lemma ArmedCoverageIsFull(cfg: Config, chain: Chain, base: Job, actor: string, o: Observation)
    requires IntakeBuilt(cfg, chain, base.commitment) && Separates(cfg, chain, base.commitment)
    requires Local(cfg, chain, ArmAuthorization(base, actor), o).Go?
    ensures StillFrozen(cfg, chain, base.commitment, o.block)
    ensures CoverageOf(AuthorizationAt(chain, base.commitment, o.block).value.actions).Full?
  {
    hide IntakeBuilt, Separates, AuthorizationAt, CoverageOf;
    UnchangedHashMeansCovered(cfg, chain, base.commitment, o.block);
  }
}
