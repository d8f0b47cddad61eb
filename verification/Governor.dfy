/** What the Governor and the chain show to a reader: proposals, eligibility, receipts and balances. */
module Governor {
  import opened Bytes
  import opened Jobs
  import opened Text
  import opened Wrappers

  datatype Action = Action(actionIndex: nat, target: HexAddress, value: nat, signature: string, calldata: seq<Byte>)

  /** The action bundle of one proposal, as the Governor stores it. */
  datatype Authorization = Authorization(
    version: nat, chainId: nat, governor: HexAddress, governorFamily: GovernorFamily, proposalId: string,
    actions: seq<Action>)

  /** The on-chain identity of a proposal: letter case and leading zeros do not matter to a contract. */
  datatype ProposalKey = ProposalKey(governor: string, proposalId: nat)

  datatype ProposalView = ProposalView(state: nat, eta: nat, canceled: bool, executed: bool, actions: seq<Action>)

  datatype Block = Block(
    timestamp: nat, proposals: map<ProposalKey, ProposalView>, balances: map<(string, string), int>)

  /** One event of a transaction; `transfer` is absent when the data does not decode as a Transfer. */
  datatype Log = Log(address: HexAddress, topicIsTransfer: bool, transfer: Option<TransferArgs>, logIndex: Option<nat>)

  datatype TransferArgs = TransferArgs(from: HexAddress, to: HexAddress, value: nat)

  datatype TxReceipt = TxReceipt(block: nat, logs: seq<Log>)

  /** An append-only chain: block k is `blocks[k]`. */
  datatype Chain = Chain(blocks: seq<Block>, receipts: map<TxHash, TxReceipt>)

  function KeyOf(c: Commitment): ProposalKey {
    ProposalKey(ToLower(c.governor), DecimalValue(c.proposalId))
  }

  /** A read of the proposal as of one block; absent when the contract call reverts. */
  function ViewAt(c: Chain, key: ProposalKey, b: nat): Option<ProposalView> {
    if b < |c.blocks| && key in c.blocks[b].proposals then Some(c.blocks[b].proposals[key]) else None
  }

  function BalanceAt(c: Chain, token: HexAddress, holder: HexAddress, b: nat): Option<int> {
    var key := (ToLower(token), ToLower(holder));
    if b < |c.blocks| && key in c.blocks[b].balances then Some(c.blocks[b].balances[key]) else None
  }

  function AuthorizationOf(commitment: Commitment, actions: seq<Action>): Authorization {
    Authorization(1, commitment.chainId, commitment.governor, GovernorBravo, commitment.proposalId, actions)
  }

  /** The block-pinned resolution of the action bundle for a commitment's coordinate. */
  function AuthorizationAt(c: Chain, commitment: Commitment, b: nat): Option<Authorization> {
    match ViewAt(c, KeyOf(commitment), b)
    case None => None
    case Some(v) => Some(AuthorizationOf(commitment, v.actions))
  }

  /** Equal but for the letter case of the target address. */
  predicate SameAction(a: Action, b: Action) {
    a.actionIndex == b.actionIndex && ToLower(a.target) == ToLower(b.target) && a.value == b.value &&
    a.signature == b.signature && a.calldata == b.calldata
  }

  predicate SameActions(xs: seq<Action>, ys: seq<Action>) {
    |xs| == |ys| && forall i :: 0 <= i < |xs| ==> SameAction(xs[i], ys[i])
  }

  datatype Eligibility =
    | EligibleToExecute | TimelockPending | Canceled | NotExecutable | AlreadyExecuted

  /**
   * Lifecycle eligibility from three separate reads, each possibly of a different block: `state`, the proposal
   * record, and the clock. Absent for an unknown state value, where the resolver throws.
   */
  function EligibilityOf(state: nat, record: ProposalView, clock: nat): Option<Eligibility> {
    if record.canceled then Some(Canceled)
    else if record.executed then Some(AlreadyExecuted)
    else if state == 5 then
      Some(if record.eta > 0 && clock < record.eta then TimelockPending else EligibleToExecute)
    else if state == 0 || state == 1 || state == 4 || state == 3 || state == 6 then Some(NotExecutable)
    else if state == 7 then Some(AlreadyExecuted)
    else None
  }

  /** The longer chain keeps every block and receipt of the shorter one. */
  ghost predicate Extends(c: Chain, c': Chain) {
    && |c.blocks| <= |c'.blocks|
    && (forall b :: 0 <= b < |c.blocks| ==> c'.blocks[b] == c.blocks[b])
    && (forall t :: t in c.receipts ==> t in c'.receipts && c'.receipts[t] == c.receipts[t])
  }
}
