/** What each of the five encodings holds, read back through the decoder, component by component and in its place. */
module Layout {
  import opened Abi
  import opened Bytes
  import opened Calldata
  import opened Commitments
  import opened Domains
  import opened Governor
  import opened Jobs
  import opened Text
  import opened Utf8
  import opened Wrappers

  // ------------------------------------------------------------------ reading a decoded value

  /** The number a word holds, most significant byte first. */
  predicate HasNumber(v: Value, n: nat) {
    v.WordValue? && |v.word| == 32 && BigEndian(v.word) == n
  }

  /** The address a word holds: zeros, and then its twenty bytes. */
  predicate HasAddress(v: Value, a: HexAddress) {
    v.WordValue? && |v.word| == 32 && v.word[..12] == Zeros(12) && Hex(v.word[12..]) == ToLower(a)
  }

  predicate HasText(v: Value, s: string) {
    v.BytesValue? && Utf8Text(v.bytes) == Some(s)
  }

  predicate HasFlag(v: Value, b: bool) {
    HasNumber(v, if b then 1 else 0)
  }

  predicate HasFamily(v: Value, f: GovernorFamily) {
    HasText(v, if f.GovernorBravo? then "GOVERNOR_BRAVO" else "OPENZEPPELIN_GOVERNOR")
  }

  predicate HasCoverage(v: Value, c: Coverage) {
    HasText(v, match c case Full => "FULL" case Partial => "PARTIAL" case Unsupported => "UNSUPPORTED")
  }

  lemma UintHas(n: nat)
    requires n < WORD_LIMIT
    ensures HasNumber(Uint(n), n)
  {
    hide BigEndian, ToWord;
    WordInverse(n);
  }

  lemma BoolHas(b: bool)
    ensures HasFlag(Bool(b), b)
  {
    hide BigEndian, ToWord;
    WordInverse(if b then 1 else 0);
  }

  lemma StrHas(s: string)
    ensures HasText(Str(s), s)
  {
    hide Utf8Text, Utf8Bytes;
    Utf8RoundTrip(s);
  }

  lemma FamilyHas(f: GovernorFamily)
    ensures HasFamily(Str(FamilyName(f)), f)
  {
    hide HasText, Str;
    StrHas(FamilyName(f));
  }

  lemma CoverageHas(c: Coverage)
    ensures HasCoverage(Str(CoverageName(c)), c)
  {
    hide HasText, Str;
    StrHas(CoverageName(c));
  }

  lemma StatusHas(s: ReceiptStatus)
    ensures HasText(Str(ReceiptStatusName(s)), if s.Verified? then "FULFILLED_VERIFIED" else "FULFILLED_UNVERIFIED")
  {
    hide HasText, Str;
    StrHas(ReceiptStatusName(s));
  }

  lemma AddressHas(a: HexAddress)
    requires IsHexOf(a, 20)
    ensures HasAddress(Address(a), a)
  {
    hide HexBytes, Hex, ToLower;
    HexOfBytes(a, 20);
    var w := Zeros(12) + HexBytes(a, 20);
    assert w[..12] == Zeros(12) && w[12..] == HexBytes(a, 20);
  }

  // ------------------------------------------------------------------ postcondition binding

  ghost predicate HoldsParam(v: Value, p: BindingParam) {
    v.TupleValue? && |v.items| == 2 && HasText(v.items[0], p.key) && HasText(v.items[1], p.value)
  }

  /** Domain, version 1, action index, adapter id, adapter version, required, parameters. */
  ghost predicate HoldsBinding(v: Value, b: Binding) {
    && v.TupleValue? && |v.items| == 7
    && HasText(v.items[0], "MARKED_POSTCONDITION_BINDING_V1") && HasNumber(v.items[1], 1)
    && HasNumber(v.items[2], b.actionIndex) && HasText(v.items[3], b.adapterId) && HasText(v.items[4], b.adapterVersion)
    && HasFlag(v.items[5], b.required)
    && v.items[6].ArrayValue? && |v.items[6].items| == |b.params|
    && forall i :: 0 <= i < |b.params| ==> HoldsParam(v.items[6].items[i], b.params[i])
  }

  lemma ParamHeld(p: BindingParam)
    ensures HoldsParam(ParamValue(p), p)
  {
    hide HasText, Str;
    StrHas(p.key);
    StrHas(p.value);
  }

  lemma BindingHeld(b: Binding)
    requires b.actionIndex < WORD_LIMIT
    ensures HoldsBinding(BindingValue(b), b)
  {
    hide HasText, HasNumber, HasFlag, Str, Uint, Bool, HoldsParam, ParamValue;
    StrHas("MARKED_POSTCONDITION_BINDING_V1");
    UintHas(1);
    UintHas(b.actionIndex);
    StrHas(b.adapterId);
    StrHas(b.adapterVersion);
    BoolHas(b.required);
    forall i | 0 <= i < |b.params| ensures HoldsParam(ParamValue(b.params[i]), b.params[i]) { ParamHeld(b.params[i]); }
  }

  /** A binding is encoded whenever its index fits a word, and its bytes say each of its fields in its place. */
  lemma BindingLayout(b: Binding)
    requires b.actionIndex < WORD_LIMIT
    ensures EncodeBinding(b).Some?
    ensures |EncodeBinding(b).value| < WORD_LIMIT ==>
              var v := Decode(BINDING_TYPE, EncodeBinding(b).value, 0); v.Some? && HoldsBinding(v.value, b)
  {
    hide HoldsBinding, Decode, Encode, BindingValue, Conforms;
    BindingConforms(b);
    BindingHeld(b);
    if |EncodeBinding(b).value| < WORD_LIMIT { RoundTrip(BINDING_TYPE, BindingValue(b)); }
  }

  // ------------------------------------------------------------------ fulfilment commitment

  /** Action index, adapter id, adapter version, required, and the hash of the binding's own encoding. */
  ghost predicate HoldsSummary(v: Value, keccak: Keccak, b: Binding) {
    && v.TupleValue? && |v.items| == 5
    && HasNumber(v.items[0], b.actionIndex) && HasText(v.items[1], b.adapterId) && HasText(v.items[2], b.adapterVersion)
    && HasFlag(v.items[3], b.required)
    && EncodeBinding(b).Some? && v.items[4] == WordValue(keccak(EncodeBinding(b).value))
  }

  /**
   * Domain, version, chain, Governor, family, proposal number, frozen hash, selected indexes, binding summaries, mode,
   * execution surface, policy version.
   */
  ghost predicate HoldsCommitment(v: Value, keccak: Keccak, c: Commitment) {
    && v.TupleValue? && |v.items| == 12
    && HasText(v.items[0], "MARKED_FULFILLMENT_COMMITMENT_V1")
    && HasNumber(v.items[1], c.version) && HasNumber(v.items[2], c.chainId) && HasAddress(v.items[3], c.governor)
    && HasFamily(v.items[4], c.governorFamily)
    && HasNumber(v.items[5], DecimalValue(c.proposalId)) && v.items[6] == WordValue(c.frozenAuthorization)
    && v.items[7].ArrayValue? && |v.items[7].items| == |c.selectedActionIndexes|
    && (forall i :: 0 <= i < |c.selectedActionIndexes| ==>
          HasNumber(v.items[7].items[i], c.selectedActionIndexes[i]))
    && v.items[8].ArrayValue? && |v.items[8].items| == |c.bindings|
    && (forall i :: 0 <= i < |c.bindings| ==> HoldsSummary(v.items[8].items[i], keccak, c.bindings[i]))
    && HasText(v.items[9], if c.mode.Auto? then "AUTO" else "APPROVE")
    && HasText(v.items[10], c.executionSurfaceId) && HasText(v.items[11], c.executionPolicyVersion)
  }

  lemma SummaryHeld(keccak: Keccak, b: Binding)
    requires b.actionIndex < WORD_LIMIT
    ensures HoldsSummary(SummaryValue(keccak, b), keccak, b)
  {
    hide HasText, HasNumber, HasFlag, Str, Uint, Bool, Encode;
    UintHas(b.actionIndex);
    StrHas(b.adapterId);
    StrHas(b.adapterVersion);
    BoolHas(b.required);
  }

  lemma CommitmentHeld(keccak: Keccak, c: Commitment)
    requires Encodable(c)
    ensures HoldsCommitment(CommitmentValue(keccak, c), keccak, c)
  {
    hide HasText, HasNumber, HasAddress, HasFamily, Str, Uint, Address, HoldsSummary, SummaryValue, DecimalValue,
      FamilyName;
    StrHas("MARKED_FULFILLMENT_COMMITMENT_V1");
    UintHas(c.version);
    UintHas(c.chainId);
    AddressHas(c.governor);
    FamilyHas(c.governorFamily);
    UintHas(DecimalValue(c.proposalId));
    forall i | 0 <= i < |c.selectedActionIndexes|
      ensures HasNumber(Uint(c.selectedActionIndexes[i]), c.selectedActionIndexes[i])
    {
      UintHas(c.selectedActionIndexes[i]);
    }
    forall i | 0 <= i < |c.bindings| ensures HoldsSummary(SummaryValue(keccak, c.bindings[i]), keccak, c.bindings[i]) {
      SummaryHeld(keccak, c.bindings[i]);
    }
    StrHas(ModeName(c.mode));
    StrHas(c.executionSurfaceId);
    StrHas(c.executionPolicyVersion);
  }

  /** A commitment whose fields fit is encoded, and its bytes say each of its fields in its place. */
  lemma CommitmentLayout(keccak: Keccak, c: Commitment)
    requires c.version < 256 && c.chainId < WORD_LIMIT && IsHexOf(c.governor, 20) && |c.frozenAuthorization| == 32
    requires IsDecimal(c.proposalId) && DecimalValue(c.proposalId) < WORD_LIMIT
    requires forall i :: 0 <= i < |c.selectedActionIndexes| ==> c.selectedActionIndexes[i] < WORD_LIMIT
    requires forall i :: 0 <= i < |c.bindings| ==> c.bindings[i].actionIndex < WORD_LIMIT
    ensures EncodeCommitment(keccak, c).Some?
    ensures |EncodeCommitment(keccak, c).value| < WORD_LIMIT ==>
              var v := Decode(COMMITMENT_TYPE, EncodeCommitment(keccak, c).value, 0);
              v.Some? && HoldsCommitment(v.value, keccak, c)
  {
    hide HoldsCommitment, Decode, Encode, CommitmentValue, Conforms;
    CommitmentConforms(keccak, c);
    CommitmentHeld(keccak, c);
    if |EncodeCommitment(keccak, c).value| < WORD_LIMIT { RoundTrip(COMMITMENT_TYPE, CommitmentValue(keccak, c)); }
  }

  // ------------------------------------------------------------------ action authorization

  /** Action index, target, value, signature, calldata. */
  ghost predicate HoldsAction(v: Value, a: Action) {
    && v.TupleValue? && |v.items| == 5
    && HasNumber(v.items[0], a.actionIndex) && HasAddress(v.items[1], a.target) && HasNumber(v.items[2], a.value)
    && HasText(v.items[3], a.signature) && v.items[4] == BytesValue(a.calldata)
  }

  /** Domain, version, chain, Governor, family, proposal number, actions in order. */
  ghost predicate HoldsAuthorization(v: Value, a: Authorization) {
    && v.TupleValue? && |v.items| == 7
    && HasText(v.items[0], "MARKED_GOVERNOR_ACTION_AUTHORIZATION_V1")
    && HasNumber(v.items[1], a.version) && HasNumber(v.items[2], a.chainId) && HasAddress(v.items[3], a.governor)
    && HasText(v.items[4], "GOVERNOR_BRAVO") && HasNumber(v.items[5], DecimalValue(a.proposalId))
    && v.items[6].ArrayValue? && |v.items[6].items| == |a.actions|
    && forall i :: 0 <= i < |a.actions| ==> HoldsAction(v.items[6].items[i], a.actions[i])
  }

  lemma ActionHeld(a: Action)
    requires EncodableAction(a)
    ensures HoldsAction(ActionValue(a), a)
  {
    hide HasText, HasNumber, HasAddress, Str, Uint, Address;
    UintHas(a.actionIndex);
    AddressHas(a.target);
    UintHas(a.value);
    StrHas(a.signature);
  }

  lemma AuthorizationHeld(a: Authorization)
    requires EncodableAuthorization(a)
    ensures HoldsAuthorization(AuthorizationValue(a), a)
  {
    hide HasText, HasNumber, HasAddress, Str, Uint, Address, HoldsAction, ActionValue, DecimalValue;
    StrHas("MARKED_GOVERNOR_ACTION_AUTHORIZATION_V1");
    UintHas(a.version);
    UintHas(a.chainId);
    AddressHas(a.governor);
    StrHas(FamilyName(a.governorFamily));
    UintHas(DecimalValue(a.proposalId));
    forall i | 0 <= i < |a.actions| ensures HoldsAction(ActionValue(a.actions[i]), a.actions[i]) {
      ActionHeld(a.actions[i]);
    }
  }

  /** A Bravo bundle whose fields fit is encoded, its bytes saying each field in its place; no other family is. */
  lemma AuthorizationLayout(a: Authorization)
    requires a.version < 256 && a.chainId < WORD_LIMIT && IsHexOf(a.governor, 20)
    requires IsDecimal(a.proposalId) && DecimalValue(a.proposalId) < WORD_LIMIT
    requires forall i :: 0 <= i < |a.actions| ==>
               a.actions[i].actionIndex < WORD_LIMIT && IsHexOf(a.actions[i].target, 20) &&
               a.actions[i].value < WORD_LIMIT
    ensures EncodeAuthorization(a).Some? <==> a.governorFamily.GovernorBravo?
    ensures EncodeAuthorization(a).Some? && |EncodeAuthorization(a).value| < WORD_LIMIT ==>
              var v := Decode(AUTHORIZATION_TYPE, EncodeAuthorization(a).value, 0);
              v.Some? && HoldsAuthorization(v.value, a)
  {
    hide HoldsAuthorization, Decode, Encode, AuthorizationValue, Conforms;
    if EncodeAuthorization(a).Some? && |EncodeAuthorization(a).value| < WORD_LIMIT {
      AuthorizationConforms(a);
      AuthorizationHeld(a);
      RoundTrip(AUTHORIZATION_TYPE, AuthorizationValue(a));
    }
  }

  // ------------------------------------------------------------------ receipt

  /**
   * Domain, version, commitment hash, frozen hash, final hash, chain, Governor, family, proposal number, action index,
   * transaction, inclusion block, finality block, Governor state, coverage, verdict, status; the time is not there.
   */
  ghost predicate HoldsReceipt(v: Value, r: Receipt) {
    && v.TupleValue? && |v.items| == 17
    && HasText(v.items[0], "MARKED_RECEIPT_V1") && HasNumber(v.items[1], r.version)
    && v.items[2] == WordValue(r.commitmentHash) && v.items[3] == WordValue(r.frozenAuthorization)
    && v.items[4] == WordValue(r.finalAuthorization)
    && HasNumber(v.items[5], r.chainId) && HasAddress(v.items[6], r.governor)
    && HasFamily(v.items[7], r.governorFamily)
    && HasNumber(v.items[8], DecimalValue(r.proposalId)) && HasNumber(v.items[9], r.actionIndex)
    && v.items[10].WordValue? && Hex(v.items[10].word) == ToLower(r.executionTxHash)
    && HasNumber(v.items[11], r.executionBlock) && HasNumber(v.items[12], r.finalityBlock)
    && HasNumber(v.items[13], r.governorFinalState)
    && HasCoverage(v.items[14], r.coverage) && HasFlag(v.items[15], r.requiredAssertionsVerified)
    && HasText(v.items[16], if r.status.Verified? then "FULFILLED_VERIFIED" else "FULFILLED_UNVERIFIED")
  }

  lemma ReceiptItems(r: Receipt)
    requires EncodableReceipt(r)
    ensures var x := ReceiptValue(r);
            && x.TupleValue? && |x.items| == 17
            && x.items[0] == Str("MARKED_RECEIPT_V1") && x.items[1] == Uint(r.version)
            && x.items[2] == WordValue(r.commitmentHash) && x.items[3] == WordValue(r.frozenAuthorization)
            && x.items[4] == WordValue(r.finalAuthorization) && x.items[5] == Uint(r.chainId)
            && x.items[6] == Address(r.governor) && x.items[7] == Str(FamilyName(r.governorFamily))
            && x.items[8] == Uint(DecimalValue(r.proposalId)) && x.items[9] == Uint(r.actionIndex)
            && x.items[10] == WordValue(HexBytes(r.executionTxHash, 32)) && x.items[11] == Uint(r.executionBlock)
            && x.items[12] == Uint(r.finalityBlock) && x.items[13] == Uint(r.governorFinalState)
            && x.items[14] == Str(CoverageName(r.coverage)) && x.items[15] == Bool(r.requiredAssertionsVerified)
            && x.items[16] == Str(ReceiptStatusName(r.status))
  {
    hide Str, Uint, Bool, Address, DecimalValue, HexBytes, IsUint, IsUintText, CoverageName, ReceiptStatusName,
      FamilyName;
  }

  lemma ReceiptHeld(r: Receipt)
    requires EncodableReceipt(r)
    ensures HoldsReceipt(ReceiptValue(r), r)
  {
    hide HasText, HasNumber, HasAddress, HasFlag, HasFamily, HasCoverage, Str, Uint, Bool, Address, DecimalValue, Hex,
      HexBytes, ToLower, FamilyName, CoverageName, ReceiptStatusName, ReceiptValue;
    ReceiptItems(r);
    StrHas("MARKED_RECEIPT_V1");
    UintHas(r.version);
    UintHas(r.chainId);
    AddressHas(r.governor);
    FamilyHas(r.governorFamily);
    UintHas(DecimalValue(r.proposalId));
    UintHas(r.actionIndex);
    HexOfBytes(r.executionTxHash, 32);
    UintHas(r.executionBlock);
    UintHas(r.finalityBlock);
    UintHas(r.governorFinalState);
    CoverageHas(r.coverage);
    BoolHas(r.requiredAssertionsVerified);
    StatusHas(r.status);
  }

  /** A receipt whose fields fit is encoded, and its bytes say everything it attests, each in its place. */
  lemma ReceiptLayout(r: Receipt)
    requires r.version < 256 && |r.commitmentHash| == |r.frozenAuthorization| == |r.finalAuthorization| == 32
    requires r.chainId < WORD_LIMIT && IsHexOf(r.governor, 20) && IsHexOf(r.executionTxHash, 32)
    requires IsDecimal(r.proposalId) && DecimalValue(r.proposalId) < WORD_LIMIT && r.actionIndex < WORD_LIMIT
    requires r.executionBlock < WORD_LIMIT && r.finalityBlock < WORD_LIMIT && r.governorFinalState < WORD_LIMIT
    ensures EncodeReceipt(r).Some?
    ensures |EncodeReceipt(r).value| < WORD_LIMIT ==>
              var v := Decode(RECEIPT_TYPE, EncodeReceipt(r).value, 0); v.Some? && HoldsReceipt(v.value, r)
  {
    hide HoldsReceipt, Decode, Encode, ReceiptValue, Conforms;
    ReceiptConforms(r);
    ReceiptHeld(r);
    if |EncodeReceipt(r).value| < WORD_LIMIT { RoundTrip(RECEIPT_TYPE, ReceiptValue(r)); }
  }

  // ------------------------------------------------------------------ execution call

  /** Domain, chain, Governor, proposal number, function name, calldata, value. */
  ghost predicate HoldsPlan(v: Value, p: ExecutionPlan) {
    && v.TupleValue? && |v.items| == 7
    && HasText(v.items[0], "MARKED_EXECUTION_CALL_V1")
    && HasNumber(v.items[1], p.chainId) && HasAddress(v.items[2], p.governor)
    && HasNumber(v.items[3], DecimalValue(p.proposalId)) && HasText(v.items[4], p.functionName)
    && v.items[5] == BytesValue(p.calldata) && HasNumber(v.items[6], p.value)
  }

  lemma PlanHeld(p: ExecutionPlan)
    requires EncodablePlan(p)
    ensures HoldsPlan(PlanValue(p), p)
  {
    hide HasText, HasNumber, HasAddress, Str, Uint, Address, DecimalValue;
    StrHas("MARKED_EXECUTION_CALL_V1");
    UintHas(p.chainId);
    AddressHas(p.governor);
    UintHas(DecimalValue(p.proposalId));
    StrHas(p.functionName);
    UintHas(p.value);
  }

  /**
   * The plan of a proposal: a call of `execute(uint256)` that sends nothing, whose calldata is that function's selector
   * and the proposal number in one word; it is encoded, and its bytes say each of its fields in its place.
   */
  lemma PlanLayout(chainId: nat, governor: HexAddress, proposalId: string)
    requires chainId < WORD_LIMIT && IsHexOf(governor, 20)
    requires IsDecimal(proposalId) && DecimalValue(proposalId) < WORD_LIMIT
    ensures var p := BuildExecutionPlan(chainId, governor, proposalId);
            && p.chainId == chainId && p.governor == governor && p.proposalId == proposalId
            && p.functionName == "execute" && p.value == 0
            && |p.calldata| == 36 && p.calldata[..4] == [0xfe, 0x0d, 0x94, 0xc1]
            && BigEndian(p.calldata[4..]) == DecimalValue(proposalId)
            && EncodePlan(p).Some?
            && (|EncodePlan(p).value| < WORD_LIMIT ==>
                  var v := Decode(EXECUTION_CALL_TYPE, EncodePlan(p).value, 0); v.Some? && HoldsPlan(v.value, p))
  {
    hide HoldsPlan, Decode, Encode, PlanValue, Conforms, BigEndian, DecimalValue, ToWord;
    var p := BuildExecutionPlan(chainId, governor, proposalId);
    WordInverse(DecimalValue(proposalId));
    assert p.calldata[4..] == ToWord(DecimalValue(proposalId));
    PlanConforms(p);
    PlanHeld(p);
    if |EncodePlan(p).value| < WORD_LIMIT { RoundTrip(EXECUTION_CALL_TYPE, PlanValue(p)); }
  }
}
