/** The receipt and execution-call encodings, and the separation of all five hash domains. */
module Domains {
  import opened Abi
  import opened Bytes
  import opened Commitments
  import opened Governor
  import opened Jobs
  import opened Text
  import opened Utf8
  import opened Wrappers

  // ------------------------------------------------------------------ receipt

  const RECEIPT_DOMAIN := "MARKED_RECEIPT_V1"
  const RECEIPT_TYPE :=
    TupleType([BytesType, WordType, WordType, WordType, WordType, WordType, WordType, BytesType, WordType, WordType,
               WordType, WordType, WordType, WordType, BytesType, WordType, BytesType])

  function CoverageName(c: Coverage): string {
    match c
    case Full => "FULL"
    case Partial => "PARTIAL"
    case Unsupported => "UNSUPPORTED"
  }

  function ReceiptStatusName(s: ReceiptStatus): string {
    match s
    case Verified => "FULFILLED_VERIFIED"
    case Unverified => "FULFILLED_UNVERIFIED"
  }

  predicate EncodableReceipt(r: Receipt) {
    && r.version < 256 && |r.commitmentHash| == 32 && |r.frozenAuthorization| == 32 && |r.finalAuthorization| == 32
    && IsUint(r.chainId) && IsHexOf(r.governor, 20) && IsUintText(r.proposalId) && IsUint(r.actionIndex)
    && IsHexOf(r.executionTxHash, 32) && IsUint(r.executionBlock)
    && IsUint(r.finalityBlock) && IsUint(r.governorFinalState)
  }

  function ReceiptValue(r: Receipt): Value
    requires EncodableReceipt(r)
  {
    TupleValue([Str(RECEIPT_DOMAIN), Uint(r.version), WordValue(r.commitmentHash), WordValue(r.frozenAuthorization),
                WordValue(r.finalAuthorization), Uint(r.chainId), Address(r.governor),
                Str(FamilyName(r.governorFamily)), Uint(DecimalValue(r.proposalId)), Uint(r.actionIndex),
                WordValue(HexBytes(r.executionTxHash, 32)), Uint(r.executionBlock), Uint(r.finalityBlock),
                Uint(r.governorFinalState), Str(CoverageName(r.coverage)), Bool(r.requiredAssertionsVerified),
                Str(ReceiptStatusName(r.status))])
  }

  function EncodeReceipt(r: Receipt): Option<seq<Byte>> {
    if EncodableReceipt(r) then Some(Encode(ReceiptValue(r))) else None
  }

  /** Equal but for `observedAt`, the letter case of address and transaction hash, and the spelling of the number. */
  predicate SameReceipt(a: Receipt, b: Receipt) {
    && a.version == b.version && a.commitmentHash == b.commitmentHash && a.frozenAuthorization == b.frozenAuthorization
    && a.finalAuthorization == b.finalAuthorization
    && a.chainId == b.chainId && ToLower(a.governor) == ToLower(b.governor)
    && a.governorFamily == b.governorFamily && DecimalValue(a.proposalId) == DecimalValue(b.proposalId)
    && a.actionIndex == b.actionIndex && ToLower(a.executionTxHash) == ToLower(b.executionTxHash)
    && a.executionBlock == b.executionBlock && a.finalityBlock == b.finalityBlock
    && a.governorFinalState == b.governorFinalState && a.coverage == b.coverage
    && a.requiredAssertionsVerified == b.requiredAssertionsVerified && a.status == b.status
  }

  lemma ReceiptConforms(r: Receipt)
    requires EncodableReceipt(r)
    ensures Conforms(ReceiptValue(r), RECEIPT_TYPE)
  {
    hide ToWord, Utf8Bytes, HexBytes, CoverageName, ReceiptStatusName, FamilyName, DecimalValue;
  }

  lemma ReceiptNamesDiffer(a: Receipt, b: Receipt)
    ensures CoverageName(a.coverage) == CoverageName(b.coverage) ==> a.coverage == b.coverage
    ensures ReceiptStatusName(a.status) == ReceiptStatusName(b.status) ==> a.status == b.status
  {
  }

  lemma ReceiptValueDetermines(a: Receipt, b: Receipt)
    requires EncodableReceipt(a) && EncodableReceipt(b)
    ensures ReceiptValue(a) == ReceiptValue(b) <==> SameReceipt(a, b)
  {
    hide ToWord, Utf8Bytes, HexBytes, IsUint, ToLower, DecimalValue, FamilyName, CoverageName, ReceiptStatusName;
    AddressSame(a.governor, b.governor);
    HexUpToCase(a.executionTxHash, b.executionTxHash, 32);
    if ReceiptValue(a) == ReceiptValue(b) {
      var x, y := ReceiptValue(a).items, ReceiptValue(b).items;
      assert x[1] == y[1] && x[2] == y[2] && x[3] == y[3] && x[4] == y[4] &&
             x[5] == y[5] && x[6] == y[6] && x[7] == y[7] && x[8] == y[8];
      assert x[9] == y[9] && x[10] == y[10] && x[11] == y[11] && x[12] == y[12] &&
             x[13] == y[13] && x[14] == y[14] && x[15] == y[15] && x[16] == y[16];
      SmallFits(a.version);
      SmallFits(b.version);
      UintSame(a.version, b.version);
      UintSame(a.chainId, b.chainId);
      StrSame(FamilyName(a.governorFamily), FamilyName(b.governorFamily));
      FamilyNamesDiffer(a.governorFamily, b.governorFamily);
      UintSame(DecimalValue(a.proposalId), DecimalValue(b.proposalId));
      UintSame(a.actionIndex, b.actionIndex);
      UintSame(a.executionBlock, b.executionBlock);
      UintSame(a.finalityBlock, b.finalityBlock);
      UintSame(a.governorFinalState, b.governorFinalState);
      StrSame(CoverageName(a.coverage), CoverageName(b.coverage));
      BoolSame(a.requiredAssertionsVerified, b.requiredAssertionsVerified);
      StrSame(ReceiptStatusName(a.status), ReceiptStatusName(b.status));
      ReceiptNamesDiffer(a, b);
    }
  }

  /** The receipt hash fixes everything the receipt attests, and nothing about when it was assembled. */
  lemma ReceiptHashDetermines(keccak: Keccak, a: Receipt, b: Receipt)
    requires EncodableReceipt(a) && EncodableReceipt(b)
    requires var p := {EncodeReceipt(a).value, EncodeReceipt(b).value}; NoCollision(keccak, p) && Moderate(p)
    ensures keccak(EncodeReceipt(a).value) == keccak(EncodeReceipt(b).value) <==> SameReceipt(a, b)
  {
    hide ToWord, ReceiptValue, Encode, Conforms, EncodableReceipt, SameReceipt;
    var ea, eb := EncodeReceipt(a).value, EncodeReceipt(b).value;
    assert ea == Encode(ReceiptValue(a)) && eb == Encode(ReceiptValue(b));
    ReceiptValueDetermines(a, b);
    if keccak(ea) == keccak(eb) {
      ReceiptConforms(a);
      ReceiptConforms(b);
      EncodingIsInjective(RECEIPT_TYPE, ReceiptValue(a), ReceiptValue(b));
    }
  }

  // ------------------------------------------------------------------ execution call

  const EXECUTION_CALL_DOMAIN := "MARKED_EXECUTION_CALL_V1"
  const EXECUTION_CALL_TYPE := TupleType([BytesType, WordType, WordType, WordType, BytesType, BytesType, WordType])

  /** A Bravo `execute(uint256)` call for a coordinate; its calldata is built from the proposal number. */
  datatype ExecutionPlan = ExecutionPlan(
    chainId: nat, governor: HexAddress, proposalId: string, functionName: string, calldata: seq<Byte>, value: nat)

  const EXECUTE_SELECTOR: seq<Byte> := [0xfe, 0x0d, 0x94, 0xc1]

  function BuildExecutionPlan(chainId: nat, governor: HexAddress, proposalId: string): ExecutionPlan {
    ExecutionPlan(chainId, governor, proposalId, "execute", EXECUTE_SELECTOR + ToWord(DecimalValue(proposalId)), 0)
  }

  predicate EncodablePlan(p: ExecutionPlan) {
    IsUint(p.chainId) && IsHexOf(p.governor, 20) && IsUintText(p.proposalId) && IsUint(p.value)
  }

  function PlanValue(p: ExecutionPlan): Value
    requires EncodablePlan(p)
  {
    TupleValue([Str(EXECUTION_CALL_DOMAIN), Uint(p.chainId), Address(p.governor), Uint(DecimalValue(p.proposalId)),
                Str(p.functionName), BytesValue(p.calldata), Uint(p.value)])
  }

  function EncodePlan(p: ExecutionPlan): Option<seq<Byte>> {
    if EncodablePlan(p) then Some(Encode(PlanValue(p))) else None
  }

  lemma PlanConforms(p: ExecutionPlan)
    requires EncodablePlan(p)
    ensures Conforms(PlanValue(p), EXECUTION_CALL_TYPE)
  {
    hide ToWord, Utf8Bytes, HexBytes, DecimalValue;
  }

  /** Equal execution-call hashes mean the same lifecycle call: chain, Governor and proposal number. */
  lemma PlanHashDetermines(keccak: Keccak, a: ExecutionPlan, b: ExecutionPlan)
    requires EncodablePlan(a) && EncodablePlan(b)
    requires a == BuildExecutionPlan(a.chainId, a.governor, a.proposalId) &&
             b == BuildExecutionPlan(b.chainId, b.governor, b.proposalId)
    requires var p := {EncodePlan(a).value, EncodePlan(b).value}; NoCollision(keccak, p) && Moderate(p)
    ensures keccak(EncodePlan(a).value) == keccak(EncodePlan(b).value) <==>
              a.chainId == b.chainId && ToLower(a.governor) == ToLower(b.governor) &&
              DecimalValue(a.proposalId) == DecimalValue(b.proposalId)
  {
    hide ToWord, Utf8Bytes, HexBytes, Encode, Conforms, ToLower, DecimalValue, IsUint;
    var ea, eb := EncodePlan(a).value, EncodePlan(b).value;
    AddressSame(a.governor, b.governor);
    if keccak(ea) == keccak(eb) {
      PlanConforms(a);
      PlanConforms(b);
      EncodingIsInjective(EXECUTION_CALL_TYPE, PlanValue(a), PlanValue(b));
      var x, y := PlanValue(a).items, PlanValue(b).items;
      assert x[1] == y[1] && x[2] == y[2] && x[3] == y[3];
      UintSame(a.chainId, b.chainId);
      UintSame(DecimalValue(a.proposalId), DecimalValue(b.proposalId));
    }
  }

  // ------------------------------------------------------------------ separation

  /** The domain string an encoding starts with, read back without knowing which of the five it is. */
  function DomainOf(data: seq<Byte>): Option<Value> {
    LeadingBytes(data)
  }

  lemma DomainOfBinding(b: Binding)
    requires EncodeBinding(b).Some? && |EncodeBinding(b).value| < WORD_LIMIT
    ensures DomainOf(EncodeBinding(b).value) == Some(Str(BINDING_DOMAIN))
  {
    hide ToWord, Utf8Bytes, Encode, Conforms, Decode;
    BindingConforms(b);
    LeadingBytesOf(BINDING_TYPE, BindingValue(b));
  }

  lemma DomainOfCommitment(keccak: Keccak, c: Commitment)
    requires EncodeCommitment(keccak, c).Some? && |EncodeCommitment(keccak, c).value| < WORD_LIMIT
    ensures DomainOf(EncodeCommitment(keccak, c).value) == Some(Str(COMMITMENT_DOMAIN))
  {
    hide ToWord, Utf8Bytes, Encode, Conforms, Decode, SummariesValue, IndexesValue, HexBytes;
    CommitmentConforms(keccak, c);
    LeadingBytesOf(COMMITMENT_TYPE, CommitmentValue(keccak, c));
  }

  lemma DomainOfAuthorization(a: Authorization)
    requires EncodeAuthorization(a).Some? && |EncodeAuthorization(a).value| < WORD_LIMIT
    ensures DomainOf(EncodeAuthorization(a).value) == Some(Str(AUTHORIZATION_DOMAIN))
  {
    hide ToWord, Utf8Bytes, Encode, Conforms, Decode, ActionsValue, HexBytes;
    AuthorizationConforms(a);
    LeadingBytesOf(AUTHORIZATION_TYPE, AuthorizationValue(a));
  }

  lemma DomainOfReceipt(r: Receipt)
    requires EncodeReceipt(r).Some? && |EncodeReceipt(r).value| < WORD_LIMIT
    ensures DomainOf(EncodeReceipt(r).value) == Some(Str(RECEIPT_DOMAIN))
  {
    hide ToWord, Utf8Bytes, Encode, Conforms, Decode, HexBytes;
    ReceiptConforms(r);
    LeadingBytesOf(RECEIPT_TYPE, ReceiptValue(r));
  }

  lemma DomainOfPlan(p: ExecutionPlan)
    requires EncodePlan(p).Some? && |EncodePlan(p).value| < WORD_LIMIT
    ensures DomainOf(EncodePlan(p).value) == Some(Str(EXECUTION_CALL_DOMAIN))
  {
    hide ToWord, Utf8Bytes, Encode, Conforms, Decode, HexBytes;
    PlanConforms(p);
    LeadingBytesOf(EXECUTION_CALL_TYPE, PlanValue(p));
  }

  lemma NamesDiffer(s: string, t: string)
    requires s != t
    ensures Str(s) != Str(t)
  {
    if Str(s) == Str(t) { StrSame(s, t); }
  }

  /** One object of each domain: five different byte strings, although three encodings share a seven-word head. */
  lemma DomainsNeverMeet(keccak: Keccak, b: Binding, c: Commitment, a: Authorization, r: Receipt, p: ExecutionPlan)
    requires EncodeBinding(b).Some? && EncodeCommitment(keccak, c).Some? && EncodeAuthorization(a).Some?
    requires EncodeReceipt(r).Some? && EncodePlan(p).Some?
    requires Moderate({EncodeBinding(b).value, EncodeCommitment(keccak, c).value, EncodeAuthorization(a).value,
                       EncodeReceipt(r).value, EncodePlan(p).value})
    ensures |{EncodeBinding(b).value, EncodeCommitment(keccak, c).value, EncodeAuthorization(a).value,
              EncodeReceipt(r).value, EncodePlan(p).value}| == 5
  {
    hide DomainOf, Str, EncodeBinding, EncodeCommitment, EncodeAuthorization, EncodeReceipt, EncodePlan;
    DomainOfBinding(b);
    DomainOfCommitment(keccak, c);
    DomainOfAuthorization(a);
    DomainOfReceipt(r);
    DomainOfPlan(p);
    var names := [BINDING_DOMAIN, COMMITMENT_DOMAIN, AUTHORIZATION_DOMAIN, RECEIPT_DOMAIN, EXECUTION_CALL_DOMAIN];
    forall i, k | 0 <= i < k < 5 ensures Str(names[i]) != Str(names[k]) {
      DomainNamesDiffer(i, k);
      NamesDiffer(names[i], names[k]);
    }
    var x := [EncodeBinding(b).value, EncodeCommitment(keccak, c).value, EncodeAuthorization(a).value,
              EncodeReceipt(r).value, EncodePlan(p).value];
    forall i, k | 0 <= i < k < 5 ensures x[i] != x[k] {
      assert DomainOf(x[i]) == Some(Str(names[i])) && DomainOf(x[k]) == Some(Str(names[k]));
    }
    FiveApart(x[0], x[1], x[2], x[3], x[4]);
  }

  lemma DomainNamesDiffer(i: nat, k: nat)
    requires i < k < 5
    ensures var names := [BINDING_DOMAIN, COMMITMENT_DOMAIN, AUTHORIZATION_DOMAIN, RECEIPT_DOMAIN,
                          EXECUTION_CALL_DOMAIN];
            names[i] != names[k]
  {
    assert |BINDING_DOMAIN| == 31 && |COMMITMENT_DOMAIN| == 32 && |AUTHORIZATION_DOMAIN| == 39;
    assert |RECEIPT_DOMAIN| == 17 && |EXECUTION_CALL_DOMAIN| == 24;
  }

  lemma FiveApart<T>(a: T, b: T, c: T, d: T, e: T)
    requires a != b && a != c && a != d && a != e && b != c && b != d && b != e && c != d && c != e && d != e
    ensures |{a, b, c, d, e}| == 5
  {
    assert {a, b, c, d, e} == {a} + {b} + {c} + {d} + {e};
  }
}
