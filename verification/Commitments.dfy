/**
 * The five hash domains: postcondition binding, fulfilment commitment, action authorization, receipt and execution
 * call. Keccak-256 is a parameter; "no collision" is asked of the finitely many encodings a statement is about.
 */
module Commitments {
  import opened Abi
  import opened Bytes
  import opened Governor
  import opened Jobs
  import opened StateMachine
  import opened Text
  import opened Utf8
  import opened Wrappers

  type Word32 = w: seq<Byte> | |w| == 32 witness Zeros(32)

  type Keccak = seq<Byte> -> Word32

  // ------------------------------------------------------------------ hex text

  predicate IsHexDigit(c: char) {
    IsDigit(c) || 'a' <= c <= 'f' || 'A' <= c <= 'F'
  }

  function Nibble(c: char): (n: nat)
    requires IsHexDigit(c)
    ensures n < 16
  {
    if IsDigit(c) then c as int - '0' as int
    else if 'a' <= c then c as int - 'a' as int + 10
    else c as int - 'A' as int + 10
  }

  /** `0x` and exactly `n` bytes of hex digits. */
  predicate IsHexOf(s: string, n: nat) {
    |s| == 2 + 2 * n && s[0] == '0' && s[1] == 'x' && forall i :: 2 <= i < |s| ==> IsHexDigit(s[i])
  }

  function HexBytes(s: string, n: nat): (b: seq<Byte>)
    requires IsHexOf(s, n)
    ensures |b| == n
  {
    seq(n, i requires 0 <= i < n => 16 * Nibble(s[2 + 2 * i]) + Nibble(s[3 + 2 * i]))
  }

  lemma NibbleUpToCase(c: char, d: char)
    requires IsHexDigit(c) && IsHexDigit(d)
    ensures Nibble(c) == Nibble(d) <==> LowerChar(c) == LowerChar(d)
  {
  }

  lemma ByteUpToCase(s: string, t: string, n: nat, k: nat)
    requires IsHexOf(s, n) && IsHexOf(t, n) && k < n
    ensures HexBytes(s, n)[k] == HexBytes(t, n)[k] <==>
              LowerChar(s[2 + 2 * k]) == LowerChar(t[2 + 2 * k]) && LowerChar(s[3 + 2 * k]) == LowerChar(t[3 + 2 * k])
  {
    hide LowerChar, Nibble;
    NibbleUpToCase(s[2 + 2 * k], t[2 + 2 * k]);
    NibbleUpToCase(s[3 + 2 * k], t[3 + 2 * k]);
  }

  /** The same bytes exactly when the text is the same up to letter case. */
  lemma HexUpToCase(s: string, t: string, n: nat)
    requires IsHexOf(s, n) && IsHexOf(t, n)
    ensures HexBytes(s, n) == HexBytes(t, n) <==> ToLower(s) == ToLower(t)
  {
    hide LowerChar, HexBytes;
    if HexBytes(s, n) == HexBytes(t, n) {
      forall i | 0 <= i < |s| ensures ToLower(s)[i] == ToLower(t)[i] {
        if i >= 2 {
          ByteUpToCase(s, t, n, (i - 2) / 2);
        }
      }
    }
    if ToLower(s) == ToLower(t) {
      forall k | 0 <= k < n ensures HexBytes(s, n)[k] == HexBytes(t, n)[k] {
        assert ToLower(s)[2 + 2 * k] == ToLower(t)[2 + 2 * k];
        assert ToLower(s)[3 + 2 * k] == ToLower(t)[3 + 2 * k];
        ByteUpToCase(s, t, n, k);
      }
    }
  }

  // ------------------------------------------------------------------ leaves

  function Str(s: string): Value {
    BytesValue(Utf8Bytes(s))
  }

  function Uint(n: nat): Value {
    WordValue(ToWord(n))
  }

  function Bool(b: bool): Value {
    Uint(if b then 1 else 0)
  }

  /** 20 bytes, right-aligned in the word. */
  function Address(a: HexAddress): Value
    requires IsHexOf(a, 20)
  {
    WordValue(Zeros(12) + HexBytes(a, 20))
  }

  predicate IsUint(n: nat) {
    n < WORD_LIMIT
  }

  predicate IsUintText(s: string) {
    IsDecimal(s) && DecimalValue(s) < WORD_LIMIT
  }

  lemma StrSame(s: string, t: string)
    requires Str(s) == Str(t)
    ensures s == t
  {
    Utf8Injective(s, t);
  }

  lemma UintSame(m: nat, n: nat)
    requires IsUint(m) && IsUint(n) && Uint(m) == Uint(n)
    ensures m == n
  {
    WordsDiffer(m, n);
  }

  lemma SmallFits(n: nat)
    ensures n < 256 ==> IsUint(n)
  {
  }

  lemma BoolSame(x: bool, y: bool)
    requires Bool(x) == Bool(y)
    ensures x == y
  {
    SmallFits(0);
    SmallFits(1);
    UintSame(if x then 1 else 0, if y then 1 else 0);
  }

  lemma AddressSame(a: HexAddress, b: HexAddress)
    requires IsHexOf(a, 20) && IsHexOf(b, 20)
    ensures Address(a) == Address(b) <==> ToLower(a) == ToLower(b)
  {
    HexUpToCase(a, b, 20);
    assert (Zeros(12) + HexBytes(a, 20))[12..] == HexBytes(a, 20);
    assert (Zeros(12) + HexBytes(b, 20))[12..] == HexBytes(b, 20);
  }

  // ------------------------------------------------------------------ postcondition binding

  const BINDING_DOMAIN := "MARKED_POSTCONDITION_BINDING_V1"
  const PARAM_TYPE := TupleType([BytesType, BytesType])
  const BINDING_TYPE :=
    TupleType([BytesType, WordType, WordType, BytesType, BytesType, WordType, ArrayType(PARAM_TYPE)])

  function ParamValue(p: BindingParam): Value {
    TupleValue([Str(p.key), Str(p.value)])
  }

  function BindingValue(b: Binding): Value {
    TupleValue([Str(BINDING_DOMAIN), Uint(1), Uint(b.actionIndex), Str(b.adapterId), Str(b.adapterVersion),
                Bool(b.required),
                ArrayValue(seq(|b.params|, i requires 0 <= i < |b.params| => ParamValue(b.params[i])))])
  }

  /** Absent where the encoder throws. */
  function EncodeBinding(b: Binding): Option<seq<Byte>> {
    if IsUint(b.actionIndex) then Some(Encode(BindingValue(b))) else None
  }

  lemma BindingConforms(b: Binding)
    ensures Conforms(BindingValue(b), BINDING_TYPE)
  {
    hide ToWord, Utf8Bytes;
  }

  lemma BindingValueDetermines(a: Binding, b: Binding)
    requires IsUint(a.actionIndex) && IsUint(b.actionIndex) && BindingValue(a) == BindingValue(b)
    ensures a == b
  {
    hide ToWord, Utf8Bytes, IsUint;
    var x, y := BindingValue(a).items, BindingValue(b).items;
    assert x[2] == y[2] && x[3] == y[3] && x[4] == y[4] && x[5] == y[5] && x[6] == y[6];
    UintSame(a.actionIndex, b.actionIndex);
    StrSame(a.adapterId, b.adapterId);
    StrSame(a.adapterVersion, b.adapterVersion);
    BoolSame(a.required, b.required);
    assert |x[6].items| == |y[6].items|;
    forall i | 0 <= i < |a.params| ensures a.params[i] == b.params[i] {
      assert x[6].items[i] == y[6].items[i];
      assert x[6].items[i].items[0] == y[6].items[i].items[0] && x[6].items[i].items[1] == y[6].items[i].items[1];
      StrSame(a.params[i].key, b.params[i].key);
      StrSame(a.params[i].value, b.params[i].value);
    }
  }

  /** Equal encodings are encodings of equal bindings, every parameter included. */
  lemma BindingEncodingInjective(a: Binding, b: Binding)
    requires EncodeBinding(a).Some? && EncodeBinding(a) == EncodeBinding(b) && |EncodeBinding(a).value| < WORD_LIMIT
    ensures a == b
  {
    BindingConforms(a);
    BindingConforms(b);
    EncodingIsInjective(BINDING_TYPE, BindingValue(a), BindingValue(b));
    BindingValueDetermines(a, b);
  }

  // ------------------------------------------------------------------ fulfilment commitment

  const COMMITMENT_DOMAIN := "MARKED_FULFILLMENT_COMMITMENT_V1"
  const SUMMARY_TYPE := TupleType([WordType, BytesType, BytesType, WordType, WordType])
  const COMMITMENT_TYPE :=
    TupleType([BytesType, WordType, WordType, WordType, BytesType, WordType, WordType, ArrayType(WordType),
               ArrayType(SUMMARY_TYPE), BytesType, BytesType, BytesType])

  function FamilyName(f: GovernorFamily): string {
    match f
    case GovernorBravo => "GOVERNOR_BRAVO"
    case OpenZeppelinGovernor => "OPENZEPPELIN_GOVERNOR"
  }

  function ModeName(m: Mode): string {
    match m
    case Auto => "AUTO"
    case Approve => "APPROVE"
  }

  /** What the encoders accept; they throw on anything else. */
  predicate Encodable(c: Commitment) {
    && c.version < 256 && IsUint(c.chainId) && IsHexOf(c.governor, 20) && IsUintText(c.proposalId)
    && |c.frozenAuthorization| == 32
    && (forall i :: 0 <= i < |c.selectedActionIndexes| ==> IsUint(c.selectedActionIndexes[i]))
    && (forall i :: 0 <= i < |c.bindings| ==> IsUint(c.bindings[i].actionIndex))
  }

  function BindingHash(keccak: Keccak, b: Binding): Word32
    requires IsUint(b.actionIndex)
  {
    keccak(EncodeBinding(b).value)
  }

  function SummaryValue(keccak: Keccak, b: Binding): Value
    requires IsUint(b.actionIndex)
  {
    TupleValue([Uint(b.actionIndex), Str(b.adapterId), Str(b.adapterVersion), Bool(b.required),
                WordValue(BindingHash(keccak, b))])
  }

  function IndexesValue(xs: seq<nat>): Value {
    ArrayValue(seq(|xs|, i requires 0 <= i < |xs| => Uint(xs[i])))
  }

  function SummariesValue(keccak: Keccak, bs: seq<Binding>): Value
    requires forall i :: 0 <= i < |bs| ==> IsUint(bs[i].actionIndex)
  {
    ArrayValue(seq(|bs|, i requires 0 <= i < |bs| => SummaryValue(keccak, bs[i])))
  }

  function CommitmentValue(keccak: Keccak, c: Commitment): Value
    requires Encodable(c)
  {
    TupleValue([Str(COMMITMENT_DOMAIN), Uint(c.version), Uint(c.chainId), Address(c.governor),
                Str(FamilyName(c.governorFamily)), Uint(DecimalValue(c.proposalId)), WordValue(c.frozenAuthorization),
                IndexesValue(c.selectedActionIndexes), SummariesValue(keccak, c.bindings), Str(ModeName(c.mode)),
                Str(c.executionSurfaceId), Str(c.executionPolicyVersion)])
  }

  function EncodeCommitment(keccak: Keccak, c: Commitment): Option<seq<Byte>> {
    if Encodable(c) then Some(Encode(CommitmentValue(keccak, c))) else None
  }

  /** Equal in everything but the letter case of the Governor's address and the spelling of the proposal number. */
  predicate SameCommitment(a: Commitment, b: Commitment) {
    && a.version == b.version && a.chainId == b.chainId && ToLower(a.governor) == ToLower(b.governor)
    && a.governorFamily == b.governorFamily && DecimalValue(a.proposalId) == DecimalValue(b.proposalId)
    && a.frozenAuthorization == b.frozenAuthorization && a.selectedActionIndexes == b.selectedActionIndexes
    && a.bindings == b.bindings && a.mode == b.mode
    && a.executionSurfaceId == b.executionSurfaceId && a.executionPolicyVersion == b.executionPolicyVersion
  }

  ghost predicate NoCollision(keccak: Keccak, preimages: set<seq<Byte>>) {
    forall x, y :: x in preimages && y in preimages && keccak(x) == keccak(y) ==> x == y
  }

  /** Every string keccak is applied to when a commitment is hashed. */
  ghost function Preimages(keccak: Keccak, c: Commitment): set<seq<Byte>>
    requires Encodable(c)
  {
    {EncodeCommitment(keccak, c).value} + (set i | 0 <= i < |c.bindings| :: EncodeBinding(c.bindings[i]).value)
  }

  /** No encoding reaches 2^256 bytes. */
  ghost predicate Moderate(preimages: set<seq<Byte>>) {
    forall x :: x in preimages ==> |x| < WORD_LIMIT
  }

  lemma SummaryConforms(keccak: Keccak, b: Binding)
    requires IsUint(b.actionIndex)
    ensures Conforms(SummaryValue(keccak, b), SUMMARY_TYPE)
  {
    hide ToWord, Utf8Bytes, EncodeBinding;
  }

  lemma ListsConform(keccak: Keccak, c: Commitment)
    requires Encodable(c)
    ensures Conforms(IndexesValue(c.selectedActionIndexes), ArrayType(WordType))
    ensures Conforms(SummariesValue(keccak, c.bindings), ArrayType(SUMMARY_TYPE))
  {
    hide ToWord, SummaryValue;
    forall i | 0 <= i < |c.bindings| ensures Conforms(SummaryValue(keccak, c.bindings[i]), SUMMARY_TYPE) {
      SummaryConforms(keccak, c.bindings[i]);
    }
  }

  lemma CommitmentConforms(keccak: Keccak, c: Commitment)
    requires Encodable(c)
    ensures Conforms(CommitmentValue(keccak, c), COMMITMENT_TYPE)
  {
    hide ToWord, Utf8Bytes, SummariesValue, IndexesValue, HexBytes;
    ListsConform(keccak, c);
  }

  lemma IndexesDetermine(xs: seq<nat>, ys: seq<nat>)
    requires forall i :: 0 <= i < |xs| ==> IsUint(xs[i])
    requires forall i :: 0 <= i < |ys| ==> IsUint(ys[i])
    requires IndexesValue(xs) == IndexesValue(ys)
    ensures xs == ys
  {
    hide ToWord, IsUint;
    assert |IndexesValue(xs).items| == |IndexesValue(ys).items|;
    forall i | 0 <= i < |xs| ensures xs[i] == ys[i] {
      assert IndexesValue(xs).items[i] == IndexesValue(ys).items[i];
      UintSame(xs[i], ys[i]);
    }
  }

  lemma SummariesDetermine(keccak: Keccak, a: seq<Binding>, b: seq<Binding>, preimages: set<seq<Byte>>)
    requires forall i :: 0 <= i < |a| ==> IsUint(a[i].actionIndex) && EncodeBinding(a[i]).value in preimages
    requires forall i :: 0 <= i < |b| ==> IsUint(b[i].actionIndex) && EncodeBinding(b[i]).value in preimages
    requires NoCollision(keccak, preimages) && Moderate(preimages)
    requires SummariesValue(keccak, a) == SummariesValue(keccak, b)
    ensures a == b
  {
    hide ToWord, Utf8Bytes, IsUint, EncodeBinding;
    assert |SummariesValue(keccak, a).items| == |SummariesValue(keccak, b).items|;
    forall i | 0 <= i < |a| ensures a[i] == b[i] {
      var x, y := SummaryValue(keccak, a[i]), SummaryValue(keccak, b[i]);
      assert SummariesValue(keccak, a).items[i] == x && SummariesValue(keccak, b).items[i] == y;
      assert x.items[4] == y.items[4];
      assert EncodeBinding(a[i]).Some? && EncodeBinding(b[i]).Some? by { Encoded(a[i]); Encoded(b[i]); }
      BindingEncodingInjective(a[i], b[i]);
    }
  }

  lemma Encoded(b: Binding)
    requires IsUint(b.actionIndex)
    ensures EncodeBinding(b).Some?
  {
  }

  lemma FamilyNamesDiffer(f: GovernorFamily, g: GovernorFamily)
    requires FamilyName(f) == FamilyName(g)
    ensures f == g
  {
  }

  lemma ModeNamesDiffer(m: Mode, n: Mode)
    requires ModeName(m) == ModeName(n)
    ensures m == n
  {
  }

  lemma CommitmentValueDetermines(keccak: Keccak, a: Commitment, b: Commitment, preimages: set<seq<Byte>>)
    requires Encodable(a) && Encodable(b) && CommitmentValue(keccak, a) == CommitmentValue(keccak, b)
    requires Preimages(keccak, a) + Preimages(keccak, b) <= preimages &&
             NoCollision(keccak, preimages) && Moderate(preimages)
    ensures SameCommitment(a, b)
  {
    hide ToWord, Utf8Bytes, IsUint, SummariesValue, IndexesValue, HexBytes, EncodeBinding, Encode, NoCollision,
      Moderate, FamilyName, ModeName, ToLower, DecimalValue, Zeros;
    var x, y := CommitmentValue(keccak, a).items, CommitmentValue(keccak, b).items;
    assert x[1] == y[1] && x[2] == y[2] && x[3] == y[3] && x[4] == y[4] && x[5] == y[5] && x[6] == y[6] && x[7] == y[7];
    assert x[8] == y[8] && x[9] == y[9] && x[10] == y[10] && x[11] == y[11];
    SmallFits(a.version);
    SmallFits(b.version);
    UintSame(a.version, b.version);
    UintSame(a.chainId, b.chainId);
    AddressSame(a.governor, b.governor);
    StrSame(FamilyName(a.governorFamily), FamilyName(b.governorFamily));
    FamilyNamesDiffer(a.governorFamily, b.governorFamily);
    UintSame(DecimalValue(a.proposalId), DecimalValue(b.proposalId));
    IndexesDetermine(a.selectedActionIndexes, b.selectedActionIndexes);
    SummariesDetermine(keccak, a.bindings, b.bindings, preimages);
    StrSame(ModeName(a.mode), ModeName(b.mode));
    ModeNamesDiffer(a.mode, b.mode);
    StrSame(a.executionSurfaceId, b.executionSurfaceId);
    StrSame(a.executionPolicyVersion, b.executionPolicyVersion);
  }

  lemma SameCommitmentSameValue(keccak: Keccak, a: Commitment, b: Commitment)
    requires Encodable(a) && Encodable(b) && SameCommitment(a, b)
    ensures CommitmentValue(keccak, a) == CommitmentValue(keccak, b)
  {
    hide ToWord, Utf8Bytes, SummariesValue, IndexesValue, HexBytes, ToLower, DecimalValue;
    AddressSame(a.governor, b.governor);
  }

  /**
   * Two commitments have the same hash exactly when they are the same but for address case and numeric spelling:
   * selections, mode, authorization hash, and every parameter of every binding nested inside.
   */
  lemma CommitmentHashDetermines(keccak: Keccak, a: Commitment, b: Commitment)
    requires Encodable(a) && Encodable(b)
    requires var p := Preimages(keccak, a) + Preimages(keccak, b); NoCollision(keccak, p) && Moderate(p)
    ensures keccak(EncodeCommitment(keccak, a).value) == keccak(EncodeCommitment(keccak, b).value) <==>
        SameCommitment(a, b)
  {
    hide ToWord, CommitmentValue, Encode, EncodeBinding, Conforms, Encodable, SameCommitment;
    var p := Preimages(keccak, a) + Preimages(keccak, b);
    var ea, eb := EncodeCommitment(keccak, a).value, EncodeCommitment(keccak, b).value;
    assert ea in p && eb in p && ea == Encode(CommitmentValue(keccak, a)) && eb == Encode(CommitmentValue(keccak, b));
    if keccak(ea) == keccak(eb) {
      CommitmentConforms(keccak, a);
      CommitmentConforms(keccak, b);
      EncodingIsInjective(COMMITMENT_TYPE, CommitmentValue(keccak, a), CommitmentValue(keccak, b));
      CommitmentValueDetermines(keccak, a, b, p);
    }
    if SameCommitment(a, b) {
      SameCommitmentSameValue(keccak, a, b);
    }
  }

  // ------------------------------------------------------------------ action authorization

  const AUTHORIZATION_DOMAIN := "MARKED_GOVERNOR_ACTION_AUTHORIZATION_V1"
  const ACTION_TYPE := TupleType([WordType, WordType, WordType, BytesType, BytesType])
  const AUTHORIZATION_TYPE :=
    TupleType([BytesType, WordType, WordType, WordType, BytesType, WordType, ArrayType(ACTION_TYPE)])

  predicate EncodableAction(a: Action) {
    IsUint(a.actionIndex) && IsHexOf(a.target, 20) && IsUint(a.value)
  }

  predicate EncodableAuthorization(a: Authorization) {
    && a.governorFamily.GovernorBravo?
    && a.version < 256 && IsUint(a.chainId) && IsHexOf(a.governor, 20) && IsUintText(a.proposalId)
    && (forall i :: 0 <= i < |a.actions| ==> EncodableAction(a.actions[i]))
  }

  function ActionValue(a: Action): Value
    requires EncodableAction(a)
  {
    TupleValue([Uint(a.actionIndex), Address(a.target), Uint(a.value), Str(a.signature), BytesValue(a.calldata)])
  }

  function ActionsValue(actions: seq<Action>): Value
    requires forall i :: 0 <= i < |actions| ==> EncodableAction(actions[i])
  {
    ArrayValue(seq(|actions|, i requires 0 <= i < |actions| => ActionValue(actions[i])))
  }

  function AuthorizationValue(a: Authorization): Value
    requires EncodableAuthorization(a)
  {
    TupleValue([Str(AUTHORIZATION_DOMAIN), Uint(a.version), Uint(a.chainId), Address(a.governor),
                Str(FamilyName(a.governorFamily)),
                Uint(DecimalValue(a.proposalId)), ActionsValue(a.actions)])
  }

  /** Absent for a family other than Governor Bravo, and where the encoder throws. */
  function EncodeAuthorization(a: Authorization): Option<seq<Byte>> {
    if EncodableAuthorization(a) then Some(Encode(AuthorizationValue(a))) else None
  }

  predicate SameAuthorization(a: Authorization, b: Authorization) {
    && a.version == b.version && a.chainId == b.chainId && ToLower(a.governor) == ToLower(b.governor)
    && DecimalValue(a.proposalId) == DecimalValue(b.proposalId) && SameActions(a.actions, b.actions)
  }

  lemma ActionConforms(a: Action)
    requires EncodableAction(a)
    ensures Conforms(ActionValue(a), ACTION_TYPE)
  {
    hide ToWord, Utf8Bytes, HexBytes;
  }

  lemma AuthorizationConforms(a: Authorization)
    requires EncodableAuthorization(a)
    ensures Conforms(AuthorizationValue(a), AUTHORIZATION_TYPE)
  {
    hide ToWord, Utf8Bytes, HexBytes, ActionValue;
    forall i | 0 <= i < |a.actions|
      ensures Conforms(ActionValue(a.actions[i]), ACTION_TYPE)
    {
      ActionConforms(a.actions[i]);
    }
  }

  lemma ActionValueDetermines(a: Action, b: Action)
    requires EncodableAction(a) && EncodableAction(b)
    ensures ActionValue(a) == ActionValue(b) <==> SameAction(a, b)
  {
    hide ToWord, Utf8Bytes, HexBytes, IsUint, ToLower, IsHexOf;
    AddressSame(a.target, b.target);
    if ActionValue(a) == ActionValue(b) {
      var x, y := ActionValue(a).items, ActionValue(b).items;
      assert x[0] == y[0] && x[1] == y[1] && x[2] == y[2] && x[3] == y[3] && x[4] == y[4];
      UintSame(a.actionIndex, b.actionIndex);
      UintSame(a.value, b.value);
      StrSame(a.signature, b.signature);
    }
  }

  lemma ActionsDetermine(xs: seq<Action>, ys: seq<Action>)
    requires forall i :: 0 <= i < |xs| ==> EncodableAction(xs[i])
    requires forall i :: 0 <= i < |ys| ==> EncodableAction(ys[i])
    ensures ActionsValue(xs) == ActionsValue(ys) <==> SameActions(xs, ys)
  {
    hide ActionValue, SameAction, EncodableAction;
    if |xs| == |ys| {
      forall i | 0 <= i < |xs| ensures ActionValue(xs[i]) == ActionValue(ys[i]) <==> SameAction(xs[i], ys[i]) {
        ActionValueDetermines(xs[i], ys[i]);
      }
      if ActionsValue(xs) == ActionsValue(ys) {
        forall i | 0 <= i < |xs| ensures SameAction(xs[i], ys[i]) {
          assert ActionsValue(xs).items[i] == ActionsValue(ys).items[i];
        }
      }
      if SameActions(xs, ys) { assert ActionsValue(xs).items == ActionsValue(ys).items; }
    } else {
      assert |ActionsValue(xs).items| != |ActionsValue(ys).items|;
    }
  }

  lemma AuthorizationValueDetermines(a: Authorization, b: Authorization)
    requires EncodableAuthorization(a) && EncodableAuthorization(b)
    ensures AuthorizationValue(a) == AuthorizationValue(b) <==> SameAuthorization(a, b)
  {
    hide ToWord, Utf8Bytes, HexBytes, IsUint, ToLower, DecimalValue, ActionsValue, FamilyName, SameActions,
      EncodableAction;
    AddressSame(a.governor, b.governor);
    ActionsDetermine(a.actions, b.actions);
    if AuthorizationValue(a) == AuthorizationValue(b) {
      var x, y := AuthorizationValue(a).items, AuthorizationValue(b).items;
      assert x[1] == y[1] && x[2] == y[2] && x[3] == y[3] && x[5] == y[5] && x[6] == y[6];
      SmallFits(a.version);
      SmallFits(b.version);
      UintSame(a.version, b.version);
      UintSame(a.chainId, b.chainId);
      UintSame(DecimalValue(a.proposalId), DecimalValue(b.proposalId));
    }
  }

  /** The authorization hash fixes the whole bundle, order included, up to address case and numeric spelling. */
  lemma AuthorizationHashDetermines(keccak: Keccak, a: Authorization, b: Authorization)
    requires EncodableAuthorization(a) && EncodableAuthorization(b)
    requires var p := {EncodeAuthorization(a).value, EncodeAuthorization(b).value};
             NoCollision(keccak, p) && Moderate(p)
    ensures keccak(EncodeAuthorization(a).value) == keccak(EncodeAuthorization(b).value) <==> SameAuthorization(a, b)
  {
    hide ToWord, AuthorizationValue, Encode, Conforms, EncodableAuthorization, SameAuthorization;
    var ea, eb := EncodeAuthorization(a).value, EncodeAuthorization(b).value;
    assert ea == Encode(AuthorizationValue(a)) && eb == Encode(AuthorizationValue(b));
    AuthorizationValueDetermines(a, b);
    if keccak(ea) == keccak(eb) {
      AuthorizationConforms(a);
      AuthorizationConforms(b);
      EncodingIsInjective(AUTHORIZATION_TYPE, AuthorizationValue(a), AuthorizationValue(b));
    }
  }
}
