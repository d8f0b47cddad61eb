/** The Solidity contract ABI: head/tail encoding of typed values, and the decoder that inverts it. */
module Abi {
  import opened Bytes
  import opened Wrappers

  const WORD := 32

  /** A one-word static type, `bytes`/`string`, `T[]` and tuples: every type the five encodings use. */
  datatype AbiType = WordType | BytesType | ArrayType(element: AbiType) | TupleType(components: seq<AbiType>)

  datatype Value =
    | WordValue(word: seq<Byte>)
    | BytesValue(bytes: seq<Byte>)
    | ArrayValue(items: seq<Value>)
    | TupleValue(items: seq<Value>)

  // ------------------------------------------------------------------ words

  function Power256(k: nat): (p: nat)
    ensures p > 0
  {
    if k == 0 then 1 else 256 * Power256(k - 1)
  }

  /** The low `k` bytes of a number, most significant first. */
  function FixedBytes(n: nat, k: nat): (b: seq<Byte>)
    ensures |b| == k
  {
    if k == 0 then [] else FixedBytes(n / 256, k - 1) + [n % 256]
  }

  lemma {:induction false} FixedBytesInverse(n: nat, k: nat)
    requires n < Power256(k)
    ensures BigEndian(FixedBytes(n, k)) == n
  {
    if k > 0 {
      FixedBytesInverse(n / 256, k - 1);
      var b := FixedBytes(n, k);
      assert b[..k - 1] == FixedBytes(n / 256, k - 1);
    }
  }

  const WORD_LIMIT := 0x1_00000000_00000000_00000000_00000000_00000000_00000000_00000000_00000000

  lemma {:induction false} PowerDoubles(k: nat)
    ensures Power256(k + k) == Power256(k) * Power256(k)
  {
    if k > 0 {
      PowerDoubles(k - 1);
      assert Power256(k + k) == 256 * (256 * Power256(k + k - 2));
    }
  }

  /** A word holds the numbers below 2^256. */
  lemma WordLimitIs()
    ensures Power256(32) == WORD_LIMIT
  {
    assert Power256(4) == 0x1_00000000;
    PowerDoubles(4);
    PowerDoubles(8);
    PowerDoubles(16);
  }

  function ToWord(n: nat): (w: seq<Byte>)
    ensures |w| == WORD
  {
    FixedBytes(n, 32)
  }

  lemma WordInverse(n: nat)
    requires n < WORD_LIMIT
    ensures BigEndian(ToWord(n)) == n
  {
    WordLimitIs();
    hide BigEndian, FixedBytes, Power256;
    FixedBytesInverse(n, 32);
  }

  /** Different numbers below 2^256 are different words. */
  lemma WordsDiffer(m: nat, n: nat)
    requires m < WORD_LIMIT && n < WORD_LIMIT && ToWord(m) == ToWord(n)
    ensures m == n
  {
    WordInverse(m);
    WordInverse(n);
  }

  // ------------------------------------------------------------------ encoding

  predicate Dynamic(t: AbiType) {
    match t
    case WordType => false
    case BytesType => true
    case ArrayType(_) => true
    case TupleType(cs) => exists i :: 0 <= i < |cs| && Dynamic(cs[i])
  }

  predicate DynamicValue(v: Value) {
    match v
    case WordValue(_) => false
    case BytesValue(_) => true
    case ArrayValue(_) => true
    case TupleValue(items) => exists i :: 0 <= i < |items| && DynamicValue(items[i])
  }

  function Zeros(k: nat): (z: seq<Byte>)
    ensures |z| == k
  {
    seq(k, i => 0)
  }

  /** Filled up with zero bytes to a whole number of words. */
  function Padded(b: seq<Byte>): seq<Byte> {
    b + Zeros((WORD - |b| % WORD) % WORD)
  }

  function Encode(v: Value): seq<Byte>
    decreases v, 1
  {
    match v
    case WordValue(w) => w
    case BytesValue(b) => ToWord(|b|) + Padded(b)
    case ArrayValue(items) => ToWord(|items|) + EncodeAll(v, items)
    case TupleValue(items) => EncodeAll(v, items)
  }

  /** The heads, then the tails; offsets are counted from the first head. */
  function EncodeAll(ghost whole: Value, items: seq<Value>): seq<Byte>
    requires forall i :: 0 <= i < |items| ==> items[i] < whole
    decreases whole, 0, |items| + 1
  {
    var width := HeadsWidth(whole, items);
    Heads(whole, items, width) + Tails(whole, items)
  }

  function HeadsWidth(ghost whole: Value, items: seq<Value>): nat
    requires forall i :: 0 <= i < |items| ==> items[i] < whole
    decreases whole, 0, |items|
  {
    if items == [] then 0
    else (if DynamicValue(items[0]) then WORD else |Encode(items[0])|) + HeadsWidth(whole, items[1..])
  }

  function Heads(ghost whole: Value, items: seq<Value>, offset: nat): seq<Byte>
    requires forall i :: 0 <= i < |items| ==> items[i] < whole
    decreases whole, 0, |items|
  {
    if items == [] then []
    else if DynamicValue(items[0]) then
      ToWord(offset) + Heads(whole, items[1..], offset + |Encode(items[0])|)
    else Encode(items[0]) + Heads(whole, items[1..], offset)
  }

  function Tails(ghost whole: Value, items: seq<Value>): seq<Byte>
    requires forall i :: 0 <= i < |items| ==> items[i] < whole
    decreases whole, 0, |items|
  {
    if items == [] then []
    else (if DynamicValue(items[0]) then Encode(items[0]) else []) + Tails(whole, items[1..])
  }

  // ------------------------------------------------------------------ decoding

  function Slice(data: seq<Byte>, at: nat, n: nat): Option<seq<Byte>> {
    if at + n <= |data| then Some(data[at..at + n]) else None
  }

  function ReadNumber(data: seq<Byte>, at: nat): Option<nat> {
    match Slice(data, at, WORD)
    case None => None
    case Some(w) => Some(BigEndian(w))
  }

  /** How many bytes a static type takes in place. */
  function Width(t: AbiType): nat
    decreases t, 1
  {
    match t
    case WordType => WORD
    case TupleType(cs) => Widths(t, cs)
    case _ => 0
  }

  function Widths(ghost whole: AbiType, ts: seq<AbiType>): nat
    requires forall i :: 0 <= i < |ts| ==> ts[i] < whole
    decreases whole, 0, |ts|
  {
    if ts == [] then 0 else Width(ts[0]) + Widths(whole, ts[1..])
  }

  /** The value of type `t` whose encoding starts at `at`. */
  function Decode(t: AbiType, data: seq<Byte>, at: nat): Option<Value>
    decreases t, 1, 0
  {
    match t
    case WordType =>
      (match Slice(data, at, WORD)
       case None => None
       case Some(w) => Some(WordValue(w)))
    case BytesType =>
      (match ReadNumber(data, at)
       case None => None
       case Some(n) =>
         match Slice(data, at + WORD, n)
         case None => None
         case Some(b) => Some(BytesValue(b)))
    case ArrayType(e) =>
      (match ReadNumber(data, at)
       case None => None
       case Some(n) =>
         if n > |data| then None
         else
           match DecodeAll(t, seq(n, i => e), data, at + WORD, at + WORD)
           case None => None
           case Some(items) => Some(ArrayValue(items)))
    case TupleType(cs) =>
      match DecodeAll(t, cs, data, at, at)
      case None => None
      case Some(items) => Some(TupleValue(items))
  }

  /** The remaining components, whose heads start at `pos`; offsets are relative to `base`. */
  function DecodeAll(ghost whole: AbiType, ts: seq<AbiType>, data: seq<Byte>, base: nat, pos: nat): Option<seq<Value>>
    requires forall i :: 0 <= i < |ts| ==> ts[i] < whole
    decreases whole, 0, |ts|
  {
    if ts == [] then Some([])
    else
      var here := if Dynamic(ts[0]) then ReadNumber(data, pos) else Some(0);
      match here
      case None => None
      case Some(offset) =>
        match Decode(ts[0], data, if Dynamic(ts[0]) then base + offset else pos)
        case None => None
        case Some(v) =>
          match DecodeAll(whole, ts[1..], data, base, pos + (if Dynamic(ts[0]) then WORD else Width(ts[0])))
          case None => None
          case Some(rest) => Some([v] + rest)
  }

  // ------------------------------------------------------------------ the round trip

  /** The value has the shape of the type; no array element or tuple is of zero size. */
  predicate Conforms(v: Value, t: AbiType)
    decreases t
  {
    match t
    case WordType => v.WordValue? && |v.word| == WORD
    case BytesType => v.BytesValue?
    case ArrayType(e) => v.ArrayValue? && forall i :: 0 <= i < |v.items| ==> Conforms(v.items[i], e)
    case TupleType(cs) =>
      v.TupleValue? && cs != [] && |v.items| == |cs| && forall i :: 0 <= i < |cs| ==> Conforms(v.items[i], cs[i])
  }

  predicate At(data: seq<Byte>, at: nat, chunk: seq<Byte>) {
    at + |chunk| <= |data| && data[at..at + |chunk|] == chunk
  }

  lemma AtSplits(data: seq<Byte>, at: nat, x: seq<Byte>, y: seq<Byte>)
    requires At(data, at, x + y)
    ensures At(data, at, x) && At(data, at + |x|, y)
  {
    assert data[at..at + |x + y|][..|x|] == x;
    assert data[at..at + |x + y|][|x|..] == y;
  }

  lemma {:induction false} SameDynamics(v: Value, t: AbiType)
    requires Conforms(v, t)
    ensures DynamicValue(v) == Dynamic(t)
    decreases t
  {
    if t.TupleType? {
      forall i | 0 <= i < |t.components| ensures DynamicValue(v.items[i]) == Dynamic(t.components[i]) {
        SameDynamics(v.items[i], t.components[i]);
      }
    }
  }

  /** A static value takes its type's width, and every value takes at least a word. */
  lemma {:induction false} EncodedWidth(v: Value, t: AbiType)
    requires Conforms(v, t)
    ensures !Dynamic(t) ==> |Encode(v)| == Width(t)
    ensures |Encode(v)| >= WORD
    decreases t, 1, 0
  {
    hide BigEndian, FixedBytes, Heads, Tails, HeadsWidth, Widths;
    if t.TupleType? {
      EncodedWidths(t, t.components, v, v.items);
      assert Encode(v) == Heads(v, v.items, HeadsWidth(v, v.items)) + Tails(v, v.items);
      assert |v.items| >= 1;
    }
  }

  lemma {:induction false} EncodedWidths(t: AbiType, ts: seq<AbiType>, v: Value, items: seq<Value>)
    requires |ts| == |items| && forall i :: 0 <= i < |ts| ==> ts[i] < t && items[i] < v && Conforms(items[i], ts[i])
    ensures |Heads(v, items, 0)| >= WORD * |items|
    ensures forall o :: |Heads(v, items, o)| == HeadsWidth(v, items) && HeadsWidth(v, items) >= WORD * |items|
    ensures (forall i :: 0 <= i < |ts| ==> !Dynamic(ts[i])) ==>
        HeadsWidth(v, items) == Widths(t, ts) && Tails(v, items) == []
    decreases t, 0, |ts|
  {
    if ts != [] {
      EncodedWidths(t, ts[1..], v, items[1..]);
      EncodedWidth(items[0], ts[0]);
      SameDynamics(items[0], ts[0]);
    }
  }

  lemma {:induction false} DecodeWord(data: seq<Byte>, at: nat, n: nat)
    requires At(data, at, ToWord(n)) && n < WORD_LIMIT
    ensures ReadNumber(data, at) == Some(n)
  {
    WordInverse(n);
  }

  lemma BytesRoundTrip(b: seq<Byte>, data: seq<Byte>, at: nat)
    requires At(data, at, ToWord(|b|) + Padded(b)) && |data| < WORD_LIMIT
    ensures Decode(BytesType, data, at) == Some(BytesValue(b))
  {
    hide BigEndian, ToWord, ReadNumber;
    AtSplits(data, at, ToWord(|b|), Padded(b));
    AtSplits(data, at + WORD, b, Zeros((WORD - |b| % WORD) % WORD));
    DecodeWord(data, at, |b|);
  }

  /** Decoding gives back the value, wherever its encoding stands in the data. */
  lemma {:induction false} RoundTripAt(t: AbiType, v: Value, data: seq<Byte>, at: nat)
    requires Conforms(v, t) && At(data, at, Encode(v)) && |data| < WORD_LIMIT
    ensures Decode(t, data, at) == Some(v)
    decreases t, 1, 0
  {
    hide BigEndian, ToWord, ReadNumber, Heads, Tails, HeadsWidth, DecodeAll, Padded, At, EncodeAll;
    match t
    case WordType => assert Slice(data, at, WORD) == Some(v.word) by { AtSlice(data, at, v.word); }
    case BytesType => BytesRoundTrip(v.bytes, data, at);
    case ArrayType(e) =>
      var ts := seq(|v.items|, i => e);
      AtSplits(data, at, ToWord(|v.items|), EncodeAll(v, v.items));
      assert |v.items| <= |data| by { ArrayFits(t, ts, v, data, at + WORD); }
      DecodeWord(data, at, |v.items|);
      AllRoundTrip(t, ts, v, v.items, data, at + WORD);
    case TupleType(cs) =>
      AllRoundTrip(t, cs, v, v.items, data, at);
  }

  lemma AtSlice(data: seq<Byte>, at: nat, chunk: seq<Byte>)
    requires At(data, at, chunk)
    ensures Slice(data, at, |chunk|) == Some(chunk)
  {
  }

  lemma ArrayFits(t: AbiType, ts: seq<AbiType>, v: Value, data: seq<Byte>, at: nat)
    requires v.ArrayValue? && |ts| == |v.items| && forall i :: 0 <= i < |ts| ==>
        ts[i] < t && Conforms(v.items[i], ts[i])
    requires At(data, at, EncodeAll(v, v.items))
    ensures |v.items| <= |data|
  {
    hide Heads, Tails, HeadsWidth, Conforms;
    EncodedWidths(t, ts, v, v.items);
  }

  lemma {:induction false} AllRoundTrip(t: AbiType, ts: seq<AbiType>, v: Value, items: seq<Value>, data: seq<Byte>,
                                        at: nat)
    requires |ts| == |items| && forall i :: 0 <= i < |ts| ==> ts[i] < t && items[i] < v && Conforms(items[i], ts[i])
    requires At(data, at, EncodeAll(v, items)) && |data| < WORD_LIMIT
    ensures DecodeAll(t, ts, data, at, at) == Some(items)
    decreases t, 0, |ts| + 1
  {
    hide BigEndian, ToWord, ReadNumber, Padded, At, Decode, Encode, Conforms, Dynamic, DynamicValue, Heads, Tails;
    EncodedWidths(t, ts, v, items);
    var width := HeadsWidth(v, items);
    AtSplits(data, at, Heads(v, items, width), Tails(v, items));
    RestRoundTrip(t, ts, v, items, data, at, at, width);
  }

  /** One component read, and the rest after it. */
  lemma DecodeAllStep(t: AbiType, ts: seq<AbiType>, data: seq<Byte>, base: nat, pos: nat, offset: nat, item: Value,
                      rest: seq<Value>)
    requires ts != [] && forall i :: 0 <= i < |ts| ==> ts[i] < t
    requires Dynamic(ts[0]) ==>
               ReadNumber(data, pos) == Some(offset) && Decode(ts[0], data, base + offset) == Some(item) &&
               DecodeAll(t, ts[1..], data, base, pos + WORD) == Some(rest)
    requires !Dynamic(ts[0]) ==>
               Decode(ts[0], data, pos) == Some(item) &&
               DecodeAll(t, ts[1..], data, base, pos + Width(ts[0])) == Some(rest)
    ensures DecodeAll(t, ts, data, base, pos) == Some([item] + rest)
  {
    hide Decode, Dynamic, ReadNumber, Width;
  }

  lemma HeadsStep(v: Value, items: seq<Value>, offset: nat)
    requires items != [] && forall i :: 0 <= i < |items| ==> items[i] < v
    ensures DynamicValue(items[0]) ==>
              Heads(v, items, offset) == ToWord(offset) + Heads(v, items[1..], offset + |Encode(items[0])|) &&
              Tails(v, items) == Encode(items[0]) + Tails(v, items[1..])
    ensures !DynamicValue(items[0]) ==>
              Heads(v, items, offset) == Encode(items[0]) + Heads(v, items[1..], offset) &&
              Tails(v, items) == Tails(v, items[1..])
  {
    hide Encode, DynamicValue, ToWord;
  }

  /** The components still to come: heads at `pos`, tails `offset` bytes past the base. */
  lemma {:induction false} RestRoundTrip(t: AbiType, ts: seq<AbiType>, v: Value, items: seq<Value>, data: seq<Byte>,
                                         base: nat, pos: nat, offset: nat)
    requires |ts| == |items| && forall i :: 0 <= i < |ts| ==> ts[i] < t && items[i] < v && Conforms(items[i], ts[i])
    requires At(data, pos, Heads(v, items, offset)) && At(data, base + offset, Tails(v, items)) && |data| < WORD_LIMIT
    ensures DecodeAll(t, ts, data, base, pos) == Some(items)
    decreases t, 0, |ts|
  {
    hide BigEndian, ToWord, ReadNumber, Padded, At, Decode, Encode, Conforms, Dynamic, DynamicValue, HeadsWidth,
      EncodeAll, Heads, Tails, DecodeAll, Width;
    if ts == [] {
      Nothing(t, data, base, pos);
    } else {
      var item, rest := items[0], items[1..];
      SameDynamics(item, ts[0]);
      HeadsStep(v, items, offset);
      if Dynamic(ts[0]) {
        AtSplits(data, pos, ToWord(offset), Heads(v, rest, offset + |Encode(item)|));
        AtSplits(data, base + offset, Encode(item), Tails(v, rest));
        assert offset < WORD_LIMIT by { AtFits(data, base + offset, Encode(item)); }
        DecodeWord(data, pos, offset);
        RoundTripAt(ts[0], item, data, base + offset);
        RestRoundTrip(t, ts[1..], v, rest, data, base, pos + WORD, offset + |Encode(item)|);
      } else {
        AtSplits(data, pos, Encode(item), Heads(v, rest, offset));
        EncodedWidth(item, ts[0]);
        RoundTripAt(ts[0], item, data, pos);
        RestRoundTrip(t, ts[1..], v, rest, data, base, pos + Width(ts[0]), offset);
      }
      DecodeAllStep(t, ts, data, base, pos, offset, item, rest);
      assert [item] + rest == items;
    }
  }

  lemma Nothing(t: AbiType, data: seq<Byte>, base: nat, pos: nat)
    ensures DecodeAll(t, [], data, base, pos) == Some([])
  {
  }

  lemma AtFits(data: seq<Byte>, at: nat, chunk: seq<Byte>)
    requires At(data, at, chunk)
    ensures at + |chunk| <= |data|
  {
  }

  /** The decoder inverts the encoder. */
  lemma RoundTrip(t: AbiType, v: Value)
    requires Conforms(v, t) && |Encode(v)| < WORD_LIMIT
    ensures Decode(t, Encode(v), 0) == Some(v)
  {
    RoundTripAt(t, v, Encode(v), 0);
  }

  /** A string's bytes follow its length, and zeros fill its last word. */
  lemma StringLayout(b: seq<Byte>, k: nat)
    requires |b| < WORD_LIMIT && k < |Encode(BytesValue(b))|
    ensures var e := Encode(BytesValue(b));
            && 32 + |b| <= |e| < 64 + |b| && |e| % 32 == 0 && BigEndian(e[..32]) == |b|
            && (k >= 32 ==> e[k] == if k - 32 < |b| then b[k - 32] else 0)
  {
    hide BigEndian, ToWord;
    WordInverse(|b|);
    assert Encode(BytesValue(b))[..32] == ToWord(|b|);
  }

  predicate Whole(n: nat) {
    n % WORD == 0
  }

  lemma WholesAdd(m: nat, n: nat)
    requires Whole(m) && Whole(n)
    ensures Whole(m + n)
  {
  }

  /** Every encoding is a whole number of words. */
  lemma {:induction false} WholeWords(v: Value, t: AbiType)
    requires Conforms(v, t)
    ensures Whole(|Encode(v)|)
    decreases t, 1, 0
  {
    hide BigEndian, FixedBytes, EncodeAll;
    match t
    case WordType =>
    case BytesType =>
    case ArrayType(e) => AllWholeWords(t, seq(|v.items|, i => e), v, v.items);
    case TupleType(cs) => AllWholeWords(t, cs, v, v.items);
  }

  lemma {:induction false} AllWholeWords(t: AbiType, ts: seq<AbiType>, v: Value, items: seq<Value>)
    requires |ts| == |items| && forall i :: 0 <= i < |ts| ==> ts[i] < t && items[i] < v && Conforms(items[i], ts[i])
    ensures Whole(|EncodeAll(v, items)|)
    decreases t, 0, |ts| + 1
  {
    hide Encode, Conforms, Heads, Tails, HeadsWidth, Whole;
    EncodedWidths(t, ts, v, items);
    PartsWhole(t, ts, v, items);
    WholesAdd(HeadsWidth(v, items), |Tails(v, items)|);
    assert |Heads(v, items, HeadsWidth(v, items))| == HeadsWidth(v, items);
  }

  lemma {:induction false} PartsWhole(t: AbiType, ts: seq<AbiType>, v: Value, items: seq<Value>)
    requires |ts| == |items| && forall i :: 0 <= i < |ts| ==> ts[i] < t && items[i] < v && Conforms(items[i], ts[i])
    ensures Whole(HeadsWidth(v, items)) && Whole(|Tails(v, items)|)
    decreases t, 0, |ts|
  {
    hide Encode, Conforms, Heads, DynamicValue, Tails, HeadsWidth, Whole;
    WidthStep(v, items);
    assert Whole(0) && Whole(WORD) by { WholesAre(); }
    if ts != [] {
      WholeWords(items[0], ts[0]);
      PartsWhole(t, ts[1..], v, items[1..]);
      HeadsStep(v, items, 0);
      WholesAdd(if DynamicValue(items[0]) then WORD else |Encode(items[0])|, HeadsWidth(v, items[1..]));
      WholesAdd(|Encode(items[0])|, |Tails(v, items[1..])|);
    }
  }

  lemma WholesAre()
    ensures Whole(0) && Whole(WORD)
  {
  }

  lemma WidthStep(v: Value, items: seq<Value>)
    requires forall i :: 0 <= i < |items| ==> items[i] < v
    ensures items == [] ==> HeadsWidth(v, items) == 0 && Tails(v, items) == []
    ensures items != [] ==>
              HeadsWidth(v, items) ==
                (if DynamicValue(items[0]) then WORD else |Encode(items[0])|) + HeadsWidth(v, items[1..])
  {
    hide Encode, DynamicValue;
  }

  /** Hence no two values of one type have the same encoding. */
  lemma EncodingIsInjective(t: AbiType, v: Value, w: Value)
    requires Conforms(v, t) && Conforms(w, t) && |Encode(v)| < WORD_LIMIT && Encode(v) == Encode(w)
    ensures v == w
  {
    RoundTrip(t, v);
    RoundTrip(t, w);
  }

  /** The leading string of a parameter list, found through its offset word, whatever the other parameters are. */
  function LeadingBytes(data: seq<Byte>): Option<Value> {
    match ReadNumber(data, 0)
    case None => None
    case Some(offset) => Decode(BytesType, data, offset)
  }

  lemma LeadingBytesOf(t: AbiType, v: Value)
    requires t.TupleType? && Conforms(v, t) && t.components[0].BytesType? && |Encode(v)| < WORD_LIMIT
    ensures LeadingBytes(Encode(v)) == Some(v.items[0])
  {
    RoundTrip(t, v);
  }

  // ------------------------------------------------------------------ where everything stands

  /** Byte `k` of a word is the digit of that place to base 256, the most significant first. */
  lemma {:induction false} WordPlaces(n: nat, width: nat, k: nat)
    requires k < width
    ensures FixedBytes(n, width)[k] == n / Power256(width - 1 - k) % 256
  {
    if k < width - 1 {
      WordPlaces(n / 256, width - 1, k);
      DivideTwice(n, Power256(width - 2 - k));
    }
  }

  lemma DivideTwice(n: nat, p: nat)
    requires p > 0
    ensures n / 256 / p == n / (256 * p)
  {
    var q, r := n / 256 / p, n / 256 % p;
    assert n == 256 * (q * p) + 256 * r + n % 256;
    assert 256 * (q * p) == q * (256 * p);
    Quotient(n, 256 * p, q, 256 * r + n % 256);
  }

  lemma Quotient(n: nat, p: nat, q: nat, r: nat)
    requires n == q * p + r && r < p
    ensures n / p == q
  {
    var m := n / p;
    assert m * p + n % p == n;
    assert (m - q) * p == r - n % p;
    if m > q { Larger(m - q, p); }
    if m < q {
      assert (q - m) * p == n % p - r;
      Larger(q - m, p);
    }
  }

  lemma Larger(d: nat, p: nat)
    requires d > 0
    ensures d * p >= p
  {
  }

  /** The head of component `i` stands after those before it: a word for a dynamic one, the encoding itself if not. */
  function HeadAt(items: seq<Value>, i: nat): nat
    requires i <= |items|
  {
    if i == 0 then 0
    else HeadAt(items, i - 1) + if DynamicValue(items[i - 1]) then 32 else |Encode(items[i - 1])|
  }

  /** What the dynamic ones among the first `i` components take up after the heads. */
  function TailsBefore(items: seq<Value>, i: nat): nat
    requires i <= |items|
  {
    if i == 0 then 0
    else TailsBefore(items, i - 1) + if DynamicValue(items[i - 1]) then |Encode(items[i - 1])| else 0
  }

  lemma {:induction false} FirstOff(items: seq<Value>, i: nat)
    requires 0 < i <= |items|
    ensures HeadAt(items, i) == HeadAt(items, 1) + HeadAt(items[1..], i - 1)
    ensures TailsBefore(items, i) == TailsBefore(items, 1) + TailsBefore(items[1..], i - 1)
  {
    hide Encode, DynamicValue;
    if i > 1 { FirstOff(items, i - 1); }
  }

  lemma AtLater(data: seq<Byte>, at: nat, chunk: seq<Byte>, front: seq<Byte>)
    requires At(data, at, chunk)
    ensures At(front + data, |front| + at, chunk)
  {
    assert (front + data)[|front| + at..|front| + at + |chunk|] == data[at..at + |chunk|];
  }

  lemma AtMore(data: seq<Byte>, at: nat, chunk: seq<Byte>, more: seq<Byte>)
    requires At(data, at, chunk)
    ensures At(data + more, at, chunk)
  {
    assert (data + more)[at..at + |chunk|] == data[at..at + |chunk|];
  }

  lemma AtFirst(chunk: seq<Byte>, more: seq<Byte>)
    ensures At(chunk + more, 0, chunk)
  {
  }

  lemma {:induction false} Sizes(v: Value, items: seq<Value>, offset: nat)
    requires forall k :: 0 <= k < |items| ==> items[k] < v
    ensures |Heads(v, items, offset)| == HeadsWidth(v, items) == HeadAt(items, |items|)
    ensures |Tails(v, items)| == TailsBefore(items, |items|)
  {
    hide Encode, DynamicValue, ToWord, Heads, Tails, HeadsWidth;
    WidthStep(v, items);
    if items == [] {
      assert Heads(v, items, offset) == [] by { NoHeads(v, offset); }
    } else {
      HeadsStep(v, items, offset);
      Sizes(v, items[1..], if DynamicValue(items[0]) then offset + |Encode(items[0])| else offset);
      FirstOff(items, |items|);
    }
  }

  lemma NoHeads(v: Value, offset: nat)
    ensures Heads(v, [], offset) == []
  {
  }

  lemma {:induction false} HeadThere(v: Value, items: seq<Value>, offset: nat, i: nat)
    requires i < |items| && forall k :: 0 <= k < |items| ==> items[k] < v
    ensures At(Heads(v, items, offset), HeadAt(items, i),
               if DynamicValue(items[i]) then ToWord(offset + TailsBefore(items, i)) else Encode(items[i]))
  {
    hide Encode, DynamicValue, ToWord, Heads, Tails, At;
    HeadsStep(v, items, offset);
    var first := if DynamicValue(items[0]) then ToWord(offset) else Encode(items[0]);
    var past := if DynamicValue(items[0]) then offset + |Encode(items[0])| else offset;
    if i == 0 {
      AtFirst(first, Heads(v, items[1..], past));
    } else {
      HeadThere(v, items[1..], past, i - 1);
      FirstOff(items, i);
      AtLater(Heads(v, items[1..], past), HeadAt(items[1..], i - 1),
              if DynamicValue(items[i]) then ToWord(offset + TailsBefore(items, i)) else Encode(items[i]), first);
    }
  }

  lemma {:induction false} TailThere(v: Value, items: seq<Value>, i: nat)
    requires i < |items| && DynamicValue(items[i]) && forall k :: 0 <= k < |items| ==> items[k] < v
    ensures At(Tails(v, items), TailsBefore(items, i), Encode(items[i]))
  {
    hide Encode, DynamicValue, ToWord, Heads, Tails, At;
    HeadsStep(v, items, 0);
    var rest := Tails(v, items[1..]);
    if i == 0 {
      AtFirst(Encode(items[0]), rest);
    } else {
      TailThere(v, items[1..], i - 1);
      FirstOff(items, i);
      AtLater(rest, TailsBefore(items[1..], i - 1), Encode(items[i]),
              if DynamicValue(items[0]) then Encode(items[0]) else []);
    }
  }

  /**
   * Where component `i` of a tuple or array stands, with no room for anything else: the heads in order, the dynamic
   * components' encodings in order after the last head, each at the offset its head gives. An array's count comes
   * first, and its offsets are counted from after it.
   */
  lemma ComponentAt(v: Value, i: nat)
    requires (v.TupleValue? || v.ArrayValue?) && i < |v.items| && |Encode(v)| < WORD_LIMIT
    ensures var e, n, base := Encode(v), |v.items|, if v.ArrayValue? then 32 else 0;
            var tail := HeadAt(v.items, n) + TailsBefore(v.items, i);
            && (v.ArrayValue? && n < WORD_LIMIT ==> ReadNumber(e, 0) == Some(n))
            && |e| == base + HeadAt(v.items, n) + TailsBefore(v.items, n)
            && if DynamicValue(v.items[i])
               then ReadNumber(e, base + HeadAt(v.items, i)) == Some(tail) && At(e, base + tail, Encode(v.items[i]))
               else At(e, base + HeadAt(v.items, i), Encode(v.items[i]))
  {
    hide DynamicValue, ToWord, BigEndian, Heads, Tails, At, HeadsWidth, ReadNumber, HeadAt, TailsBefore;
    var items, e := v.items, Encode(v);
    var width := HeadsWidth(v, items);
    var heads, tails := Heads(v, items, width), Tails(v, items);
    var front := if v.ArrayValue? then ToWord(|items|) else [];
    assert e == front + (heads + tails) == (front + heads) + tails;
    Sizes(v, items, width);
    HeadThere(v, items, width, i);
    var head := if DynamicValue(items[i]) then ToWord(width + TailsBefore(items, i)) else Encode(items[i]);
    AtMore(heads, HeadAt(items, i), head, tails);
    AtLater(heads + tails, HeadAt(items, i), head, front);
    if DynamicValue(items[i]) {
      TailThere(v, items, i);
      AtLater(tails, TailsBefore(items, i), Encode(items[i]), front + heads);
      AtFits(e, |front| + width + TailsBefore(items, i), Encode(items[i]));
      DecodeWord(e, |front| + HeadAt(items, i), width + TailsBefore(items, i));
    }
    if v.ArrayValue? && |items| < WORD_LIMIT {
      AtFirst(front, heads + tails);
      DecodeWord(e, 0, |items|);
    }
  }
}
