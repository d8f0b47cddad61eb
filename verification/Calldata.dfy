/** The stored arguments of a transfer, in both directions. */
module Calldata {
  import opened Abi
  import opened Bytes
  import opened Commitments
  import opened Erc20
  import opened Jobs
  import opened Text
  import opened Wrappers

  // ------------------------------------------------------------------ hex text of bytes

  lemma {:induction false} HexDigitsAt(b: seq<Byte>, k: nat)
    requires k < |b|
    ensures |HexDigits(b)| == 2 * |b|
    ensures HexDigits(b)[2 * k] == HexDigit(b[k] / 16) && HexDigits(b)[2 * k + 1] == HexDigit(b[k] % 16)
  {
    hide HexDigit;
    if |b| > 1 { HexDigitsAt(b[1..], if k > 0 then k - 1 else 0); }
  }

  lemma HexDigitOf(c: char)
    requires IsHexDigit(c)
    ensures HexDigit(Nibble(c)) == LowerChar(c)
  {
  }

  lemma HexDigitIs(n: nat)
    requires n < 16
    ensures IsHexDigit(HexDigit(n)) && Nibble(HexDigit(n)) == n && LowerChar(HexDigit(n)) == HexDigit(n)
  {
  }

  /** The text of the bytes of a hex text is that text in lower case. */
  lemma HexOfBytes(s: string, n: nat)
    requires IsHexOf(s, n)
    ensures Hex(HexBytes(s, n)) == ToLower(s)
  {
    hide HexDigit, Nibble, LowerChar, HexDigits;
    var t := Hex(HexBytes(s, n));
    if n == 0 {
      assert HexBytes(s, n) == [];
      assert HexDigits([]) == "" by { NoDigits(); }
    } else {
      HexDigitsAt(HexBytes(s, n), 0);
    }
    assert LowerChar('0') == '0' && LowerChar('x') == 'x' by { PrefixIsLower(); }
    forall i | 0 <= i < |s| ensures t[i] == ToLower(s)[i] {
      if i >= 2 {
        var k := (i - 2) / 2;
        HexDigitsAt(HexBytes(s, n), k);
        HexDigitOf(s[2 + 2 * k]);
        HexDigitOf(s[3 + 2 * k]);
        assert HexBytes(s, n)[k] / 16 == Nibble(s[2 + 2 * k]) && HexBytes(s, n)[k] % 16 == Nibble(s[3 + 2 * k]);
      }
    }
  }

  lemma NoDigits()
    ensures HexDigits([]) == ""
  {
  }

  lemma PrefixIsLower()
    ensures LowerChar('0') == '0' && LowerChar('x') == 'x'
  {
  }

  /** The text of any bytes is hex text of just those bytes, in lower case. */
  lemma BytesOfHex(b: seq<Byte>)
    ensures IsHexOf(Hex(b), |b|) && HexBytes(Hex(b), |b|) == b && ToLower(Hex(b)) == Hex(b)
  {
    hide HexDigit, Nibble, LowerChar, HexDigits;
    var t := Hex(b);
    if b == [] { NoDigits(); } else { HexDigitsAt(b, 0); }
    assert LowerChar('0') == '0' && LowerChar('x') == 'x' by { PrefixIsLower(); }
    forall i | 2 <= i < |t| ensures IsHexDigit(t[i]) && LowerChar(t[i]) == t[i] {
      var k := (i - 2) / 2;
      HexDigitsAt(b, k);
      HexDigitIs(b[k] / 16);
      HexDigitIs(b[k] % 16);
    }
    forall k | 0 <= k < |b| ensures HexBytes(t, |b|)[k] == b[k] {
      HexDigitsAt(b, k);
      HexDigitIs(b[k] / 16);
      HexDigitIs(b[k] % 16);
    }
  }

  // ------------------------------------------------------------------ a transfer's arguments

  lemma TwoWords(v: Value, x: seq<Byte>, y: seq<Byte>)
    requires v == TupleValue([WordValue(x), WordValue(y)])
    ensures Encode(v) == x + y
  {
    var items, width := v.items, HeadsWidth(v, v.items);
    assert items[1..] == [WordValue(y)] && items[1..][1..] == [];
    HeadsStep(v, items, width);
    HeadsStep(v, items[1..], width);
    assert Heads(v, [], width) == [] && Tails(v, []) == [];
    assert x + (y + []) + [] == x + y;
  }

  /** The arguments of a call `transfer(to, amount)` as the contract ABI encodes them, without the selector. */
  function TransferArguments(to: HexAddress, amount: nat): (b: seq<Byte>)
    requires IsHexOf(to, 20)
    ensures |b| == 64
  {
    var v := TupleValue([Address(to), Uint(amount)]);
    TwoWords(v, Address(to).word, Uint(amount).word);
    Encode(v)
  }

  lemma ArgumentsAre(to: HexAddress, amount: nat)
    requires IsHexOf(to, 20)
    ensures TransferArguments(to, amount) == Zeros(12) + HexBytes(to, 20) + ToWord(amount)
  {
    hide HexBytes, ToWord;
    var x, y := Zeros(12) + HexBytes(to, 20), ToWord(amount);
    var v := TupleValue([WordValue(x), WordValue(y)]);
    TwoWords(v, x, y);
  }

  /**
   * What was encoded is what is decoded, whatever follows: the recipient, lower-cased, and the amount. So the adapter
   * reads the same two words the proposal's author wrote.
   */
  lemma TransferRoundTrip(to: HexAddress, amount: nat, rest: seq<Byte>)
    requires IsHexOf(to, 20) && amount < WORD_LIMIT
    ensures TryDecodeTransfer("transfer(address,uint256)", TransferArguments(to, amount) + rest) ==
              Some(Transfer(ToLower(to), amount))
  {
    hide HexBytes, ToWord, BigEndian, Hex, TransferArguments;
    ArgumentsAre(to, amount);
    var data := TransferArguments(to, amount) + rest;
    assert data[12..32] == HexBytes(to, 20);
    assert data[32..64] == ToWord(amount);
    HexOfBytes(to, 20);
    WordInverse(amount);
  }

  lemma {:induction false} BigEndianBound(b: seq<Byte>)
    ensures BigEndian(b) < Power256(|b|) && FixedBytes(BigEndian(b), |b|) == b
  {
    if b != [] {
      BigEndianBound(b[..|b| - 1]);
      assert BigEndian(b) / 256 == BigEndian(b[..|b| - 1]) && BigEndian(b) % 256 == b[|b| - 1];
    }
  }

  /**
   * An action is a transfer exactly when its signature is that one and two words are there; and then the arguments are
   * those of a call with the decoded recipient and amount, but for the twelve bytes in front of the address, which no
   * decoder looks at, and for what follows the two words.
   */
  lemma DecodesExactlyWhen(signature: string, data: seq<Byte>)
    ensures TryDecodeTransfer(signature, data).Some? <==> signature == "transfer(address,uint256)" && |data| >= 64
    ensures var t := TryDecodeTransfer(signature, data);
            t.Some? ==>
              && IsHexOf(t.value.recipient, 20) && ToLower(t.value.recipient) == t.value.recipient
              && t.value.amount < WORD_LIMIT
              && data[12..64] == TransferArguments(t.value.recipient, t.value.amount)[12..]
  {
    hide HexBytes, BigEndian, Hex, TransferArguments, FixedBytes;
    var t := TryDecodeTransfer(signature, data);
    if t.Some? {
      BytesOfHex(data[12..32]);
      BigEndianBound(data[32..64]);
      WordLimitIs();
      ArgumentsAre(t.value.recipient, t.value.amount);
      assert data[12..64] == data[12..32] + data[32..64];
    }
  }
}
