/** The wei-to-ether printer, and the reader that inverts it. */
module Units {
  import opened Text
  import opened Wrappers

  const ONE_ETHER := 1_000_000_000_000_000_000
  const PLACES := 18

  function Power10(k: nat): (p: nat)
    ensures p > 0
  {
    if k == 0 then 1 else 10 * Power10(k - 1)
  }

  function PadStart(s: string, width: nat): (r: string)
    ensures |r| == if |s| < width then width else |s|
    decreases width - |s|
  {
    if |s| < width then PadStart("0" + s, width) else s
  }

  /** `replace(/0+$/, "")`. */
  function StripZeros(s: string): (r: string)
    ensures |r| <= |s| && (r != "" ==> r[|r| - 1] != '0') && r == s[..|r|]
  {
    if s != "" && s[|s| - 1] == '0' then StripZeros(s[..|s| - 1]) else s
  }

  function EtherDecimal(wei: int): string {
    var negative := wei < 0;
    var abs := if negative then -wei else wei;
    var whole, frac := abs / ONE_ETHER, abs % ONE_ETHER;
    var fracStr := StripZeros(PadStart(Decimal(frac), PLACES));
    var body := if |fracStr| > 0 then Decimal(whole) + "." + fracStr else Decimal(whole);
    if negative then "-" + body else body
  }

  /** `BigInt` of a signed decimal numeral, then the printer; absent where `BigInt` throws. */
  function WeiDecimalStringToEtherDecimalString(s: string): Option<string> {
    if IsDecimal(s) then Some(EtherDecimal(DecimalValue(s)))
    else if |s| > 1 && s[0] == '-' && IsDecimal(s[1..]) then Some(EtherDecimal(0 - DecimalValue(s[1..])))
    else None
  }

  // ------------------------------------------------------------------ the reader

  function PointAt(s: string): (i: nat)
    ensures i <= |s| && (i < |s| ==> s[i] == '.') && forall k :: 0 <= k < i ==> s[k] != '.'
  {
    if s == "" || s[0] == '.' then 0
    else
      var i := PointAt(s[1..]);
      assert forall k :: 0 < k < i + 1 ==> s[k] == s[1..][k - 1];
      i + 1
  }

  /** An unsigned ether decimal in wei, with at most 18 places after the point. */
  function ReadUnsigned(s: string): Option<nat> {
    var i := PointAt(s);
    var whole := s[..i];
    if !IsDecimal(whole) then None
    else if i == |s| then Some(DecimalValue(whole) * 1_000_000_000_000_000_000)
    else
      var frac := s[i + 1..];
      if !IsDecimal(frac) || |frac| > 18 then None
      else Some(DecimalValue(whole) * 1_000_000_000_000_000_000 + DecimalValue(frac) * Power10(18 - |frac|))
  }

  /** The wei an ether decimal stands for. */
  function ReadEther(s: string): Option<int> {
    if s != "" && s[0] == '-' then
      (match ReadUnsigned(s[1..])
       case None => None
       case Some(n) => Some(0 - n))
    else
      (match ReadUnsigned(s)
       case None => None
       case Some(n) => Some(n))
  }

  // ------------------------------------------------------------------ round trip

  lemma {:induction false} LeadingZero(s: string)
    ensures DecimalValue("0" + s) == DecimalValue(s)
  {
    if s != "" {
      var t := "0" + s;
      assert t[..|t| - 1] == "0" + s[..|s| - 1];
      LeadingZero(s[..|s| - 1]);
    } else {
      assert "0" + s == "0" && "0"[..0] == "";
    }
  }

  lemma {:induction false} PaddedValue(s: string, width: nat)
    requires IsDecimal(s)
    ensures IsDecimal(PadStart(s, width)) && DecimalValue(PadStart(s, width)) == DecimalValue(s)
    decreases width - |s|
  {
    if |s| < width {
      LeadingZero(s);
      PaddedValue("0" + s, width);
    }
  }

  /** Stripping a trailing zero divides by ten. */
  lemma {:induction false} StrippedValue(s: string)
    requires forall i :: 0 <= i < |s| ==> IsDigit(s[i])
    ensures DecimalValue(StripZeros(s)) * Power10(|s| - |StripZeros(s)|) == DecimalValue(s)
    ensures StripZeros(s) == "" <==> DecimalValue(s) == 0
  {
    if s != "" && s[|s| - 1] == '0' {
      var front := s[..|s| - 1];
      StrippedValue(front);
      var k := |front| - |StripZeros(front)|;
      TimesTen(DecimalValue(StripZeros(front)), Power10(k));
    }
  }

  lemma TimesTen(a: nat, p: nat)
    ensures a * (10 * p) == 10 * (a * p)
  {
  }

  lemma {:induction false} DecimalLength(n: nat, k: nat)
    requires n < Power10(k) && k > 0
    ensures |Decimal(n)| <= k
  {
    if n >= 10 { DecimalLength(n / 10, k - 1); }
  }

  lemma EighteenPlaces()
    ensures Power10(PLACES) == ONE_ETHER
  {
    assert Power10(6) == 1_000_000;
    assert Power10(12) == 1_000_000 * 1_000_000;
  }

  lemma DigitsHaveNoPoint(s: string, t: string)
    requires IsDecimal(s)
    ensures PointAt(s + "." + t) == |s| && PointAt(s) == |s|
  {
    var u := s + "." + t;
    assert u[|s|] == '.';
    assert forall k :: 0 <= k < |s| ==> u[k] == s[k];
  }

  /** The body the printer puts after the sign. */
  function Body(abs: nat): string {
    var fracStr := StripZeros(PadStart(Decimal(abs % ONE_ETHER), PLACES));
    if |fracStr| > 0 then Decimal(abs / ONE_ETHER) + "." + fracStr else Decimal(abs / ONE_ETHER)
  }

  lemma FractionOf(frac: nat)
    requires frac < ONE_ETHER
    ensures var f := StripZeros(PadStart(Decimal(frac), PLACES));
            && |f| <= PLACES && (f == "" <==> frac == 0) && (f != "" ==> IsDecimal(f))
            && DecimalValue(f) * Power10(PLACES - |f|) == frac
  {
    EighteenPlaces();
    DecimalLength(frac, PLACES);
    PaddedValue(Decimal(frac), PLACES);
    StrippedValue(PadStart(Decimal(frac), PLACES));
  }

  lemma BodyReads(abs: nat)
    ensures ReadUnsigned(Body(abs)) == Some(abs)
    ensures IsDigit(Body(abs)[0])
  {
    hide DecimalValue, Decimal, StripZeros, PadStart, Power10, PointAt;
    var whole, frac := Decimal(abs / ONE_ETHER), StripZeros(PadStart(Decimal(abs % ONE_ETHER), PLACES));
    FractionOf(abs % ONE_ETHER);
    DigitsHaveNoPoint(whole, frac);
    var b := Body(abs);
    if frac == "" {
      assert b == whole && b[..|b|] == b;
    } else {
      assert b == whole + "." + frac && b[..|whole|] == whole && b[|whole| + 1..] == frac;
    }
  }

  /** Reading what was printed gives back the amount, for every integer. */
  lemma PrintedReadsBack(wei: int)
    ensures ReadEther(EtherDecimal(wei)) == Some(wei)
  {
    hide ReadUnsigned, Body, Decimal, StripZeros, PadStart;
    var abs := if wei < 0 then -wei else wei;
    BodyReads(abs);
    assert EtherDecimal(wei) == (if wei < 0 then "-" + Body(abs) else Body(abs)) by { PrintsBody(wei); }
    assert ("-" + Body(abs))[1..] == Body(abs);
  }

  lemma PrintsBody(wei: int)
    ensures EtherDecimal(wei) ==
              var abs := if wei < 0 then -wei else wei;
              if wei < 0 then "-" + Body(abs) else Body(abs)
  {
  }

  /** Distinct amounts print differently. */
  lemma PrinterInjective(m: int, n: int)
    requires EtherDecimal(m) == EtherDecimal(n)
    ensures m == n
  {
    hide EtherDecimal, ReadEther;
    PrintedReadsBack(m);
    PrintedReadsBack(n);
  }

  lemma WholeHasNoPoint(wei: int)
    requires wei % ONE_ETHER == 0
    ensures '.' !in EtherDecimal(wei)
  {
    hide DecimalValue, Decimal, StripZeros, PadStart;
    var abs := if wei < 0 then -wei else wei;
    PrintsBody(wei);
    FractionOf(abs % ONE_ETHER);
    assert EtherDecimal(wei) == (if wei < 0 then "-" else "") + Decimal(abs / ONE_ETHER);
  }

  lemma FractionIsLast(wei: int)
    requires wei % ONE_ETHER != 0
    ensures var abs := if wei < 0 then -wei else wei;
            var whole, frac := Decimal(abs / ONE_ETHER), StripZeros(PadStart(Decimal(abs % ONE_ETHER), PLACES));
            EtherDecimal(wei) == (if wei < 0 then "-" else "") + whole + "." + frac &&
            IsDecimal(frac) && frac[|frac| - 1] != '0'
  {
    hide DecimalValue, Decimal, StripZeros, PadStart;
    var abs := if wei < 0 then -wei else wei;
    PrintsBody(wei);
    FractionOf(abs % ONE_ETHER);
    var whole, frac := Decimal(abs / ONE_ETHER), StripZeros(PadStart(Decimal(abs % ONE_ETHER), PLACES));
    assert "-" + (whole + "." + frac) == "-" + whole + "." + frac;
    assert "" + whole + "." + frac == whole + "." + frac;
  }

  /** A point stands between digits, and the last digit after it is not zero. */
  predicate Canonical(s: string, i: nat)
    requires i < |s|
  {
    0 < i < |s| - 1 && IsDigit(s[i - 1]) && s[|s| - 1] != '0' && forall k :: i < k < |s| ==> IsDigit(s[k])
  }

  lemma PointBetween(sign: string, whole: string, frac: string, i: nat)
    requires (sign == "" || sign == "-") && IsDecimal(whole) && IsDecimal(frac) && frac[|frac| - 1] != '0'
    requires i < |sign + whole + "." + frac| && (sign + whole + "." + frac)[i] == '.'
    ensures Canonical(sign + whole + "." + frac, i)
  {
    var s, head := sign + whole + "." + frac, sign + whole;
    assert forall k :: 0 <= k < |sign| ==> s[k] == sign[k];
    assert forall k :: |sign| <= k < |head| ==> s[k] == whole[k - |sign|];
    assert forall k :: |head| < k < |s| ==> s[k] == frac[k - |head| - 1];
  }

  /** No bare point and no trailing fractional zero, for any integer. */
  lemma PrintsCanonically(wei: int, i: nat)
    requires i < |EtherDecimal(wei)| && EtherDecimal(wei)[i] == '.'
    ensures Canonical(EtherDecimal(wei), i)
  {
    hide EtherDecimal, Decimal, StripZeros, PadStart, Canonical;
    if wei % ONE_ETHER == 0 {
      WholeHasNoPoint(wei);
    } else {
      FractionIsLast(wei);
      var abs := if wei < 0 then -wei else wei;
      PointBetween(if wei < 0 then "-" else "", Decimal(abs / ONE_ETHER),
                   StripZeros(PadStart(Decimal(abs % ONE_ETHER), PLACES)), i);
    }
  }

  /** The string form: a decimal numeral of wei, negative or not, reads back as that many wei. */
  lemma ConversionKeepsTheAmount(s: string)
    requires IsDecimal(s)
    ensures var r := WeiDecimalStringToEtherDecimalString(s);
            r.Some? && ReadEther(r.value) == Some(DecimalValue(s))
    ensures var r := WeiDecimalStringToEtherDecimalString("-" + s);
            r.Some? && ReadEther(r.value) == Some(0 - DecimalValue(s))
  {
    hide EtherDecimal, ReadEther, DecimalValue;
    PrintedReadsBack(DecimalValue(s));
    PrintedReadsBack(0 - DecimalValue(s));
    assert ("-" + s)[1..] == s && ("-" + s)[0] == '-';
  }
}
