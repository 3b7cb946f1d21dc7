/** Decimal digit strings: rendering integers (Number.prototype.toString, padStart) and the
    simplified reading of quantities typed by the user (Number() and parseInt()). */
module Numbers {
  import opened Wrappers
  import opened Text

  predicate IsDigit(c: char) {
    '0' <= c <= '9'
  }

  predicate AllDigits(s: string) {
    forall k :: 0 <= k < |s| ==> IsDigit(s[k])
  }

  function DigitChar(d: nat): (c: char)
    requires d < 10
    ensures IsDigit(c) && c as int - '0' as int == d
  {
    ('0' as int + d) as char
  }

  /** The value of a decimal digit string, most significant digit first. */
  function DigitsValue(s: string): nat
    requires AllDigits(s)
    decreases |s|
  {
    if s == [] then 0 else DigitsValue(s[..|s| - 1]) * 10 + (s[|s| - 1] as int - '0' as int)
  }

  lemma DigitsValueSnoc(s: string, c: char)
    requires AllDigits(s) && IsDigit(c)
    ensures AllDigits(s + [c]) && DigitsValue(s + [c]) == DigitsValue(s) * 10 + (c as int - '0' as int)
  {
    assert (s + [c])[..|s|] == s;
  }

  /** Leading zeros do not change the value of a digit string. */
  lemma {:induction false} DigitsValueLeadingZero(s: string)
    requires AllDigits(s)
    ensures AllDigits("0" + s) && DigitsValue("0" + s) == DigitsValue(s)
    decreases |s|
  {
    if s != [] {
      var init := s[..|s| - 1];
      DigitsValueLeadingZero(init);
      assert ("0" + s)[..|"0" + s| - 1] == "0" + init;
    }
  }

  /** The decimal rendering of a natural number, without leading zeros; reading it back gives
      the number. */
  function NatToString(n: nat): (r: string)
    ensures |r| >= 1 && AllDigits(r)
    ensures DigitsValue(r) == n
    ensures |r| > 1 ==> r[0] != '0'
    ensures n < 10 ==> |r| == 1
    ensures 10 <= n < 100 ==> |r| == 2
  {
    if n < 10 then [DigitChar(n)]
    else
      var r := NatToString(n / 10) + [DigitChar(n % 10)];
      DigitsValueSnoc(NatToString(n / 10), DigitChar(n % 10));
      r
  }

  /** The decimal rendering of an integer, with a minus sign when it is negative. */
  function IntToString(i: int): (r: string)
    ensures |r| >= 1
    ensures i >= 0 ==> r == NatToString(i)
    ensures i < 0 ==> r == "-" + NatToString(-i)
  {
    if i < 0 then "-" + NatToString(-i) else NatToString(i)
  }

  /** String.prototype.padStart(2, '0'). */
  function PadTwo(s: string): (r: string)
    ensures |s| < 2 ==> |r| == 2 && r[2 - |s|..] == s && forall k :: 0 <= k < 2 - |s| ==> r[k] == '0'
    ensures |s| >= 2 ==> r == s
  {
    if |s| >= 2 then s else seq(2 - |s|, k => '0') + s
  }

  /** Two-digit zero-padded rendering of a number below 100. */
  lemma PadTwoNat(n: nat)
    requires n < 100
    ensures |PadTwo(NatToString(n))| == 2
    ensures AllDigits(PadTwo(NatToString(n))) && DigitsValue(PadTwo(NatToString(n))) == n
  {
    var s := NatToString(n);
    if n < 10 {
      assert PadTwo(s) == "0" + s;
      DigitsValueLeadingZero(s);
    }
  }

  /** An optional sign followed by one or more decimal digits, and nothing else. */
  function ParseSigned(s: string): (r: Option<int>)
    ensures r.Some? <==> (s != [] && (if s[0] == '-' || s[0] == '+' then |s| > 1 && AllDigits(s[1..]) else AllDigits(s)))
  {
    if s == [] then None
    else if s[0] == '-' || s[0] == '+' then
      var digits := s[1..];
      if digits != [] && AllDigits(digits) then
        var v: int := DigitsValue(digits);
        Some(if s[0] == '-' then -v else v)
      else None
    else if AllDigits(s) then Some(DigitsValue(s))
    else None
  }

  /** Number(s) on the strings this model reads: surrounding white space is ignored, a blank
      string is 0, a signed decimal integer is its value, anything else is NaN (None). */
  function ParseNumber(s: string): Option<int> {
    var t := Trim(s);
    if t == [] then Some(0) else ParseSigned(t)
  }

  /** parseInt(s) on the strings this model reads: like ParseNumber, except that a blank
      string is NaN. */
  function ParseInt(s: string): Option<int> {
    ParseSigned(Trim(s))
  }

  /** The quantity checks of the entry forms: Number(s) is a number greater than zero. */
  predicate PositiveQuantity(s: string) {
    ParseNumber(s).Some? && ParseNumber(s).value > 0
  }

  lemma DigitsHaveNoSpace(s: string)
    requires AllDigits(s)
    ensures Trim(s) == s
  {
    TrimUnpadded(s);
  }

  /** Rendering a natural number and reading it back with Number() or parseInt() gives the
      number. */
  lemma ParseNatToString(n: nat)
    ensures ParseNumber(NatToString(n)) == Some(n)
    ensures ParseInt(NatToString(n)) == Some(n)
  {
    DigitsHaveNoSpace(NatToString(n));
  }

  /** The same round trip for every integer, through the minus sign. */
  lemma ParseIntToString(i: int)
    ensures ParseNumber(IntToString(i)) == Some(i)
    ensures ParseInt(IntToString(i)) == Some(i)
  {
    var s := IntToString(i);
    if i < 0 {
      ParseNegative(-i);
      TrimUnpadded(s);
    } else {
      DigitsHaveNoSpace(s);
    }
  }

  /** The value of every accepted text: a digit string reads as its decimal value, with or
      without a '+' and whatever zeros lead it, and a '-' negates it (so "-0" is 0). */
  lemma ParseDigitsValue(t: string)
    requires t != [] && AllDigits(t)
    ensures ParseSigned(t) == Some(DigitsValue(t))
    ensures ParseSigned("+" + t) == Some(DigitsValue(t))
    ensures ParseSigned("-" + t) == Some(-(DigitsValue(t) as int))
    ensures ParseSigned("0" + t) == ParseSigned(t)
  {
    assert ("+" + t)[1..] == t;
    assert ("-" + t)[1..] == t;
    DigitsValueLeadingZero(t);
  }

  lemma ParseNegative(n: nat)
    requires n > 0
    ensures ParseSigned("-" + NatToString(n)) == Some(-(n as int))
  {
    var s := "-" + NatToString(n);
    assert s[1..] == NatToString(n);
  }
}
