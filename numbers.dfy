/** JavaScript's `parseFloat(s) || 0`, which the form uses to turn the
    typed weight and price into numbers. Numbers are exact reals here. */
module Numbers {
  import opened Wrappers

  predicate IsDigit(c: char) { '0' <= c <= '9' }

  function DigitValue(c: char): (d: nat)
    requires IsDigit(c)
    ensures d < 10
  {
    c as int - '0' as int
  }

  /** The white space and line terminators `parseFloat` skips before the number. */
  predicate IsSpace(c: char)
  {
    c as int in {9, 10, 11, 12, 13, 32, 0xA0, 0x1680, 0x2000, 0x2001, 0x2002, 0x2003, 0x2004,
                 0x2005, 0x2006, 0x2007, 0x2008, 0x2009, 0x200A, 0x2028, 0x2029, 0x202F,
                 0x205F, 0x3000, 0xFEFF}
  }

  /** Length of the longest prefix of `s` made of digits. */
  function DigitRun(s: string): (n: nat)
    ensures n <= |s|
    ensures forall i :: 0 <= i < n ==> IsDigit(s[i])
    ensures n < |s| ==> !IsDigit(s[n])
    decreases |s|
  {
    if s == [] || !IsDigit(s[0]) then 0 else 1 + DigitRun(s[1..])
  }

  /** Length of the longest prefix of `s` made of white space. */
  function SpaceRun(s: string): (n: nat)
    ensures n <= |s|
    ensures forall i :: 0 <= i < n ==> IsSpace(s[i])
    ensures n < |s| ==> !IsSpace(s[n])
    decreases |s|
  {
    if s == [] || !IsSpace(s[0]) then 0 else 1 + SpaceRun(s[1..])
  }

  predicate AllDigits(s: string)
  {
    forall i :: 0 <= i < |s| ==> IsDigit(s[i])
  }

  /** The value of a string of decimal digits, most significant first. */
  function DigitsValue(s: string): nat
    requires AllDigits(s)
    decreases |s|
  {
    if s == [] then 0 else 10 * DigitsValue(s[..|s| - 1]) + DigitValue(s[|s| - 1])
  }

  function Pow10(n: nat): (r: nat)
    ensures r >= 1
  {
    if n == 0 then 1 else 10 * Pow10(n - 1)
  }

  /** The factor an exponent part (`e`, optional sign, at least one digit)
      at the start of `rest` contributes; 1 when there is none. */
  function ExponentScale(rest: string): (r: real)
    ensures r > 0.0
  {
    if |rest| > 0 && (rest[0] == 'e' || rest[0] == 'E') then
      var v := rest[1..];
      var negative := |v| > 0 && v[0] == '-';
      var w := if |v| > 0 && (v[0] == '-' || v[0] == '+') then v[1..] else v;
      var e := DigitRun(w);
      if e == 0 then 1.0
      else if negative then 1.0 / (Pow10(DigitsValue(w[..e])) as real)
      else Pow10(DigitsValue(w[..e])) as real
    else 1.0
  }

  /** The exact value of the decimal `whole.frac`. */
  function Decimal(whole: string, frac: string): (r: real)
    requires AllDigits(whole) && AllDigits(frac)
    ensures r >= 0.0
  {
    DigitsValue(whole) as real + DigitsValue(frac) as real / Pow10(|frac|) as real
  }

  /** `u` begins with a digit, or with a dot followed by a digit. */
  predicate StartsNumber(u: string)
  {
    |u| > 0 && (IsDigit(u[0]) || (u[0] == '.' && |u| > 1 && IsDigit(u[1])))
  }

  /** The number at the very start of `u` (no sign): digits with an
      optional fraction, then an optional exponent; `None` when there is
      no digit before the rest. */
  function ParseUnsigned(u: string): (r: Option<real>)
    ensures r.Some? <==> StartsNumber(u)
    ensures r.Some? ==> r.value >= 0.0
  {
    var k := DigitRun(u);
    if k < |u| && u[k] == '.' then ParseAfterDot(u[..k], u[k + 1..])
    else if k == 0 then None
    else Some(DigitsValue(u[..k]) as real * ExponentScale(u[k..]))
  }

  /** The rest of a number once its integer digits `whole` and the dot are read. */
  function ParseAfterDot(whole: string, v: string): (r: Option<real>)
    requires AllDigits(whole)
    ensures r.Some? <==> |whole| > 0 || (|v| > 0 && IsDigit(v[0]))
    ensures r.Some? ==> r.value >= 0.0
  {
    var f := DigitRun(v);
    if |whole| == 0 && f == 0 then None
    else Some(Decimal(whole, v[..f]) * ExponentScale(v[f..]))
  }

  /** An optional sign followed by an unsigned number. */
  function ParseSigned(t: string): (r: Option<real>)
    ensures |t| > 0 && (t[0] == '-' || t[0] == '+') ==> (r.Some? <==> StartsNumber(t[1..]))
    ensures !(|t| > 0 && (t[0] == '-' || t[0] == '+')) ==> (r.Some? <==> StartsNumber(t))
    // only a leading minus gives a negative number
    ensures r.Some? && r.value < 0.0 ==> t[0] == '-'
  {
    if |t| > 0 && t[0] == '-' then
      match ParseUnsigned(t[1..])
      case Some(v) => Some(-v)
      case None => None
    else if |t| > 0 && t[0] == '+' then ParseUnsigned(t[1..])
    else ParseUnsigned(t)
  }

  /** `parseFloat(s)`: skips leading white space, reads an optional sign,
      digits with an optional fraction and exponent, and ignores whatever
      follows. `None` stands for NaN (no digit where the number should be). */
  function ParseFloat(s: string): (r: Option<real>)
    // a number needs a digit, and a negative one a minus sign
    ensures r.Some? ==> exists i :: 0 <= i < |s| && IsDigit(s[i])
    ensures r.Some? && r.value < 0.0 ==> exists i :: 0 <= i < |s| && s[i] == '-'
    // a digit right after the leading white space always gives a number
    ensures SpaceRun(s) < |s| && IsDigit(s[SpaceRun(s)]) ==> r.Some?
  {
    var n := SpaceRun(s);
    var t := s[n..];
    assert |t| > 0 ==> t[0] == s[n];
    assert |t| > 1 ==> t[1] == s[n + 1];
    assert |t| > 2 ==> t[2] == s[n + 2];
    ParseSigned(t)
  }

  /** `parseFloat(s) || 0`: NaN (and 0 itself) become 0. */
  function Coerce(s: string): (r: real)
    // text without a digit reads as 0
    ensures (forall i :: 0 <= i < |s| ==> !IsDigit(s[i])) ==> r == 0.0
    // text without a minus sign never reads as negative
    ensures (forall i :: 0 <= i < |s| ==> s[i] != '-') ==> r >= 0.0
  {
    ParseFloat(s).GetOr(0.0)
  }

  /** The decimal numeral of `n`, as `String(n)` writes it. */
  function NatString(n: nat): (r: string)
    ensures |r| > 0 && AllDigits(r)
    decreases n
  {
    if n < 10 then [('0' as int + n) as char]
    else NatString(n / 10) + [('0' as int + n % 10) as char]
  }

  lemma {:induction false} NatStringValue(n: nat)
    ensures DigitsValue(NatString(n)) == n
    decreases n
  {
    if n >= 10 {
      NatStringValue(n / 10);
      var s := NatString(n);
      assert s[..|s| - 1] == NatString(n / 10);
    }
  }

  /** A run of digits followed by a non-digit (or nothing) is read whole. */
  lemma DigitRunAll(d: string, rest: string)
    requires AllDigits(d)
    requires rest == [] || !IsDigit(rest[0])
    ensures DigitRun(d + rest) == |d|
    decreases |d|
  {
    if d != [] {
      assert (d + rest)[1..] == d[1..] + rest;
      DigitRunAll(d[1..], rest);
    } else {
      assert d + rest == rest;
    }
  }

  lemma NoExponent(rest: string)
    requires rest == [] || (rest[0] != 'e' && rest[0] != 'E')
    ensures ExponentScale(rest) == 1.0
  {
  }

  /** Text that does not start with white space is parsed as it stands. */
  lemma NoLeadingSpace(s: string)
    requires s == [] || !IsSpace(s[0])
    ensures ParseFloat(s) == ParseSigned(s)
  {
    assert SpaceRun(s) == 0;
    assert s[0..] == s;
  }

  /** Round trip: reading back a number written in decimal yields it. */
  lemma NatRoundTrip(n: nat)
    ensures ParseFloat(NatString(n)) == Some(n as real)
    ensures Coerce(NatString(n)) == n as real
  {
    var s := NatString(n);
    NoLeadingSpace(s);
    DigitRunAll(s, []);
    assert s + [] == s;
    NatStringValue(n);
    assert s[..|s|] == s;
    assert s[|s|..] == [];
    NoExponent(s[|s|..]);
  }

  /** `whole.frac` with both parts digits and at least one digit reads as
      the exact decimal value. */
  lemma ReadsUnsignedDecimal(whole: string, frac: string)
    requires AllDigits(whole) && AllDigits(frac) && |whole| + |frac| > 0
    ensures ParseUnsigned(whole + "." + frac) == Some(Decimal(whole, frac))
  {
    var s := whole + "." + frac;
    DigitRunAll(whole, "." + frac);
    assert s == whole + ("." + frac);
    assert s[..|whole|] == whole;
    assert s[|whole|] == '.';
    assert s[|whole| + 1..] == frac;
    DigitRunAll(frac, []);
    assert frac + [] == frac;
    assert frac[..|frac|] == frac;
    assert frac[|frac|..] == [];
    NoExponent([]);
  }

  /** A leading minus negates the value that follows it. */
  lemma MinusNegates(t: string)
    requires t != [] && !IsSpace(t[0]) && t[0] != '-' && t[0] != '+'
    ensures ParseFloat("-" + t).Some? == ParseFloat(t).Some?
    ensures ParseFloat(t).Some? ==> ParseFloat("-" + t).value == -ParseFloat(t).value
  {
    NoLeadingSpace("-" + t);
    NoLeadingSpace(t);
    assert ("-" + t)[1..] == t;
  }

  /** A typed weight of "5.5" grams reads as 5.5. */
  lemma ReadsFivePointFive()
    ensures Coerce("5.5") == 5.5
  {
    ReadsUnsignedDecimal("5", "5");
    assert "5" + "." + "5" == "5.5";
    NoLeadingSpace("5.5");
    assert DigitsValue("5") == 5 by {
      assert "5"[..0] == "";
    }
  }

  /** The digits of "100.00" make the decimal 100. */
  lemma HundredDecimal()
    ensures Decimal("100", "00") == 100.0
  {
    NatStringValue(100);
    assert NatString(100) == "100" by {
      assert NatString(10) == "10";
    }
    assert DigitsValue("00") == 0 by {
      assert "00"[..1] == "0";
    }
  }

  /** A typed price of "100.00" reads as 100. */
  lemma ReadsHundred()
    ensures Coerce("100.00") == 100.0
  {
    assert ParseUnsigned("100.00") == Some(100.0) by {
      HundredDecimal();
      ReadsUnsignedDecimal("100", "00");
      assert "100" + "." + "00" == "100.00";
    }
    assert ParseFloat("100.00") == ParseUnsigned("100.00") by {
      NoLeadingSpace("100.00");
      assert "100.00"[0] == '1';
    }
  }

  /** An empty field or text without a number becomes 0 (NaN || 0). */
  lemma NonNumbersReadAsZero()
    ensures Coerce("") == 0.0
    ensures Coerce("abc") == 0.0
  {
    NoLeadingSpace("abc");
    NoLeadingSpace("");
    assert DigitRun("abc") == 0;
  }

  /** A negative price is read as negative; nothing turns it into 0. */
  lemma ReadsNegative()
    ensures Coerce("-5") == -5.0
  {
    NatRoundTrip(5);
    assert NatString(5) == "5";
    MinusNegates("5");
    assert "-" + "5" == "-5";
  }
}
