/** Python's numeric conversions `int(token)` and `float(token)` on the decimal forms the engine
    logs contain, and the `numpy.isclose` tolerance test used by the Gibbs consistency check. */
module PyNum {
  import opened Wrappers
  import opened PyStr

  predicate IsDigit(c: char) {
    '0' <= c <= '9'
  }

  predicate AllDigits(s: string) {
    forall i :: 0 <= i < |s| ==> IsDigit(s[i])
  }

  /** Value of a string of decimal digits, most significant first. */
  function DigitsValue(s: string): (v: nat)
    requires AllDigits(s)
    decreases |s|
  {
    if s == [] then 0 else 10 * DigitsValue(s[..|s| - 1]) + (s[|s| - 1] as int - '0' as int)
  }

  function Pow10(n: nat): (p: nat)
    ensures p >= 1
  {
    if n == 0 then 1 else 10 * Pow10(n - 1)
  }

  /** Python's `int(s)`: surrounding whitespace, an optional sign and at least one digit. */
  function ParseInt(s: string): Option<int> {
    var t := Strip(s);
    if t != [] && (t[0] == '-' || t[0] == '+') then
      var body := t[1..];
      if body != [] && AllDigits(body) then
        Some(if t[0] == '-' then -(DigitsValue(body) as int) else DigitsValue(body) as int)
      else None
    else if t != [] && AllDigits(t) then Some(DigitsValue(t))
    else None
  }

  /** Python's `float(s)` on decimal notation: surrounding whitespace, an optional sign, and digits
      with at most one decimal point and at least one digit. */
  function ParseReal(s: string): Option<real> {
    var t := Strip(s);
    if t != [] && (t[0] == '-' || t[0] == '+') then
      match ParseUnsigned(t[1..])
      case Some(v) => Some(if t[0] == '-' then -v else v)
      case None => None
    else ParseUnsigned(t)
  }

  /** Digits with at most one decimal point and at least one digit on either side of it. */
  function ParseUnsigned(t: string): (r: Option<real>)
    ensures r.Some? ==> r.value >= 0.0
  {
    var parts := SplitOn(t, '.');
    if |parts| == 1 && t != [] && AllDigits(t) then Some(DigitsValue(t) as real)
    else if |parts| == 2 && AllDigits(parts[0]) && AllDigits(parts[1]) && (parts[0] != [] || parts[1] != []) then
      Some(DigitsValue(parts[0]) as real + DigitsValue(parts[1]) as real / Pow10(|parts[1]|) as real)
    else None
  }

  /** `numpy.isclose(a, b, rtol=1e-9)` with numpy's default absolute tolerance of 1e-8. */
  predicate IsClose(a: real, b: real) {
    Abs(a - b) <= 0.00000001 + 0.000000001 * Abs(b)
  }

  function Abs(x: real): real {
    if x < 0.0 then -x else x
  }

  lemma {:induction false} DigitsOfNat(n: nat)
    ensures AllDigits(NatToString(n))
    ensures DigitsValue(NatToString(n)) == n
    decreases n
  {
    if n >= 10 {
      DigitsOfNat(n / 10);
      var s := NatToString(n);
      assert s[..|s| - 1] == NatToString(n / 10);
    }
  }

  lemma {:induction false} NoSpaceStrip(s: string)
    requires s != [] && forall i :: 0 <= i < |s| ==> !IsSpace(s[i])
    ensures Strip(s) == s
  {
  }

  /** `int(str(n)) == n`: the decimal rendering used in input files parses back to the same integer. */
  lemma {:induction false} ParseIntOfIntToString(n: int)
    ensures ParseInt(IntToString(n)) == Some(n)
  {
    if n < 0 {
      ParseIntOfNegative(-n);
    } else {
      ParseIntOfNatural(n);
    }
  }

  lemma {:induction false} ParseIntOfNatural(m: nat)
    ensures ParseInt(NatToString(m)) == Some(m)
  {
    var body := NatToString(m);
    DigitsOfNat(m);
    NoSpaceStrip(body);
    assert IsDigit(body[0]);
  }

  lemma {:induction false} ParseIntOfNegative(m: nat)
    ensures ParseInt("-" + NatToString(m)) == Some(-(m as int))
  {
    var body := NatToString(m);
    var s := "-" + body;
    DigitsOfNat(m);
    NoSpaceStrip(s);
    assert s[1..] == body;
  }

  /** `float(str(n)) == n` for an integer rendering. */
  lemma {:induction false} ParseRealOfIntToString(n: int)
    ensures ParseReal(IntToString(n)) == Some(n as real)
  {
    var m: nat := if n < 0 then -n else n;
    UnsignedOfNatToString(m);
    if n < 0 {
      ParseRealOfNegative(m);
    } else {
      ParseRealOfNatural(m);
    }
  }

  lemma {:induction false} ParseRealOfNatural(m: nat)
    requires ParseUnsigned(NatToString(m)) == Some(m as real)
    ensures ParseReal(NatToString(m)) == Some(m as real)
  {
    NoSpaceStrip(NatToString(m));
    assert IsDigit(NatToString(m)[0]);
  }

  lemma {:induction false} ParseRealOfNegative(m: nat)
    requires ParseUnsigned(NatToString(m)) == Some(m as real)
    ensures ParseReal("-" + NatToString(m)) == Some(-(m as real))
  {
    var s := "-" + NatToString(m);
    NoSpaceStrip(s);
    assert s[1..] == NatToString(m);
  }

  lemma {:induction false} UnsignedOfNatToString(m: nat)
    ensures ParseUnsigned(NatToString(m)) == Some(m as real)
  {
    DigitsOfNat(m);
    NoDotInDigits(NatToString(m));
  }

  lemma {:induction false} NoDotInDigits(s: string)
    requires AllDigits(s)
    ensures SplitOn(s, '.') == [s]
    decreases |s|
  {
    if s != [] {
      NoDotInDigits(s[1..]);
      assert [s[0]] + s[1..] == s;
    }
  }
}
