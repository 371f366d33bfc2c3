/**
  Python's `str` on the scalar values that reach an f-string in the
  converter (the event key and the pen in the output file name).
 */
module PyStr {
  import opened JsonValue

  predicate IsDigit(c: char) {
    '0' <= c <= '9'
  }

  predicate AllDigits(s: string) {
    forall i :: 0 <= i < |s| ==> IsDigit(s[i])
  }

  /** The text `str` gives an int: an optional '-' followed by at least one
      digit, with no leading zero and no "-0". */
  predicate IsIntText(s: string) {
    && |s| > 0
    && (IsDigit(s[0]) || (s[0] == '-' && |s| > 1))
    && AllDigits(s[1..])
    && (s[0] == '0' ==> |s| == 1)
    && (s[0] == '-' ==> s[1] != '0')
  }

  function DigitChar(d: nat): (c: char)
    requires d < 10
    ensures IsDigit(c) && c as int - '0' as int == d
  {
    "0123456789"[d]
  }

  /** Decimal digits of a natural number, most significant first, no
      leading zeros. */
  function NatToString(n: nat): (s: string)
    ensures |s| > 0 && AllDigits(s)
    ensures n > 0 ==> s[0] != '0'
    decreases n
  {
    if n < 10 then [DigitChar(n)] else NatToString(n / 10) + [DigitChar(n % 10)]
  }

  /** `str(i)` for a Python int. */
  function IntToString(i: int): (s: string)
    ensures IsIntText(s)
  {
    if i < 0 then "-" + NatToString(-i) else NatToString(i)
  }

  /** Value of a run of decimal digits. */
  function DigitsValue(s: string): nat
    requires AllDigits(s)
  {
    if s == [] then 0
    else DigitsValue(s[..|s| - 1]) * 10 + (s[|s| - 1] as int - '0' as int)
  }

  /** Reads a decimal integer with an optional leading '-'. It also accepts
      texts `str` never prints ("007", "-0"), so it is a left inverse of
      `IntToString` only. */
  function ParseInt(s: string): Option<int> {
    if |s| > 1 && s[0] == '-' && AllDigits(s[1..]) then Some(0 - DigitsValue(s[1..]) as int)
    else if |s| > 0 && AllDigits(s) then Some(DigitsValue(s))
    else None
  }

  lemma {:induction false} NatRoundTrip(n: nat)
    ensures DigitsValue(NatToString(n)) == n
    decreases n
  {
    if n >= 10 {
      var s := NatToString(n);
      NatRoundTrip(n / 10);
      assert s[..|s| - 1] == NatToString(n / 10);
    }
  }

  /** `IntToString` loses nothing: parsing its text gives the int back. */
  lemma {:induction false} IntRoundTrip(i: int)
    ensures ParseInt(IntToString(i)) == Some(i)
  {
    var s := IntToString(i);
    if i < 0 {
      NatRoundTrip(-i);
      assert s[1..] == NatToString(-i);
    } else {
      NatRoundTrip(i);
      assert s == NatToString(i) && s[0] != '-';
    }
  }

  /** A run of digits that does not start with '0' has a positive value. */
  lemma {:induction false} LeadingDigitPositive(s: string)
    requires |s| > 0 && AllDigits(s) && s[0] != '0'
    ensures DigitsValue(s) > 0
    decreases |s|
  {
    if |s| > 1 {
      LeadingDigitPositive(s[..|s| - 1]);
    }
  }

  /** A run of digits without a leading zero is the text `NatToString`
      prints for its value. */
  lemma {:induction false} CanonicalDigits(s: string)
    requires |s| > 0 && AllDigits(s) && (s[0] == '0' ==> |s| == 1)
    ensures NatToString(DigitsValue(s)) == s
    decreases |s|
  {
    var n := DigitsValue(s);
    if |s| > 1 {
      var p := s[..|s| - 1];
      LeadingDigitPositive(p);
      CanonicalDigits(p);
      assert n / 10 == DigitsValue(p) && n % 10 == s[|s| - 1] as int - '0' as int;
      assert s == p + [s[|s| - 1]];
    }
  }

  /** The canonical text of an int is unique: a text of the form `str`
      prints that reads back as `i` is exactly `IntToString(i)`. */
  lemma IntTextUnique(s: string, i: int)
    requires IsIntText(s) && ParseInt(s) == Some(i)
    ensures s == IntToString(i)
  {
    if s[0] == '-' {
      var r := s[1..];
      LeadingDigitPositive(r);
      CanonicalDigits(r);
      assert s == "-" + r;
    } else {
      CanonicalDigits(s);
    }
  }

  /** Distinct ints print differently. */
  lemma IntToStringInjective(a: int, b: int)
    requires IntToString(a) == IntToString(b)
    ensures a == b
  {
    IntRoundTrip(a);
    IntRoundTrip(b);
  }

  /** The position of the first '-' in `s` at or after `i`, or `|s|`. */
  function DashFrom(s: string, i: nat): nat
    requires i <= |s|
    decreases |s| - i
  {
    if i == |s| then |s| else if s[i] == '-' then i else DashFrom(s, i + 1)
  }

  /** Past its first character an int text has digits only, so the first
      '-' after it is the one that follows it. */
  lemma {:induction false} DashAfterIntText(x: string, t: string, i: nat)
    requires IsIntText(x) && 1 <= i <= |x|
    requires |t| > 0 && t[0] == '-'
    ensures DashFrom(x + t, i) == |x|
    decreases |x| - i
  {
    if i < |x| {
      assert (x + t)[i] == x[1..][i - 1];
      DashAfterIntText(x, t, i + 1);
    }
  }

  /** An int text followed by a '-' can be split off a string in one way
      only. */
  lemma IntTextPrefix(x: string, y: string, t: string, u: string)
    requires IsIntText(x) && IsIntText(y)
    requires |t| > 0 && t[0] == '-' && |u| > 0 && u[0] == '-'
    requires x + t == y + u
    ensures x == y && t == u
  {
    var s := x + t;
    DashAfterIntText(x, t, 1);
    DashAfterIntText(y, u, 1);
    assert x == s[..|x|] == y;
    assert t == s[|x|..] == u;
  }

  /** What an f-string substitutes for a scalar JSON value. */
  function Display(v: Json): (s: string)
    requires IsScalar(v)
    ensures v.Int? ==> IsIntText(s) && ParseInt(s) == Some(v.i)
    ensures v.Num? ==> s == v.text
    ensures v.Str? ==> s == v.s
    ensures v.Null? ==> s == "None"
    ensures v.Bool? ==> s == (if v.b then "True" else "False")
  {
    match v
    case Null => "None"
    case Bool(b) => if b then "True" else "False"
    case Int(i) => IntRoundTrip(i); IntToString(i)
    case Num(text) => text
    case Str(s) => s
  }
}
