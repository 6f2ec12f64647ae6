/**
 `parseInt` as the order page applies it to the table-number field: leading
 white space, an optional sign and the longest run of decimal digits.
 */
module JsParse {
  import opened Common

  /** The value of a decimal digit. */
  function DigitValue(c: char): (v: nat)
    requires '0' <= c <= '9'
    ensures v < 10
  {
    c as int - '0' as int
  }

  /** The digit character of a value below ten. */
  function DigitChar(v: nat): (c: char)
    requires v < 10
    ensures '0' <= c <= '9' && DigitValue(c) == v
  {
    ('0' as int + v) as char
  }

  /** The longest prefix of decimal digits. */
  function LeadingDigits(s: string): (r: string)
    ensures |r| <= |s| && forall i :: 0 <= i < |r| ==> r[i] == s[i]
    ensures forall i :: 0 <= i < |r| ==> '0' <= r[i] <= '9'
    ensures |r| < |s| ==> !('0' <= s[|r|] <= '9')
  {
    if s != [] && '0' <= s[0] <= '9' then [s[0]] + LeadingDigits(s[1..]) else []
  }

  /** The number a string of decimal digits denotes. */
  function DigitsValue(ds: string): nat
    requires forall i :: 0 <= i < |ds| ==> '0' <= ds[i] <= '9'
  {
    if ds == [] then 0 else 10 * DigitsValue(ds[..|ds| - 1]) + DigitValue(ds[|ds| - 1])
  }

  /** The value of the longest digit prefix, or `None` when there is no digit. */
  function ParseDigits(u: string): (r: Option<int>)
    ensures r.Some? <==> u != [] && '0' <= u[0] <= '9'
    ensures r.Some? ==> r.value >= 0
  {
    if LeadingDigits(u) == [] then None else Some(DigitsValue(LeadingDigits(u)))
  }

  /** An optional sign, then digits. */
  function ParseSigned(t: string): (r: Option<int>)
    ensures var u := if t != [] && (t[0] == '-' || t[0] == '+') then t[1..] else t;
      r.Some? <==> u != [] && '0' <= u[0] <= '9'
    ensures r.Some? ==> if t[0] == '-' then r.value <= 0 else r.value >= 0
  {
    if t != [] && t[0] == '-' then
      (match ParseDigits(t[1..]) case None => None case Some(v) => Some(-v))
    else if t != [] && t[0] == '+' then ParseDigits(t[1..])
    else ParseDigits(t)
  }

  /** `parseInt(s)`: leading white space, an optional sign, then as many decimal
      digits as there are; no digit at all is NaN, here `None`. */
  function ParseInt(s: string): Option<int> {
    ParseSigned(TrimStart(s))
  }

  /** `parseInt` gives a number exactly when a digit follows the leading white
      space and the optional sign, and the number is negative only after a
      minus sign. */
  lemma ParseIntDefinedExactly(s: string)
    ensures var t := TrimStart(s);
      var u := if t != [] && (t[0] == '-' || t[0] == '+') then t[1..] else t;
      ParseInt(s).Some? <==> u != [] && '0' <= u[0] <= '9'
    ensures ParseInt(s).Some? ==> if TrimStart(s)[0] == '-' then ParseInt(s).value <= 0 else ParseInt(s).value >= 0
  {
  }

  /** The decimal digits of a natural number, as the number input holds them. */
  function NatToString(n: nat): (s: string)
    ensures s != [] && forall i :: 0 <= i < |s| ==> '0' <= s[i] <= '9'
  {
    if n < 10 then [DigitChar(n)] else NatToString(n / 10) + [DigitChar(n % 10)]
  }

  /** Reading back the digits of a number gives the number. */
  lemma {:induction false} DigitsValueOfNatToString(n: nat)
    ensures DigitsValue(NatToString(n)) == n
  {
    if n >= 10 {
      DigitsValueOfNatToString(n / 10);
      var s := NatToString(n);
      assert s[..|s| - 1] == NatToString(n / 10);
    }
  }

  /** The digit prefix of `u` is its first `n` characters when those are
      digits and the next one, if any, is not. */
  lemma {:induction false} LeadingDigitsLength(u: string, n: nat)
    requires n <= |u| && forall i :: 0 <= i < n ==> '0' <= u[i] <= '9'
    requires n == |u| || !('0' <= u[n] <= '9')
    ensures |LeadingDigits(u)| == n
  {
    if n > 0 {
      LeadingDigitsLength(u[1..], n - 1);
    }
  }

  /** Digits followed by text that does not start with a digit (a decimal
      point, an exponent, a letter, nothing) parse to the value of the digits. */
  lemma ParseDigitsThen(ds: string, rest: string)
    requires ds != [] && forall i :: 0 <= i < |ds| ==> '0' <= ds[i] <= '9'
    requires rest == [] || !('0' <= rest[0] <= '9')
    ensures ParseDigits(ds + rest) == Some(DigitsValue(ds) as int)
  {
    var u := ds + rest;
    LeadingDigitsLength(u, |ds|);
    assert LeadingDigits(u) == ds;
  }

  /** Without a sign, the digits are read from the first character on. */
  lemma ParseSignedOfUnsigned(t: string)
    requires t == [] || (t[0] != '-' && t[0] != '+')
    ensures ParseSigned(t) == ParseDigits(t)
  {
  }

  /** A minus sign negates the value of the digits after it. */
  lemma ParseSignedOfNegated(t: string, u: string, v: int)
    requires t != [] && t[0] == '-' && t[1..] == u && ParseDigits(u) == Some(v)
    ensures ParseSigned(t) == Some(-v)
  {
  }

  /** A minus sign at the very front negates the value of the digits after it. */
  lemma ParseIntOfNegated(u: string, v: int)
    requires ParseDigits(u) == Some(v)
    ensures ParseInt("-" + u) == Some(-v)
  {
    var t := "-" + u;
    assert t[0] == '-' && t[1..] == u;
    ParseSignedOfNegated(t, u, v);
    TrimStartOfUnspaced(t);
  }

  /** Digits at the very front are read as they stand. */
  lemma ParseIntOfUnsigned(u: string, v: int)
    requires ParseDigits(u) == Some(v)
    ensures ParseInt(u) == Some(v)
  {
    ParseSignedOfUnsigned(u);
    TrimStartOfUnspaced(u);
  }

  /** The digits of a natural number, followed by text that does not start
      with a digit, parse back to the number: "12.5" and "12e3" both give 12. */
  lemma ParseIntRoundTripThen(n: nat, rest: string)
    requires rest == [] || !('0' <= rest[0] <= '9')
    ensures ParseInt(NatToString(n) + rest) == Some(n as int)
  {
    DigitsValueOfNatToString(n);
    ParseDigitsThen(NatToString(n), rest);
    ParseIntOfUnsigned(NatToString(n) + rest, n as int);
  }

  /** With a minus sign in front, they parse back to the negated number. */
  lemma ParseIntNegatedRoundTripThen(n: nat, rest: string)
    requires rest == [] || !('0' <= rest[0] <= '9')
    ensures ParseInt("-" + (NatToString(n) + rest)) == Some(-(n as int))
  {
    DigitsValueOfNatToString(n);
    ParseDigitsThen(NatToString(n), rest);
    ParseIntOfNegated(NatToString(n) + rest, n as int);
  }

  /** A table number typed as the digits of a natural number is parsed back to it. */
  lemma ParseIntRoundTrip(n: nat)
    ensures ParseInt(NatToString(n)) == Some(n as int)
  {
    ParseIntRoundTripThen(n, []);
    assert NatToString(n) + [] == NatToString(n);
  }

  /** With a minus sign in front, it is parsed back to the negated number. */
  lemma ParseIntNegatedRoundTrip(n: nat)
    ensures ParseInt("-" + NatToString(n)) == Some(-(n as int))
  {
    ParseIntNegatedRoundTripThen(n, []);
    assert NatToString(n) + [] == NatToString(n);
  }
}
