/** Decimal rendering of integers, as string interpolation renders a `long`,
    together with a reader that recovers the integer from the text: the reader is
    the partner that shows the rendering loses nothing. */
module Decimal {

  datatype Option<T> = None | Some(value: T)

  predicate IsDigit(c: char) {
    '0' <= c <= '9'
  }

  predicate AllDigits(s: string) {
    forall i :: 0 <= i < |s| ==> IsDigit(s[i])
  }

  function DigitValue(c: char): (d: nat)
    requires IsDigit(c)
    ensures d < 10
  {
    c as int - '0' as int
  }

  function DigitChar(d: nat): (c: char)
    requires d < 10
    ensures IsDigit(c) && DigitValue(c) == d
  {
    ('0' as int + d) as char
  }

  /** The shortest decimal numeral of `n`: most significant digit first. */
  function NatToString(n: nat): string
    decreases n
  {
    if n < 10 then [DigitChar(n)] else NatToString(n / 10) + [DigitChar(n % 10)]
  }

  /** An integer as its decimal numeral, with a leading '-' when negative. */
  function IntToString(n: int): (s: string)
    ensures |s| > 0
    ensures n >= 0 ==> AllDigits(s)
    ensures n < 0 ==> s[0] == '-' && |s| > 1 && AllDigits(s[1..])
  {
    if n < 0 then
      NatToStringDigits(-n);
      assert ("-" + NatToString(-n))[1..] == NatToString(-n);
      "-" + NatToString(-n)
    else
      NatToStringDigits(n);
      NatToString(n)
  }

  /** The numeral of `n` is a non-empty run of digits without leading zeros. */
  lemma {:induction false} NatToStringDigits(n: nat)
    ensures |NatToString(n)| > 0 && AllDigits(NatToString(n))
    ensures |NatToString(n)| > 1 ==> NatToString(n)[0] != '0'
    decreases n
  {
    if n >= 10 {
      NatToStringDigits(n / 10);
      assert NatToString(n)[0] == NatToString(n / 10)[0];
    }
  }

  /** The value of a numeral; the empty numeral reads as 0. */
  function ParseDigits(s: string): nat
    requires AllDigits(s)
  {
    if s == [] then 0 else ParseDigits(s[..|s| - 1]) * 10 + DigitValue(s[|s| - 1])
  }

  /** How many digits `s` starts with. */
  function LeadingDigits(s: string): (k: nat)
    ensures k <= |s|
    ensures AllDigits(s[..k])
    ensures k < |s| ==> !IsDigit(s[k])
  {
    if s == [] || !IsDigit(s[0]) then 0
    else
      var k := 1 + LeadingDigits(s[1..]);
      assert s[..k] == [s[0]] + s[1..][..k - 1];
      k
  }

  /** Reads the longest run of digits at the front of `s`. */
  function ReadNat(s: string): (r: Option<(nat, string)>)
    ensures r.Some? <==> (|s| > 0 && IsDigit(s[0]))
    ensures r.Some? ==> |r.value.1| < |s| && r.value.1 == s[|s| - |r.value.1|..]
  {
    var k := LeadingDigits(s);
    if k == 0 then None else Some((ParseDigits(s[..k]), s[k..]))
  }

  /** Reads an optional '-' and a run of digits at the front of `s`. */
  function ReadInt(s: string): Option<(int, string)>
  {
    if |s| > 0 && s[0] == '-' then
      match ReadNat(s[1..])
      case None => None
      case Some((n, t)) => Some((-(n as int), t))
    else
      match ReadNat(s)
      case None => None
      case Some((n, t)) => Some((n as int, t))
  }

  /** Text that cannot continue a numeral. */
  predicate Delimited(t: string) {
    t == [] || !IsDigit(t[0])
  }

  lemma {:induction false} ParseNatToString(n: nat)
    ensures AllDigits(NatToString(n)) && ParseDigits(NatToString(n)) == n
    decreases n
  {
    var s := NatToString(n);
    NatToStringDigits(n);
    if n >= 10 {
      assert s[..|s| - 1] == NatToString(n / 10);
      ParseNatToString(n / 10);
    }
  }

  lemma {:induction false} LeadingDigitsAppend(d: string, t: string)
    requires AllDigits(d)
    ensures LeadingDigits(d + t) == |d| + LeadingDigits(t)
  {
    if d == [] {
      assert d + t == t;
    } else {
      assert (d + t)[1..] == d[1..] + t;
      LeadingDigitsAppend(d[1..], t);
    }
  }

  lemma ReadNatOfNumeral(n: nat, t: string)
    requires Delimited(t)
    ensures ReadNat(NatToString(n) + t) == Some((n, t))
  {
    var d := NatToString(n);
    NatToStringDigits(n);
    LeadingDigitsAppend(d, t);
    assert LeadingDigits(t) == 0;
    assert (d + t)[..|d|] == d;
    assert (d + t)[|d|..] == t;
    ParseNatToString(n);
  }

  /** Reading back a rendered integer gives the integer and the untouched rest. */
  lemma ReadIntOfIntToString(n: int, t: string)
    requires Delimited(t)
    ensures ReadInt(IntToString(n) + t) == Some((n, t))
  {
    var s := IntToString(n) + t;
    if n < 0 {
      var d := NatToString(-n);
      assert s == "-" + (d + t);
      assert s[1..] == d + t;
      ReadNatOfNumeral(-n, t);
      assert ReadNat(s[1..]) == Some((-n, t));
    } else {
      var d := NatToString(n);
      assert s == d + t;
      NatToStringDigits(n);
      assert IsDigit(s[0]);
      ReadNatOfNumeral(n, t);
    }
  }
}
