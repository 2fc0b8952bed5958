/** Decimal rendering and parsing of integers: `strconv.Itoa` and `strconv.Atoi`. */
module Decimal {

  datatype Option<+T> = None | Some(value: T)

  const MAX_INT64: int := 0x7fff_ffff_ffff_ffff

  function DigitChar(d: nat): (c: char)
    requires d < 10
    ensures '0' <= c <= '9'
  {
    '0' + d as char
  }

  predicate IsDigit(c: char) {
    '0' <= c <= '9'
  }

  function DigitValue(c: char): (d: nat)
    requires IsDigit(c)
    ensures d < 10
  {
    (c - '0') as nat
  }

  function Digits(n: nat): (s: string)
    ensures |s| >= 1 && forall c | c in s :: IsDigit(c)
  {
    if n < 10 then [DigitChar(n)] else Digits(n / 10) + [DigitChar(n % 10)]
  }

  function Itoa(n: int): (s: string)
    ensures |s| >= 1
    ensures forall c | c in s :: IsDigit(c) || c == '-'
  {
    if n < 0 then "-" + Digits(-n) else Digits(n)
  }

  /** Value of an all-digit string read left to right. */
  function DigitsValue(s: string): (n: nat)
    requires forall c | c in s :: IsDigit(c)
  {
    if s == [] then 0 else DigitsValue(s[..|s| - 1]) * 10 + DigitValue(s[|s| - 1])
  }

  /** `strconv.Atoi` on a 64-bit platform: optional sign, at least one digit, in range. */
  function Atoi(s: string): (r: Option<int>)
  {
    var neg := |s| > 0 && s[0] == '-';
    var body := if |s| > 0 && (s[0] == '-' || s[0] == '+') then s[1..] else s;
    if body == [] || exists i :: 0 <= i < |body| && !IsDigit(body[i]) then None
    else
      assert forall c | c in body :: IsDigit(c);
      var d: int := DigitsValue(body);
      var v := if neg then -d else d;
      if -MAX_INT64 - 1 <= v <= MAX_INT64 then Some(v) else None
  }

  lemma {:induction false} DigitsRoundTrip(n: nat)
    ensures DigitsValue(Digits(n)) == n
  {
    var s := Digits(n);
    if n < 10 {
      assert s[..0] == [];
    } else {
      DigitsRoundTrip(n / 10);
      assert s[..|s| - 1] == Digits(n / 10);
    }
  }

  /** Parsing a rendered 64-bit number gives the number back. */
  lemma AtoiItoa(n: int)
    requires -MAX_INT64 - 1 <= n <= MAX_INT64
    ensures Atoi(Itoa(n)) == Some(n)
  {
    var s := Itoa(n);
    if n < 0 {
      DigitsRoundTrip(-n);
      assert s[1..] == Digits(-n);
    } else {
      DigitsRoundTrip(n);
      assert s[0] in s;
    }
  }

  /** Rendering never repeats: two numbers with one spelling are equal. */
  lemma DigitsInjective(m: nat, n: nat)
    requires Digits(m) == Digits(n)
    ensures m == n
  {
    DigitsRoundTrip(m);
    DigitsRoundTrip(n);
  }

  function Pow10(d: nat): (p: nat)
    ensures p >= 1
  {
    if d == 0 then 1 else 10 * Pow10(d - 1)
  }

  /** A number has at most `d` digits exactly when it is below 10^d. */
  lemma {:induction false} DigitCount(n: nat, d: nat)
    requires d >= 1
    ensures |Digits(n)| <= d <==> n < Pow10(d)
  {
    if n < 10 {
      Pow10Grows(1, d);
    } else if d == 1 {
      assert Pow10(1) == 10 * Pow10(0);
    } else {
      DigitCount(n / 10, d - 1);
    }
  }

  lemma {:induction false} Pow10Grows(a: nat, b: nat)
    requires a <= b
    ensures Pow10(a) <= Pow10(b) && Pow10(a) - 1 >= a
    decreases b
  {
    if a == b {
      if a > 0 {
        Pow10Grows(a - 1, a - 1);
      }
    } else {
      Pow10Grows(a, b - 1);
    }
  }
}
