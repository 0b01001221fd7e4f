/** Decimal integers as the Go runtime reads and writes them: `strconv.Atoi`
    (used by the HTTP handler; on a 64-bit platform it accepts the same
    strings as the `strconv.ParseInt(s, 10, 64)` that `database/sql` uses to
    scan into an `int`) and the `%d` rendering, for a 64-bit `int`. */
module Strconv {
  import opened Outcomes

  const MinInt64: int := -0x8000_0000_0000_0000
  const MaxInt64: int := 0x7fff_ffff_ffff_ffff

  predicate InInt64(v: int) {
    MinInt64 <= v <= MaxInt64
  }

  predicate IsDigit(c: char) {
    '0' <= c <= '9'
  }

  predicate AllDigits(s: string) {
    forall i :: 0 <= i < |s| ==> IsDigit(s[i])
  }

  function DigitValue(c: char): nat
    requires IsDigit(c)
  {
    c as int - '0' as int
  }

  function DigitChar(d: nat): (c: char)
    requires d < 10
    ensures IsDigit(c) && DigitValue(c) == d
  {
    ('0' as int + d) as char
  }

  /** Value of a string of decimal digits, most significant first. */
  function DigitsValue(s: string): nat
    requires AllDigits(s)
  {
    if s == [] then 0 else DigitsValue(s[..|s| - 1]) * 10 + DigitValue(s[|s| - 1])
  }

  /** `s` without its leading sign, if it has one. */
  function Magnitude(s: string): string {
    if |s| > 0 && (s[0] == '+' || s[0] == '-') then s[1..] else s
  }

  /** A magnitude with the polarity of a sign. */
  function Signed(sign: string, m: nat): int {
    if sign == "-" then -(m as int) else m
  }

  /** `strconv.Atoi` on a 64-bit platform: an optional `+` or `-`, then one
      or more decimal digits (no underscores, no spaces), whose value must fit
      in 64 bits; anything else is a syntax or range error, here `None`. */
  function Atoi(s: string): (r: Option<int>)
    ensures r.Some? ==> InInt64(r.value)
    ensures r.Some? ==> |s| >= 1 && forall i :: 0 <= i < |s| ==> IsDigit(s[i]) || (i == 0 && (s[0] == '+' || s[0] == '-'))
    ensures r.Some? ==> (s[0] == '+' || s[0] == '-' ==> |s| >= 2)
    ensures r.Some? && s[0] == '-' ==> r.value <= 0
    ensures r.Some? && s[0] != '-' ==> r.value >= 0
    ensures r.Some? ==> AllDigits(Magnitude(s)) && (if r.value < 0 then -r.value else r.value) == DigitsValue(Magnitude(s))
  {
    if s == [] then None
    else
      var digits := Magnitude(s);
      if digits == [] || !AllDigits(digits) then None
      else
        var mag: int := DigitsValue(digits);
        var v := if s[0] == '-' then -mag else mag;
        if InInt64(v) then Some(v) else None
  }

  /** Decimal digits of a natural number, without leading zeros. */
  function Digits(n: nat): (s: string)
    ensures |s| >= 1 && AllDigits(s) && DigitsValue(s) == n
    ensures s[0] == '0' ==> n == 0
  {
    if n < 10 then [DigitChar(n)]
    else
      var prefix := Digits(n / 10);
      var s := prefix + [DigitChar(n % 10)];
      assert s[..|s| - 1] == prefix;
      s
  }

  /** The `%d` rendering of an integer. */
  function Itoa(i: int): (s: string)
    ensures |s| >= 1
  {
    if i < 0 then "-" + Digits(-i) else Digits(i)
  }

  /** Every 64-bit integer written with `%d` reads back with `Atoi`. */
  lemma AtoiItoa(i: int)
    requires InInt64(i)
    ensures Atoi(Itoa(i)) == Some(i)
  {
    var s := Itoa(i);
    if i < 0 {
      assert s[1..] == Digits(-i);
    }
  }

  /** The converse of `Atoi`'s contract: an optional sign followed by one or
      more digits, leading zeros allowed, is accepted whenever its value fits
      in 64 bits, and it reads as that value. */
  lemma AtoiAccepts(sign: string, d: string)
    requires sign == "" || sign == "+" || sign == "-"
    requires |d| >= 1 && AllDigits(d)
    requires InInt64(Signed(sign, DigitsValue(d)))
    ensures Atoi(sign + d) == Some(Signed(sign, DigitsValue(d)))
  {
    var s := sign + d;
    if sign == "" {
      assert s == d;
      assert s[0] != '+' && s[0] != '-' by { assert IsDigit(d[0]); }
    } else {
      assert s[0] == sign[0] && s[1..] == d;
    }
    assert Magnitude(s) == d;
  }

  /** Atoi accepts no empty string and no bare sign, so a missing value can
      never be mistaken for a number. */
  lemma AtoiRejectsEmptyAndBareSign()
    ensures Atoi("") == None && Atoi("+") == None && Atoi("-") == None
  {
  }
}
