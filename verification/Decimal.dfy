/** Decimal numbers as Go's `fmt` prints them and `strconv` reads them. */
module Decimal {
  import opened Basics

  const TWO_TO_THE_31: int := 0x8000_0000
  const TWO_TO_THE_32: int := 0x1_0000_0000
  const TWO_TO_THE_64: int := 0x1_0000_0000_0000_0000

  predicate IsDigit(c: char) {
    '0' <= c <= '9'
  }

  predicate AllDigits(s: string) {
    forall i :: 0 <= i < |s| ==> IsDigit(s[i])
  }

  function DigitChar(d: nat): (c: char)
    requires d < 10
    ensures IsDigit(c)
  {
    '0' + d as char
  }

  function DigitValue(c: char): nat
    requires IsDigit(c)
  {
    c as int - '0' as int
  }

  /** `%d` for an unsigned value. */
  function FormatUint(n: nat): (s: string)
    ensures s != "" && AllDigits(s)
  {
    if n < 10 then [DigitChar(n)] else FormatUint(n / 10) + [DigitChar(n % 10)]
  }

  /** `%d` for a signed value. */
  function FormatInt(i: int): (s: string)
    ensures s != ""
    ensures forall k :: 0 <= k < |s| ==> IsDigit(s[k]) || s[k] == '-'
  {
    if i < 0 then "-" + FormatUint(-i) else FormatUint(i)
  }

  function DigitsValue(s: string): nat
    requires AllDigits(s)
  {
    if s == "" then 0
    else DigitsValue(s[..|s| - 1]) * 10 + DigitValue(s[|s| - 1])
  }

  /** `strconv.ParseUint(s, 10, bits)` with `limit` = 2^bits. */
  function ParseUint(s: string, limit: nat): (r: Option<nat>)
    ensures r.Some? ==> r.value < limit
  {
    if s == "" || !AllDigits(s) || DigitsValue(s) >= limit then None
    else Some(DigitsValue(s))
  }

  /** `strconv.ParseInt(s, 10, bits)` with `half` = 2^(bits-1): an optional
      sign, then digits, then a range check that admits -half. */
  function ParseInt(s: string, half: nat): Option<int> {
    if s == "" then None
    else if s[0] == '-' then
      var magnitude := ParseUint(s[1..], half + 1);
      if magnitude.None? then None
      else
        var n: int := magnitude.value;
        Some(-n)
    else
      var digits := if s[0] == '+' then s[1..] else s;
      var magnitude := ParseUint(digits, half);
      if magnitude.None? then None else Some(magnitude.value)
  }

  lemma {:induction false} DigitsValueOfFormat(n: nat)
    ensures DigitsValue(FormatUint(n)) == n
  {
    if n >= 10 {
      DigitsValueOfFormat(n / 10);
      assert FormatUint(n)[..|FormatUint(n)| - 1] == FormatUint(n / 10);
    } else {
      assert FormatUint(n)[..0] == "";
    }
  }

  lemma ParseUintOfFormat(n: nat, limit: nat)
    requires n < limit
    ensures ParseUint(FormatUint(n), limit) == Some(n)
  {
    DigitsValueOfFormat(n);
  }

  lemma ParseIntOfFormat(i: int, half: nat)
    requires -(half as int) <= i < half
    ensures ParseInt(FormatInt(i), half) == Some(i)
  {
    if i < 0 {
      ParseUintOfFormat(-i, half + 1);
      assert FormatInt(i)[1..] == FormatUint(-i);
    } else {
      ParseUintOfFormat(i, half);
      assert IsDigit(FormatUint(i)[0]);
    }
  }

  lemma FormatUintInjective(m: nat, n: nat)
    requires FormatUint(m) == FormatUint(n)
    ensures m == n
  {
    DigitsValueOfFormat(m);
    DigitsValueOfFormat(n);
  }

  lemma FormatIntInjective(i: int, j: int)
    requires FormatInt(i) == FormatInt(j)
    ensures i == j
  {
    var half := (if i < 0 then -i else i) + (if j < 0 then -j else j) + 1;
    ParseIntOfFormat(i, half);
    ParseIntOfFormat(j, half);
  }
}
