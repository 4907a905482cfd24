/** Choosing the unit in which a byte count is printed. */
module FormatBytes {
  import opened Decimal

  const UNIT: nat := 1024
  const SUFFIXES := "KMGTPE"

  function Power(n: nat): nat {
    if n == 0 then 1 else UNIT * Power(n - 1)
  }

  /** The loop of `formatBytes`, for values of at least one unit. Both the
      multiplication and the index into the suffixes stay in range for every
      unsigned 64-bit value, and the printed mantissa lies in [1, 1024). */
  method Scale(value: nat) returns (divisor: nat, exp: nat, suffix: char)
    requires 1024 <= value < TWO_TO_THE_64
    ensures exp <= 5 && divisor == Power(exp + 1) && divisor < TWO_TO_THE_64
    ensures divisor <= value < 1024 * divisor
    ensures suffix == "KMGTPE"[exp]
  {
    divisor, exp := UNIT, 0;
    var n := value / UNIT;
    assert Power(1) == UNIT * Power(0);
    while n >= UNIT
      invariant divisor == Power(exp + 1) && divisor > 0
      invariant n >= 1 && n * divisor <= value < (n + 1) * divisor
      decreases n
    {
      QuotientBounds(value, n, divisor);
      n := n / UNIT;
      divisor := divisor * UNIT;
      exp := exp + 1;
    }
    Scaled(divisor, 1, n);
    Scaled(divisor, n + 1, UNIT);
    ExponentBound(exp, value);
    suffix := SUFFIXES[exp];
  }

  lemma Scaled(divisor: nat, a: nat, b: nat)
    requires a <= b
    ensures a * divisor <= b * divisor
  {
    assert (b - a) * divisor >= 0;
  }

  /** Dividing the quotient by one unit more is dividing by a larger unit. */
  lemma QuotientBounds(value: nat, n: nat, divisor: nat)
    requires n * divisor <= value < (n + 1) * divisor
    ensures n / UNIT * (divisor * UNIT) <= value < (n / UNIT + 1) * (divisor * UNIT)
  {
    var q := n / UNIT;
    Scaled(divisor, q * UNIT, n);
    Scaled(divisor, n + 1, (q + 1) * UNIT);
    assert q * (divisor * UNIT) == q * UNIT * divisor;
    assert (q + 1) * (divisor * UNIT) == (q + 1) * UNIT * divisor;
  }

  lemma PowerMonotone(m: nat, n: nat)
    requires m <= n
    ensures 1 <= Power(m) <= Power(n)
    decreases n
  {
    if n == 0 {
    } else if m == n {
      PowerMonotone(m - 1, n - 1);
    } else {
      PowerMonotone(m, n - 1);
    }
  }

  /** 1024^7 exceeds 64 bits. */
  lemma ExponentBound(exp: nat, value: nat)
    requires Power(exp + 1) <= value < TWO_TO_THE_64
    ensures exp <= 5
  {
    assert Power(7) == 0x40_0000_0000_0000_0000 by {
      assert Power(2) == 0x10_0000;
      assert Power(4) == 0x100_0000_0000;
      assert Power(6) == 0x1000_0000_0000_0000;
    }
    if exp > 5 {
      PowerMonotone(7, exp + 1);
    }
  }

  /** So the chosen unit is the largest that does not exceed the value. */
  lemma LargerUnitsExceed(value: nat, exp: nat, larger: nat)
    requires value < UNIT * Power(exp + 1) && exp < larger
    ensures value < Power(larger + 1)
  {
    PowerMonotone(exp + 2, larger + 1);
  }
}
