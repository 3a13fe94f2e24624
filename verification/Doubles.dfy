/** Comparing doubles given as bit patterns: a sign bit, eleven bits of exponent, fifty-two of fraction. */
module Doubles {
  import opened Types

  const SIGN: int := 0x8000_0000_0000_0000
  const INFINITE: int := 0x7FF0_0000_0000_0000
  const FRACTION: int := 0x10_0000_0000_0000

  /** All exponent bits set and a fraction that is not zero. */
  predicate NaN(x: F64) {
    x % SIGN > INFINITE
  }

  /** The bits as a signed magnitude; both zeros give zero. */
  function Code(x: F64): int {
    if x < SIGN then x else SIGN - x
  }

  /** The operator `<`: false whenever an operand is not a number. */
  predicate Below(x: F64, y: F64) {
    !NaN(x) && !NaN(y) && Code(x) < Code(y)
  }

  /** The operator `==`: false whenever an operand is not a number. */
  predicate Same(x: F64, y: F64) {
    !NaN(x) && !NaN(y) && Code(x) == Code(y)
  }

  // ---- What the bits stand for ----

  function Power2(n: nat): nat {
    if n == 0 then 1 else 2 * Power2(n - 1)
  }

  /** The value of a finite magnitude, in units of the smallest positive double. */
  function Units(bits: nat): int {
    var exponent, fraction := bits / FRACTION, bits % FRACTION;
    if exponent == 0 then fraction else (FRACTION + fraction) * Power2(exponent - 1)
  }

  function Value(x: F64): int {
    if x < SIGN then Units(x) else -Units(x - SIGN)
  }

  predicate Finite(x: F64) {
    x % SIGN < INFINITE
  }

  lemma Power2Positive(n: nat)
    ensures Power2(n) > 0
  {
  }

  lemma NextExponent(bits: nat)
    ensures (bits + 1) % FRACTION == (if bits % FRACTION == FRACTION - 1 then 0 else bits % FRACTION + 1)
    ensures (bits + 1) / FRACTION == bits / FRACTION + if bits % FRACTION == FRACTION - 1 then 1 else 0
  {
  }

  /** One more in the bits is more in the value, also where the exponent steps. */
  lemma UnitsGrow(bits: nat)
    ensures Units(bits) < Units(bits + 1)
  {
    NextExponent(bits);
    var exponent, fraction := bits / FRACTION, bits % FRACTION;
    if exponent > 0 {
      Power2Positive(exponent - 1);
      var p := Power2(exponent - 1);
      if fraction == FRACTION - 1 {
        assert Power2(exponent) == 2 * p;
        assert Units(bits + 1) == FRACTION * (2 * p);
        Scaled(FRACTION + fraction, 2 * FRACTION, p);
      } else {
        Scaled(FRACTION + fraction, FRACTION + fraction + 1, p);
      }
    }
  }

  lemma Scaled(a: nat, b: nat, p: nat)
    requires a < b && p > 0
    ensures a * p < b * p
  {
  }

  lemma {:induction false} UnitsOrdered(a: nat, b: nat)
    requires a < b
    ensures Units(a) < Units(b)
    decreases b
  {
    hide Units;
    UnitsGrow(b - 1);
    if a < b - 1 {
      UnitsOrdered(a, b - 1);
    }
  }

  lemma ZeroUnits()
    ensures Units(0) == 0
  {
  }

  /** On finite doubles the comparisons of the codes are the comparisons of the values. */
  lemma CodesAreValues(x: F64, y: F64)
    requires Finite(x) && Finite(y)
    ensures Below(x, y) <==> Value(x) < Value(y)
    ensures Same(x, y) <==> Value(x) == Value(y)
  {
    hide Units;
    ZeroUnits();
    var a, b := x % SIGN, y % SIGN;
    if a < b {
      UnitsOrdered(a, b);
    } else if b < a {
      UnitsOrdered(b, a);
    }
    if 0 < a {
      UnitsOrdered(0, a);
    }
    if 0 < b {
      UnitsOrdered(0, b);
    }
    Magnitude(x);
    Magnitude(y);
  }

  lemma Magnitude(x: F64)
    ensures x % SIGN == if x < SIGN then x else x - SIGN
  {
  }
}
