/** Python's `round(x, n)` on the exact value of `x`: the nearest multiple of
    10^-n, a value exactly halfway going to the even neighbour. The binary
    representation of floats is not modelled, so values that Python's floats
    cannot represent exactly are rounded as the decimal value they denote. */
module PyRound {

  function Pow10(n: nat): (p: nat)
    ensures p >= 1
  {
    if n == 0 then 1 else 10 * Pow10(n - 1)
  }

  /** 10^digits as a real number. */
  function Scale(digits: nat): (s: real)
    ensures s >= 1.0
  {
    Pow10(digits) as real
  }

  /** The integer nearest to `y`, halves going to the even neighbour. */
  function RoundedUnits(y: real): (m: int)
    ensures -0.5 <= m as real - y <= 0.5
  {
    var n := y.Floor;
    var f := y - n as real;
    if f > 0.5 then n + 1
    else if f < 0.5 then n
    else if n % 2 == 0 then n
    else n + 1
  }

  /** The multiple of `1/s` nearest to `x`. */
  function RoundAt(x: real, s: real): real
    requires s > 0.0
  {
    RoundedUnits(x * s) as real / s
  }

  /** `round(x, digits)`. */
  function Round(x: real, digits: nat): real {
    RoundAt(x, Scale(digits))
  }

  lemma RoundedUnitsOfInteger(n: int)
    ensures RoundedUnits(n as real) == n
  {
  }

  lemma RoundedUnitsMonotone(y: real, z: real)
    requires y <= z
    ensures RoundedUnits(y) <= RoundedUnits(z)
  {
  }

  lemma RoundAtError(x: real, s: real)
    requires s > 0.0
    ensures -0.5 <= (RoundAt(x, s) - x) * s <= 0.5
  {
    var m := RoundedUnits(x * s) as real;
    assert (m / s) * s == m;
    assert (m / s - x) * s == m - x * s;
  }

  lemma RoundAtMonotone(x: real, y: real, s: real)
    requires s > 0.0 && x <= y
    ensures RoundAt(x, s) <= RoundAt(y, s)
  {
    assert x * s <= y * s;
    RoundedUnitsMonotone(x * s, y * s);
  }

  lemma RoundAtInteger(n: int, p: nat)
    requires p >= 1
    ensures RoundAt(n as real, p as real) == n as real
  {
    assert n as real * p as real == (n * p) as real;
    RoundedUnitsOfInteger(n * p);
  }

  lemma RoundAtUnfold(y: real, s: real)
    requires s > 0.0
    ensures RoundAt(y, s) == RoundedUnits(y * s) as real / s
  {
  }

  /** A multiple of `1/s` is its own rounding. */
  lemma RoundAtMultiple(k: int, s: real)
    requires s > 0.0
    ensures RoundAt(k as real / s, s) == k as real / s
  {
    var y := k as real / s;
    RoundAtUnfold(y, s);
    assert y * s == k as real;
    RoundedUnitsOfInteger(k);
  }

  lemma RoundAtIdempotent(x: real, s: real)
    requires s > 0.0
    ensures RoundAt(RoundAt(x, s), s) == RoundAt(x, s)
  {
    RoundAtMultiple(RoundedUnits(x * s), s);
  }

  lemma ScaleOne()
    ensures Scale(1) == 10.0
  {
  }

  /** Rounding an already rounded value changes nothing. */
  lemma RoundIdempotent(x: real, digits: nat)
    ensures Round(Round(x, digits), digits) == Round(x, digits)
  {
    RoundAtIdempotent(x, Scale(digits));
  }

  /** The rounded value is within half a unit of the last kept digit. */
  lemma RoundError(x: real, digits: nat)
    ensures -0.5 <= (Round(x, digits) - x) * Scale(digits) <= 0.5
  {
    RoundAtError(x, Scale(digits));
  }

  /** Rounding preserves order. */
  lemma RoundMonotone(x: real, y: real, digits: nat)
    requires x <= y
    ensures Round(x, digits) <= Round(y, digits)
  {
    RoundAtMonotone(x, y, Scale(digits));
  }

  /** An integer is its own rounding. */
  lemma RoundInteger(n: int, digits: nat)
    ensures Round(n as real, digits) == n as real
  {
    RoundAtInteger(n, Pow10(digits));
  }

  /** Rounding a value between two integers keeps it between them. */
  lemma RoundBetween(x: real, lo: int, hi: int, digits: nat)
    requires lo as real <= x <= hi as real
    ensures lo as real <= Round(x, digits) <= hi as real
  {
    RoundMonotone(lo as real, x, digits);
    RoundMonotone(x, hi as real, digits);
    RoundInteger(lo, digits);
    RoundInteger(hi, digits);
  }
}
