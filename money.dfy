/** Amounts of money are exact reals. The source rounds with Python's
    `round(x, 2)` and `round(x, 4)`; this model rounds half up on exact
    decimals instead of reproducing binary floating point. */
module Money {

  function Min(a: real, b: real): (r: real)
    ensures r <= a && r <= b
    ensures r == a || r == b
  {
    if a <= b then a else b
  }

  function Max(a: real, b: real): (r: real)
    ensures r >= a && r >= b
    ensures r == a || r == b
  {
    if a >= b then a else b
  }

  function Abs(x: real): (r: real)
    ensures r >= 0.0
    ensures r == x || r == -x
  {
    if x < 0.0 then -x else x
  }

  /** `x` and `y` differ by at most `tol`. */
  predicate Proche(x: real, y: real, tol: real)
  {
    -tol <= x - y <= tol
  }

  /** `x` is a whole number of cents. */
  predicate IsCents(x: real)
  {
    (x * 100.0).Floor as real == x * 100.0
  }

  /** `x` has at most four decimals. */
  predicate IsFourDecimals(x: real)
  {
    (x * 10000.0).Floor as real == x * 10000.0
  }

  lemma FloorBounds(y: real)
    ensures y.Floor as real <= y < y.Floor as real + 1.0
  {}

  lemma FloorOfInt(n: int)
    ensures (n as real).Floor == n
  {}

  /** Rounding to the cent, half up. Its properties are `RoundCentsFacts`. */
  function RoundCents(x: real): real
  {
    (x * 100.0 + 0.5).Floor as real / 100.0
  }

  /** Rounding to four decimals, half up. Its properties are `Round4Facts`. */
  function Round4(x: real): real
  {
    (x * 10000.0 + 0.5).Floor as real / 10000.0
  }

  /** A rounded amount is a whole number of cents within half a cent of the
      amount, and never negative for a non-negative amount. */
  lemma RoundCentsFacts(x: real)
    ensures IsCents(RoundCents(x))
    ensures x - 0.005 < RoundCents(x) <= x + 0.005
    ensures x >= 0.0 ==> RoundCents(x) >= 0.0
  {
    var n := (x * 100.0 + 0.5).Floor;
    FloorBounds(x * 100.0 + 0.5);
    FloorOfInt(n);
    assert RoundCents(x) * 100.0 == n as real;
  }

  /** The same for four decimals. */
  lemma Round4Facts(x: real)
    ensures IsFourDecimals(Round4(x))
    ensures x - 0.00005 < Round4(x) <= x + 0.00005
    ensures x >= 0.0 ==> Round4(x) >= 0.0
  {
    var n := (x * 10000.0 + 0.5).Floor;
    FloorBounds(x * 10000.0 + 0.5);
    FloorOfInt(n);
    assert Round4(x) * 10000.0 == n as real;
  }

  /** A value that already has four decimals is left as it is. */
  lemma Round4OfFourDecimals(x: real)
    requires IsFourDecimals(x)
    ensures Round4(x) == x
  {
    var m := (x * 10000.0).Floor;
    var n := (x * 10000.0 + 0.5).Floor;
    FloorBounds(x * 10000.0 + 0.5);
    assert x * 10000.0 + 0.5 == m as real + 0.5;
    assert n == m;
  }

  /** A whole number of cents is left as it is. */
  lemma RoundCentsOfCents(x: real)
    requires IsCents(x)
    ensures RoundCents(x) == x
  {
    var m := (x * 100.0).Floor;
    var n := (x * 100.0 + 0.5).Floor;
    FloorBounds(x * 100.0 + 0.5);
    assert x * 100.0 + 0.5 == m as real + 0.5;
    assert n == m;
  }

  lemma RoundCentsMonotone(x: real, y: real)
    requires x <= y
    ensures RoundCents(x) <= RoundCents(y)
  {
    var fx := (x * 100.0 + 0.5).Floor;
    var fy := (y * 100.0 + 0.5).Floor;
    FloorBounds(x * 100.0 + 0.5);
    FloorBounds(y * 100.0 + 0.5);
    assert fx as real < fy as real + 1.0;
    assert fx <= fy;
    assert RoundCents(x) == fx as real / 100.0;
    assert RoundCents(y) == fy as real / 100.0;
  }

  lemma Round4Monotone(x: real, y: real)
    requires x <= y
    ensures Round4(x) <= Round4(y)
  {
    var fx := (x * 10000.0 + 0.5).Floor;
    var fy := (y * 10000.0 + 0.5).Floor;
    FloorBounds(x * 10000.0 + 0.5);
    FloorBounds(y * 10000.0 + 0.5);
    assert fx as real < fy as real + 1.0;
    assert fx <= fy;
    assert Round4(x) == fx as real / 10000.0;
    assert Round4(y) == fy as real / 10000.0;
  }
}
