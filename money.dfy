/** Exact money arithmetic for the pricing engine.
    Amounts are Dafny reals; rounding to cents happens only where the source
    calls round(x, 2), and is modelled by Round2 (round half up). */
module Money {

  /** x is a whole number of cents. */
  predicate IsCents(x: real) {
    (x * 100.0).Floor as real == x * 100.0
  }

  /** The amount rounded to two decimals: the one whole-cent value in
      (x - 1/200, x + 1/200]. */
  function Round2(x: real): (r: real)
    ensures IsCents(r)
    ensures x - 0.005 < r <= x + 0.005
  {
    var c := (x * 100.0 + 0.5).Floor;
    assert (c as real / 100.0) * 100.0 == c as real;
    c as real / 100.0
  }

  /** math.ceil: the least integer not below x. */
  function Ceil(x: real): (c: int)
    ensures c as real - 1.0 < x <= c as real
  {
    var f := x.Floor;
    if f as real == x then f else f + 1
  }

  function MaxReal(a: real, b: real): real {
    if a >= b then a else b
  }

  function MinInt(a: int, b: int): int {
    if a <= b then a else b
  }

  function MaxInt(a: int, b: int): int {
    if a >= b then a else b
  }

  /** max(lo, min(x, hi)). */
  function Clamp(x: int, lo: int, hi: int): (r: int)
    requires lo <= hi
    ensures lo <= r <= hi
    ensures lo <= x <= hi ==> r == x
    ensures x < lo ==> r == lo
    ensures x > hi ==> r == hi
  {
    MaxInt(lo, MinInt(x, hi))
  }

  /** Rounding is non-decreasing. */
  lemma Round2Monotone(x: real, y: real)
    requires x <= y
    ensures Round2(x) <= Round2(y)
  {
    var cx := (x * 100.0 + 0.5).Floor;
    var cy := (y * 100.0 + 0.5).Floor;
    assert cx <= cy;
  }

  /** A whole-cent amount is its own rounding. */
  lemma Round2OfCents(x: real)
    requires IsCents(x)
    ensures Round2(x) == x
  {
    var k := (x * 100.0).Floor;
    assert (x * 100.0 + 0.5).Floor == k;
  }

  /** Sums and differences of whole-cent amounts are whole cents. */
  lemma CentsArithmetic(a: real, b: real)
    requires IsCents(a) && IsCents(b)
    ensures IsCents(a + b) && IsCents(a - b)
  {
    var ka, kb := (a * 100.0).Floor, (b * 100.0).Floor;
    CentsOfInt(a + b, ka + kb);
    CentsOfInt(a - b, ka - kb);
  }

  lemma CentsOfInt(x: real, k: int)
    requires x * 100.0 == k as real
    ensures IsCents(x)
  {
    assert (x * 100.0).Floor == k;
  }

  /** A total split n ways and rounded: the n rounded shares add back up to
      the total within half a cent per share. */
  lemma RoundedShareBounds(total: real, n: real)
    requires n > 0.0
    ensures total - 0.005 * n <= Round2(total / n) * n <= total + 0.005 * n
  {
    var x := total / n;
    assert x * n == total;
    ScaledError(Round2(x), x, n, total);
  }

  lemma ScaledError(r: real, x: real, n: real, total: real)
    requires n > 0.0 && x - 0.005 < r <= x + 0.005 && x * n == total
    ensures total - 0.005 * n <= r * n <= total + 0.005 * n
  {
    var e := r - x;
    Distribute(r, x, n);
    ScaleBound(e, n);
    assert r * n == total + e * n;
  }

  lemma Distribute(r: real, x: real, n: real)
    ensures r * n == x * n + (r - x) * n
  {
  }

  lemma ScaleBound(e: real, n: real)
    requires n > 0.0 && -0.005 <= e <= 0.005
    ensures -0.005 * n <= e * n <= 0.005 * n
  {
  }
}
