/** Cent rounding shared by the estimate engine and the derived totals. */
module Money {
  import opened JsNumber

  /** `x` is a whole number of cents. */
  predicate IsCents(x: real) {
    (100.0 * x).Floor as real == 100.0 * x
  }

  /** `round2`: `Math.round(x * 100) / 100`, where `Math.round` rounds half
      toward positive infinity. */
  function Round2(x: real): (r: real)
    ensures IsCents(r)
    ensures x - 0.005 < r <= x + 0.005
  {
    var k := (100.0 * x + 0.5).Floor;
    assert 100.0 * (k as real / 100.0) == k as real;
    k as real / 100.0
  }

  /** The `round2` of QuickQuoteEstimator.jsx, which first converts with
      `Number` and maps a non-finite value to 0. */
  function Round2Number(n: Number): (r: real)
    ensures IsCents(r)
    ensures !IsFinite(n) ==> r == 0.0
    ensures IsFinite(n) ==> r == Round2(n.value)
  {
    if n.Finite? then Round2(n.value) else 0.0
  }

  /** Rounding a whole number of cents changes nothing. */
  lemma Round2OfCents(x: real)
    requires IsCents(x)
    ensures Round2(x) == x
  {
    var k := (100.0 * x).Floor;
    assert (100.0 * x + 0.5).Floor == k;
  }

  /** Half a cent rounds up. */
  lemma Round2HalfUp(k: int)
    ensures Round2(k as real / 100.0 + 0.005) == (k + 1) as real / 100.0
  {
    assert 100.0 * (k as real / 100.0 + 0.005) + 0.5 == (k + 1) as real;
  }

  lemma Round2Monotone(x: real, y: real)
    requires x <= y
    ensures Round2(x) <= Round2(y)
  {
    FloorMonotone(100.0 * x + 0.5, 100.0 * y + 0.5);
  }

  lemma FloorMonotone(a: real, b: real)
    requires a <= b
    ensures a.Floor <= b.Floor
  {
    assert a.Floor as real <= b < (b.Floor + 1) as real;
  }

  /** Adding whole cents commutes with rounding. */
  lemma Round2ShiftCents(x: real, c: real)
    requires IsCents(c)
    ensures Round2(x + c) == Round2(x) + c
  {
    var m := (100.0 * c).Floor;
    assert 100.0 * (x + c) + 0.5 == (100.0 * x + 0.5) + m as real;
    assert (100.0 * (x + c) + 0.5).Floor == (100.0 * x + 0.5).Floor + m;
  }

  lemma CentsAdd(a: real, b: real)
    requires IsCents(a) && IsCents(b)
    ensures IsCents(a + b) && IsCents(a - b)
  {
    var i, j := (100.0 * a).Floor, (100.0 * b).Floor;
    assert 100.0 * a == i as real && 100.0 * b == j as real;
    assert 100.0 * (a + b) == 100.0 * a + 100.0 * b;
    assert 100.0 * (a - b) == 100.0 * a - 100.0 * b;
    FloorOfInt(i + j);
    FloorOfInt(i - j);
  }

  lemma FloorOfInt(k: int)
    ensures (k as real).Floor == k
  {
  }

  lemma ZeroIsCents()
    ensures IsCents(0.0)
  {
  }
}
