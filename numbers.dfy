/**
 * Go's fixed-width numbers. `int64` keeps its range and two's-complement
 * wrap-around; `float64` is modelled by `real`, so there is no rounding, no NaN
 * and no infinity (every comparison is a strict total order).
 */
module GoNumbers {
  const MinInt64: int := -0x8000_0000_0000_0000
  const MaxInt64: int := 0x7FFF_FFFF_FFFF_FFFF
  const TwoTo64: int := 0x1_0000_0000_0000_0000

  type Int64 = x: int | MinInt64 <= x <= MaxInt64

  type Float64 = real

  /** The int64 that a Go addition or conversion yields for the mathematical value `x`. */
  function Wrap(x: int): (r: Int64)
    ensures (r - x) % TwoTo64 == 0
    ensures MinInt64 <= x <= MaxInt64 ==> r == x
  {
    (x - MinInt64) % TwoTo64 + MinInt64
  }

  /** Wrapping an intermediate sum does not change the wrapped total. */
  lemma WrapAbsorbs(x: int, y: int)
    ensures Wrap(Wrap(x) + y) == Wrap(x + y)
  {
    var q := (x - MinInt64) / TwoTo64;
    assert Wrap(x) + y == x + y - q * TwoTo64;
    ModuloShift(x + y - MinInt64, q);
  }

  lemma ModuloShift(a: int, q: int)
    ensures (a - q * TwoTo64) % TwoTo64 == a % TwoTo64
  {
    var r := a % TwoTo64;
    var d := a / TwoTo64;
    assert a == d * TwoTo64 + r;
    assert a - q * TwoTo64 == (d - q) * TwoTo64 + r;
  }
}
