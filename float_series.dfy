/**
 * FloatSeries.go, the structural part: a series of float64 (modelled by
 * reals, see GoNumbers). The shared operations live in SeriesCore.
 */
module FloatSeries {
  import opened GoNumbers
  import opened TruthFilters
  import opened SeriesCore

  function FloatLess(a: Float64, b: Float64): bool {
    a < b
  }

  lemma FloatLessIsStrictTotalOrder()
    ensures StrictTotalOrder(FloatLess)
  {
  }

  /** `Append`, as written: like IntSeries, it returns the receiver and drops the extended clone. */
  function Append(s: Series<Float64>, elements: seq<Float64>): (r: Series<Float64>)
    ensures r == s
  {
    // mirrors the extended copy that the source builds and then discards
    var changed := AppendCopy(s, elements);
    s
  }

  /** The counterexample: appending 2.0 to [1.0] leaves [1.0]. */
  lemma AppendDropsElements()
    ensures Append(Series([1.0]), [2.0]) == Series([1.0])
    ensures AppendCopy(Series([1.0]), [2.0]) == Series([1.0, 2.0])
  {
    assert AppendCopy(Series([1.0]), [2.0]).data == [1.0] + [2.0];
  }

  /** `Max`, as written: the zero-seeded rule of IntSeries over float64. */
  method Max(s: Series<Float64>) returns (pos: int, max: Float64)
    ensures (pos, max) == RunningBest(s.data, 0.0, FloatLess)
    ensures 0.0 <= max
    ensures forall k :: 0 <= k < Size(s) ==> s.data[k] <= max
    ensures (exists k :: 0 <= k < Size(s) && 0.0 < s.data[k]) ==>
      0 <= pos < Size(s) && max == s.data[pos] && forall k :: 0 <= k < pos ==> s.data[k] < max
    ensures (forall k :: 0 <= k < Size(s) ==> s.data[k] <= 0.0) ==> pos == 0 && max == 0.0
  {
    pos, max := Extremum(s.data, 0.0, FloatLess);
    FloatLessIsStrictTotalOrder();
    RunningBestMeaning(s.data, 0.0, FloatLess);
  }

  /** `Min`, as written: the zero-seeded mirror of `Max`. */
  method Min(s: Series<Float64>) returns (pos: int, min: Float64)
    ensures (pos, min) == RunningBest(s.data, 0.0, Reversed(FloatLess))
    ensures min <= 0.0
    ensures forall k :: 0 <= k < Size(s) ==> min <= s.data[k]
    ensures (exists k :: 0 <= k < Size(s) && s.data[k] < 0.0) ==>
      0 <= pos < Size(s) && min == s.data[pos] && forall k :: 0 <= k < pos ==> min < s.data[k]
    ensures (forall k :: 0 <= k < Size(s) ==> 0.0 <= s.data[k]) ==> pos == 0 && min == 0.0
  {
    pos, min := Extremum(s.data, 0.0, Reversed(FloatLess));
    FloatLessIsStrictTotalOrder();
    ReversedIsStrictTotalOrder(FloatLess);
    RunningBestMeaning(s.data, 0.0, Reversed(FloatLess));
  }

  /**
   * The counterexample for `Max`: on [-5.0, -1.0, -9.0] it answers (0, 0.0),
   * a value that is not there, where the first-element seed gives (1, -1.0).
   */
  lemma MaxMissesNegatives()
    ensures RunningBest<Float64>([-5.0, -1.0, -9.0], 0.0, FloatLess) == (0, 0.0)
    ensures FirstBest<Float64>([-5.0, -1.0, -9.0], FloatLess) == (1, -1.0)
  {
    FloatLessIsStrictTotalOrder();
    var d: seq<Float64> := [-5.0, -1.0, -9.0];
    assert d[..2] == [-5.0, -1.0] && d[..2][..1] == [-5.0] && d[..2][..1][..0] == [];
    assert RunningBest(d[..1], 0.0, FloatLess) == (0, 0.0);
    assert RunningBest(d[..2], 0.0, FloatLess) == (0, 0.0);
    assert RunningBest(d[..1], -5.0, FloatLess) == (0, -5.0);
    assert RunningBest(d[..2], -5.0, FloatLess) == (1, -1.0);
  }

  /**
   * The counterexample for `Min`: on [5.0, 1.0, 9.0] it answers (0, 0.0),
   * where the first-element seed gives (1, 1.0).
   */
  lemma MinMissesPositives()
    ensures RunningBest<Float64>([5.0, 1.0, 9.0], 0.0, Reversed<Float64>(FloatLess)) == (0, 0.0)
    ensures FirstBest<Float64>([5.0, 1.0, 9.0], Reversed<Float64>(FloatLess)) == (1, 1.0)
  {
    FloatLessIsStrictTotalOrder();
    ReversedIsStrictTotalOrder<Float64>(FloatLess);
    var gt := Reversed<Float64>(FloatLess);
    var d: seq<Float64> := [5.0, 1.0, 9.0];
    assert d[..2] == [5.0, 1.0] && d[..2][..1] == [5.0] && d[..2][..1][..0] == [];
    assert RunningBest(d[..1], 0.0, gt) == (0, 0.0);
    assert RunningBest(d[..2], 0.0, gt) == (0, 0.0);
    assert RunningBest(d[..1], 5.0, gt) == (0, 5.0);
    assert RunningBest(d[..2], 5.0, gt) == (1, 1.0);
  }

  /** `GreaterThan`: one entry per element, `element > value`. */
  method GreaterThan(s: Series<Float64>, value: Float64) returns (greater: TruthFilter)
    ensures |greater| == Size(s)
    ensures forall k :: 0 <= k < Size(s) ==> greater[k] == (s.data[k] > value)
  {
    greater := Filter(s, x => x > value);
  }

  /** `SmallerThan`: one entry per element, `element < value`. */
  method SmallerThan(s: Series<Float64>, value: Float64) returns (smaller: TruthFilter)
    ensures |smaller| == Size(s)
    ensures forall k :: 0 <= k < Size(s) ==> smaller[k] == (s.data[k] < value)
  {
    smaller := Filter(s, x => x < value);
  }
}
