/**
 * pandas/IntSeries.go: a series of int64. The shared operations live in
 * SeriesCore; this module keeps what is particular to integers: `Append`
 * returning the receiver, the wrapping `Sum`, `Sort`, the zero-seeded
 * `Max`/`Min`, and the comparison masks.
 */
module IntSeries {
  import opened GoNumbers
  import opened TruthFilters
  import opened SeriesCore

  function IntLess(a: Int64, b: Int64): bool {
    a < b
  }

  lemma IntLessIsStrictTotalOrder()
    ensures StrictTotalOrder(IntLess)
  {
  }

  /**
   * `Append`, as written: the clone that receives the elements is dropped and
   * the receiver is returned.
   */
  function Append(s: Series<Int64>, elements: seq<Int64>): (r: Series<Int64>)
    ensures r == s
  {
    // mirrors the extended copy that the source builds and then discards
    var changed := AppendCopy(s, elements);
    s
  }

  /** The counterexample: appending 2 to [1] leaves [1], where a copy-append gives [1, 2]. */
  lemma AppendDropsElements()
    ensures Append(Series([1]), [2]) == Series([1])
    ensures AppendCopy(Series([1]), [2]) == Series([1, 2])
  {
    assert AppendCopy(Series([1]), [2]).data == [1] + [2];
  }

  /** The mathematical sum of the elements. */
  function Total(d: seq<int>): int {
    if d == [] then 0 else Total(d[..|d| - 1]) + d[|d| - 1]
  }

  lemma {:induction false} TotalOfConcat(a: seq<int>, b: seq<int>)
    ensures Total(a + b) == Total(a) + Total(b)
    decreases |b|
  {
    if b == [] {
      assert a + b == a;
    } else {
      var k := |b| - 1;
      assert (a + b)[..|a + b| - 1] == a + b[..k];
      assert (a + b)[|a + b| - 1] == b[k];
      TotalOfConcat(a, b[..k]);
    }
  }

  /** `Sum`: the int64 total, with Go's two's-complement wrap-around on overflow. */
  method Sum(s: Series<Int64>) returns (sum: Int64)
    ensures sum == Wrap(Total(s.data))
  {
    sum := 0;
    for k := 0 to |s.data|
      invariant sum == Wrap(Total(s.data[..k]))
    {
      assert s.data[..k + 1][..k] == s.data[..k];
      WrapAbsorbs(Total(s.data[..k]), s.data[k]);
      sum := Wrap(sum + s.data[k]);
    }
    assert s.data[..|s.data|] == s.data;
  }

  /** When the true total fits in an int64, `Sum` is exact; an empty series sums to 0. */
  lemma SumIsExactWhenItFits(d: seq<Int64>)
    requires MinInt64 <= Total(d) <= MaxInt64
    ensures Wrap(Total(d)) == Total(d)
    ensures d == [] ==> Wrap(Total(d)) == 0
  {
  }

  /** The wrapped sum of a concatenation is the wrapped sum of the two wrapped sums. */
  lemma SumOfConcat(a: seq<Int64>, b: seq<Int64>)
    ensures Wrap(Total(a + b)) == Wrap(Wrap(Total(a)) + Wrap(Total(b)))
  {
    TotalOfConcat(a, b);
    WrapAbsorbs(Total(a), Wrap(Total(b)));
    WrapAbsorbs(Total(b), Total(a));
    assert Wrap(Total(a) + Wrap(Total(b))) == Wrap(Wrap(Total(b)) + Total(a));
  }

  predicate Ascending(d: seq<Int64>) {
    forall i, j :: 0 <= i < j < |d| ==> d[i] <= d[j]
  }

  /** `x` placed into an ascending sequence at its place. */
  function Insert(x: Int64, d: seq<Int64>): (r: seq<Int64>)
    requires Ascending(d)
    ensures |r| == |d| + 1
    ensures r[0] == x || (d != [] && r[0] == d[0])
    ensures Ascending(r)
    ensures multiset(r) == multiset(d) + multiset{x}
  {
    if d == [] || x <= d[0] then
      AscendingCons(x, d);
      [x] + d
    else
      AscendingTail(d);
      var rest := Insert(x, d[1..]);
      InsertBehindHead(x, d, rest);
      [d[0]] + rest
  }

  lemma AscendingCons(x: Int64, d: seq<Int64>)
    requires Ascending(d)
    requires d != [] ==> x <= d[0]
    ensures Ascending([x] + d)
  {
  }

  /** The step of `Insert` that keeps the head and inserts into the tail. */
  lemma InsertBehindHead(x: Int64, d: seq<Int64>, rest: seq<Int64>)
    requires Ascending(d) && d != [] && d[0] < x
    requires rest != [] && (rest[0] == x || (|d| > 1 && rest[0] == d[1]))
    requires Ascending(rest)
    requires multiset(rest) == multiset(d[1..]) + multiset{x}
    ensures Ascending([d[0]] + rest)
    ensures multiset([d[0]] + rest) == multiset(d) + multiset{x}
  {
    AscendingCons(d[0], rest);
    assert d == [d[0]] + d[1..];
  }

  /** An ascending permutation of the elements (insertion sort). */
  function Sorted(d: seq<Int64>): (r: seq<Int64>)
    ensures Ascending(r)
    ensures multiset(r) == multiset(d)
  {
    if d == [] then []
    else
      assert d == [d[0]] + d[1..];
      Insert(d[0], Sorted(d[1..]))
  }

  /** The head of an ascending sequence is at most each of its elements. */
  lemma HeadIsLeast(a: seq<Int64>, x: Int64)
    requires Ascending(a) && x in a
    ensures a[0] <= x
  {
    var k :| 0 <= k < |a| && a[k] == x;
  }

  /** Removing the head leaves the other elements. */
  lemma TailMultiset(a: seq<Int64>)
    requires a != []
    ensures multiset(a[1..]) == multiset(a) - multiset{a[0]}
  {
    assert a == [a[0]] + a[1..];
  }

  lemma AscendingTail(a: seq<Int64>)
    requires Ascending(a) && a != []
    ensures Ascending(a[1..])
  {
  }

  lemma SameLength(a: seq<Int64>, b: seq<Int64>)
    requires multiset(a) == multiset(b)
    ensures |a| == |b|
  {
    assert |a| == |multiset(a)|;
    assert |b| == |multiset(b)|;
  }

  lemma SameHead(a: seq<Int64>, b: seq<Int64>)
    requires Ascending(a) && Ascending(b) && a != [] && b != []
    requires multiset(a) == multiset(b)
    ensures a[0] == b[0]
  {
    assert a[0] in multiset(b) && b[0] in multiset(a);
    HeadIsLeast(a, b[0]);
    HeadIsLeast(b, a[0]);
  }

  /** Two ascending sequences with the same elements are equal: sorting has one answer. */
  lemma {:induction false} AscendingPermutationIsUnique(a: seq<Int64>, b: seq<Int64>)
    requires Ascending(a) && Ascending(b)
    requires multiset(a) == multiset(b)
    ensures a == b
  {
    SameLength(a, b);
    if a != [] {
      SameHead(a, b);
      TailMultiset(a);
      TailMultiset(b);
      AscendingTail(a);
      AscendingTail(b);
      AscendingPermutationIsUnique(a[1..], b[1..]);
      assert a == [a[0]] + a[1..] && b == [b[0]] + b[1..];
    }
  }

  /**
   * `Sort`: Go sorts a clone with the library's `sort.Slice`; any algorithm
   * that yields an ascending permutation yields this one.
   */
  function Sort(s: Series<Int64>): (r: Series<Int64>)
    ensures Ascending(r.data)
    ensures multiset(r.data) == multiset(s.data)
    ensures Size(r) == Size(s)
  {
    var r := Series(Sorted(Clone(s).data));
    assert |r.data| == |multiset(r.data)| == |multiset(s.data)| == |s.data|;
    r
  }

  /** Sorting a sorted series changes nothing. */
  lemma SortIsIdempotent(s: Series<Int64>)
    ensures Sort(Sort(s)) == Sort(s)
  {
    AscendingPermutationIsUnique(Sort(Sort(s)).data, Sort(s).data);
  }

  /**
   * `Max`, as written: seeded with `(0, 0)` and moved only by a strictly
   * larger element, so it finds the first maximum only when some element is
   * positive, and answers `(0, 0)` otherwise.
   */
  method Max(s: Series<Int64>) returns (pos: int, max: Int64)
    ensures (pos, max) == RunningBest(s.data, 0, IntLess)
    ensures 0 <= max
    ensures forall k :: 0 <= k < Size(s) ==> s.data[k] <= max
    ensures (exists k :: 0 <= k < Size(s) && 0 < s.data[k]) ==>
      0 <= pos < Size(s) && max == s.data[pos] && forall k :: 0 <= k < pos ==> s.data[k] < max
    ensures (forall k :: 0 <= k < Size(s) ==> s.data[k] <= 0) ==> pos == 0 && max == 0
  {
    pos, max := Extremum(s.data, 0, IntLess);
    IntLessIsStrictTotalOrder();
    RunningBestMeaning(s.data, 0, IntLess);
  }

  /** `Min`, as written: the mirror of `Max`, moved only by an element below the zero seed. */
  method Min(s: Series<Int64>) returns (pos: int, min: Int64)
    ensures (pos, min) == RunningBest(s.data, 0, Reversed(IntLess))
    ensures min <= 0
    ensures forall k :: 0 <= k < Size(s) ==> min <= s.data[k]
    ensures (exists k :: 0 <= k < Size(s) && s.data[k] < 0) ==>
      0 <= pos < Size(s) && min == s.data[pos] && forall k :: 0 <= k < pos ==> min < s.data[k]
    ensures (forall k :: 0 <= k < Size(s) ==> 0 <= s.data[k]) ==> pos == 0 && min == 0
  {
    pos, min := Extremum(s.data, 0, Reversed(IntLess));
    IntLessIsStrictTotalOrder();
    ReversedIsStrictTotalOrder(IntLess);
    RunningBestMeaning(s.data, 0, Reversed(IntLess));
  }

  /**
   * The counterexample for `Max`: on [-5, -1, -9] it answers (0, 0), an
   * element that is not there, where the first-element seed gives (1, -1).
   */
  lemma MaxMissesNegatives()
    ensures RunningBest<Int64>([-5, -1, -9], 0, IntLess) == (0, 0)
    ensures FirstBest<Int64>([-5, -1, -9], IntLess) == (1, -1)
  {
    IntLessIsStrictTotalOrder();
    var d: seq<Int64> := [-5, -1, -9];
    assert d[..2] == [-5, -1] && d[..2][..1] == [-5] && d[..2][..1][..0] == [];
    assert RunningBest(d[..1], 0, IntLess) == (0, 0);
    assert RunningBest(d[..2], 0, IntLess) == (0, 0);
    assert RunningBest(d[..1], -5, IntLess) == (0, -5);
    assert RunningBest(d[..2], -5, IntLess) == (1, -1);
  }

  /**
   * The counterexample for `Min`: on [5, 1, 9] it answers (0, 0), where the
   * first-element seed gives (1, 1). On [-5, -1, -9] it happens to be right.
   */
  lemma MinMissesPositives()
    ensures RunningBest<Int64>([5, 1, 9], 0, Reversed<Int64>(IntLess)) == (0, 0)
    ensures FirstBest<Int64>([5, 1, 9], Reversed<Int64>(IntLess)) == (1, 1)
    ensures RunningBest<Int64>([-5, -1, -9], 0, Reversed<Int64>(IntLess)) == (2, -9)
  {
    IntLessIsStrictTotalOrder();
    ReversedIsStrictTotalOrder<Int64>(IntLess);
    var gt := Reversed<Int64>(IntLess);
    var d: seq<Int64> := [5, 1, 9];
    assert d[..2] == [5, 1] && d[..2][..1] == [5] && d[..2][..1][..0] == [];
    assert RunningBest(d[..1], 0, gt) == (0, 0);
    assert RunningBest(d[..2], 0, gt) == (0, 0);
    assert RunningBest(d[..1], 5, gt) == (0, 5);
    assert RunningBest(d[..2], 5, gt) == (1, 1);
    var e: seq<Int64> := [-5, -1, -9];
    assert e[..2] == [-5, -1] && e[..2][..1] == [-5] && e[..2][..1][..0] == [];
  }

  /** `GreaterThan`: one entry per element, `element > value`. */
  method GreaterThan(s: Series<Int64>, value: Int64) returns (greater: TruthFilter)
    ensures |greater| == Size(s)
    ensures forall k :: 0 <= k < Size(s) ==> greater[k] == (s.data[k] > value)
  {
    greater := Filter(s, x => x > value);
  }

  /** `SmallerThan`: one entry per element, `element < value`. */
  method SmallerThan(s: Series<Int64>, value: Int64) returns (smaller: TruthFilter)
    ensures |smaller| == Size(s)
    ensures forall k :: 0 <= k < Size(s) ==> smaller[k] == (s.data[k] < value)
  {
    smaller := Filter(s, x => x < value);
  }

  /** `NewIntSeries(1, 2, 3).PassThrough({true, false})` is `[1]`: the short mask stops early. */
  lemma ShortMaskExample()
    ensures Selected([1, 2, 3], [true, false]) == [1]
  {
    assert [true, false][..1] == [true];
    assert [true][..0] == [];
  }
}
