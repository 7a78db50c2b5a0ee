/**
 * The shape shared by IntSeries, StringSeries and FloatSeries: an ordered
 * vector of one element type with value semantics. Every operation returns a
 * new series; slices shared between a series and its Subset or Concat (Go
 * aliasing) are not modelled, each series is an immutable sequence.
 */
module SeriesCore {
  import opened TruthFilters

  datatype Series<T> = Series(data: seq<T>)

  /** `Size`. */
  function Size<T>(s: Series<T>): int {
    |s.data|
  }

  /** `Index`: Go panics outside `[0, Size())`. */
  function Index<T>(s: Series<T>, k: int): T
    requires 0 <= k < Size(s)
  {
    s.data[k]
  }

  /** `Clone`: a copy with equal contents. */
  function Clone<T>(s: Series<T>): (r: Series<T>)
    ensures r.data == s.data
  {
    Series(s.data)
  }

  /** `Concat`: the receiver's elements followed by `x`'s. */
  function Concat<T>(s: Series<T>, x: Series<T>): (r: Series<T>)
    ensures Size(r) == Size(s) + Size(x)
    ensures forall k :: 0 <= k < Size(s) ==> Index(r, k) == Index(s, k)
    ensures forall k :: 0 <= k < Size(x) ==> Index(r, Size(s) + k) == Index(x, k)
  {
    Series(s.data + x.data)
  }

  /** `Subset`: the elements at positions `start` up to, not including, `end`. */
  function Subset<T>(s: Series<T>, start: int, end: int): (r: Series<T>)
    requires 0 <= start <= end <= Size(s)
    ensures Size(r) == end - start
    ensures forall k :: 0 <= k < end - start ==> Index(r, k) == Index(s, start + k)
  {
    Series(s.data[start..end])
  }

  /** Splitting a concatenation at the first part's size gives back both parts. */
  lemma ConcatThenSplit<T>(a: Series<T>, b: Series<T>)
    ensures Size(Concat(a, b)) == Size(a) + Size(b)
    ensures Subset(Concat(a, b), 0, Size(a)) == a
    ensures Subset(Concat(a, b), Size(a), Size(a) + Size(b)) == b
  {
    assert (a.data + b.data)[..|a.data|] == a.data;
    assert (a.data + b.data)[|a.data|..] == b.data;
  }

  /** Concatenating adjacent subsets gives the subset that spans both. */
  lemma SplitThenConcat<T>(s: Series<T>, i: int, j: int, k: int)
    requires 0 <= i <= j <= k <= Size(s)
    ensures Concat(Subset(s, i, j), Subset(s, j, k)) == Subset(s, i, k)
  {
    assert s.data[i..j] + s.data[j..k] == s.data[i..k];
  }

  /**
   * `Append` done right (the StringSeries one): a new series holding the
   * receiver's elements followed by `elements`.
   */
  function AppendCopy<T>(s: Series<T>, elements: seq<T>): (r: Series<T>)
    ensures Size(r) == Size(s) + |elements|
    ensures Subset(r, 0, Size(s)) == s
    ensures Subset(r, Size(s), Size(r)).data == elements
  {
    var r := Series(Clone(s).data + elements);
    assert r.data[..|s.data|] == s.data;
    r
  }

  /** `op` applied to every element, in order. */
  function Mapped<T, U>(d: seq<T>, op: T -> U): (r: seq<U>)
    ensures |r| == |d|
    ensures forall k :: 0 <= k < |d| ==> r[k] == op(d[k])
  {
    if d == [] then [] else Mapped(d[..|d| - 1], op) + [op(d[|d| - 1])]
  }

  /** `Apply`. */
  method Apply<T>(s: Series<T>, op: T -> T) returns (changed: Series<T>)
    ensures changed.data == Mapped(s.data, op)
  {
    var data: seq<T> := [];
    for k := 0 to |s.data|
      invariant data == Mapped(s.data[..k], op)
    {
      assert s.data[..k + 1][..k] == s.data[..k];
      data := data + [op(s.data[k])];
    }
    assert s.data[..|s.data|] == s.data;
    changed := Series(data);
  }

  /** Applying the identity to a clone gives the series back. */
  lemma ApplyIdentity<T>(s: Series<T>, op: T -> T)
    requires forall x :: op(x) == x
    ensures Mapped(Clone(s).data, op) == s.data
  {
  }

  /** Two applications are one application of the composition. */
  lemma ApplyTwice<T>(s: Series<T>, f: T -> T, g: T -> T)
    ensures Mapped(Mapped(s.data, f), g) == Mapped(s.data, x => g(f(x)))
  {
  }

  /** `Filter`: one mask entry per element, `accept` of that element. */
  method Filter<T>(s: Series<T>, accept: T -> bool) returns (filter: TruthFilter)
    ensures filter == Mapped(s.data, accept)
  {
    filter := [];
    for k := 0 to |s.data|
      invariant filter == Mapped(s.data[..k], accept)
    {
      assert s.data[..k + 1][..k] == s.data[..k];
      filter := filter + [accept(s.data[k])];
    }
    assert s.data[..|s.data|] == s.data;
  }

  /**
   * The elements `d[k]` whose mask entry `f[k]` is true, in order; mask
   * entries past the end of `d` select nothing.
   */
  function Selected<T>(d: seq<T>, f: TruthFilter): (r: seq<T>)
    ensures |r| <= |f| && |r| <= |d|
    ensures forall x :: x in r ==> exists k :: 0 <= k < |f| && k < |d| && f[k] && d[k] == x
  {
    if f == [] then []
    else
      var k := |f| - 1;
      var before := Selected(d, f[..k]);
      if f[k] && k < |d| then
        assert |before| <= k;
        before + [d[k]]
      else before
  }

  /**
   * The positions a mask selects, in increasing order: every `k` below both
   * the mask's length and `n` with `f[k]` true, and no other.
   */
  function Positions(f: TruthFilter, n: int): (idx: seq<int>)
    ensures forall j :: 0 <= j < |idx| ==> 0 <= idx[j] < |f| && idx[j] < n && f[idx[j]]
    ensures forall j, l :: 0 <= j < l < |idx| ==> idx[j] < idx[l]
    ensures forall k :: 0 <= k < |f| && k < n && f[k] ==> k in idx
  {
    if f == [] then []
    else
      var k := |f| - 1;
      var before := Positions(f[..k], n);
      if f[k] && k < n then before + [k] else before
  }

  /**
   * What `Selected` keeps, for every mask: the elements at the selected
   * positions, each once and in order.
   */
  lemma {:induction false} SelectedAtPositions<T>(d: seq<T>, f: TruthFilter)
    ensures |Selected(d, f)| == |Positions(f, |d|)|
    ensures forall j :: 0 <= j < |Selected(d, f)| ==> Selected(d, f)[j] == d[Positions(f, |d|)[j]]
  {
    if f != [] {
      SelectedAtPositions(d, f[..|f| - 1]);
    }
  }

  /** Every element whose mask entry is true, within both lengths, is kept. */
  lemma SelectedComplete<T>(d: seq<T>, f: TruthFilter, k: int)
    requires 0 <= k < |f| && k < |d| && f[k]
    ensures d[k] in Selected(d, f)
  {
    SelectedAtPositions(d, f);
    var idx := Positions(f, |d|);
    var j :| 0 <= j < |idx| && idx[j] == k;
    assert Selected(d, f)[j] == d[k];
  }

  /** `PassThrough`. */
  method PassThrough<T>(s: Series<T>, filter: TruthFilter) returns (r: Series<T>)
    ensures r.data == Selected(s.data, filter)
  {
    var data: seq<T> := [];
    for index := 0 to |filter|
      invariant data == Selected(s.data, filter[..index])
    {
      assert filter[..index + 1][..index] == filter[..index];
      if filter[index] && index < Size(s) {
        data := data + [Index(s, index)];
      }
    }
    assert filter[..|filter|] == filter;
    r := Series(data);
  }

  /** Mask entries past the data and data past the mask are both ignored. */
  lemma {:induction false} SelectedIgnoresTails<T>(d: seq<T>, f: TruthFilter, m: int)
    requires m == if |f| < |d| then |f| else |d|
    ensures Selected(d, f) == Selected(d[..m], f[..m])
    decreases |f|
  {
    if |f| > m {
      // the last mask entry lies past the data
      SelectedIgnoresTails(d, f[..|f| - 1], m);
      assert f[..|f| - 1][..m] == f[..m];
    } else if f != [] {
      var k := |f| - 1;
      SelectedIgnoresTails(d, f[..k], k);
      SelectedIgnoresTails(d[..m], f[..k], k);
      assert d[..m][..k] == d[..k];
      assert f[..m] == f;
    } else {
      assert f[..m] == f;
    }
  }

  /** An all-true mask as long as the data passes every element through. */
  lemma {:induction false} SelectedAllTrue<T>(d: seq<T>, f: TruthFilter)
    requires |f| <= |d|
    requires forall k :: 0 <= k < |f| ==> f[k]
    ensures Selected(d, f) == d[..|f|]
  {
    if f != [] {
      var k := |f| - 1;
      SelectedAllTrue(d, f[..k]);
      assert d[..k] + [d[k]] == d[..k + 1];
    }
  }

  /** An all-false mask passes nothing. */
  lemma {:induction false} SelectedNoneTrue<T>(d: seq<T>, f: TruthFilter)
    requires forall k :: 0 <= k < |f| ==> !f[k]
    ensures Selected(d, f) == []
  {
    if f != [] {
      SelectedNoneTrue(d, f[..|f| - 1]);
    }
  }

  /** The elements satisfying `p`, in order: the reference for masking by `Filter(p)`. */
  function Kept<T>(d: seq<T>, p: T -> bool): (r: seq<T>)
    ensures forall x :: x in r ==> x in d && p(x)
  {
    if d == [] then []
    else
      var last := d[|d| - 1];
      Kept(d[..|d| - 1], p) + if p(last) then [last] else []
  }

  /** Masking a series with its own `Filter(p)` keeps exactly the elements satisfying `p`. */
  lemma {:induction false} PassThroughOwnFilter<T>(d: seq<T>, p: T -> bool)
    ensures Selected(d, Mapped(d, p)) == Kept(d, p)
  {
    if d != [] {
      var k := |d| - 1;
      var f := Mapped(d, p);
      assert f[..k] == Mapped(d[..k], p);
      SelectedIgnoresTails(d, f[..k], k);
      assert f[..k][..k] == f[..k];
      PassThroughOwnFilter(d[..k], p);
    }
  }

  /** `Find`: the first position holding `v`, or -1. */
  method Find<T(==)>(s: Series<T>, v: T) returns (index: int)
    ensures -1 <= index < Size(s)
    ensures index == -1 <==> v !in s.data
    ensures 0 <= index ==> s.data[index] == v && v !in s.data[..index]
  {
    for k := 0 to |s.data|
      invariant v !in s.data[..k]
    {
      assert s.data[..k + 1] == s.data[..k] + [s.data[k]];
      if s.data[k] == v {
        return k;
      }
    }
    assert s.data[..|s.data|] == s.data;
    return -1;
  }

  /**
   * The running best of `Max` and `Min`: start from `(0, seed)` and move to
   * `(k, d[k])` whenever `improves(best, d[k])`.
   */
  function RunningBest<T>(d: seq<T>, seed: T, improves: (T, T) -> bool): (r: (int, T))
  {
    if d == [] then (0, seed)
    else
      var k := |d| - 1;
      var before := RunningBest(d[..k], seed, improves);
      if improves(before.1, d[k]) then (k, d[k]) else before
  }

  /** The loop of `Max` (with `improves` = less-than) and of `Min` (greater-than). */
  method Extremum<T>(d: seq<T>, seed: T, improves: (T, T) -> bool) returns (pos: int, best: T)
    ensures (pos, best) == RunningBest(d, seed, improves)
  {
    pos, best := 0, seed;
    for x := 0 to |d|
      invariant (pos, best) == RunningBest(d[..x], seed, improves)
    {
      assert d[..x + 1][..x] == d[..x];
      if improves(best, d[x]) {
        best := d[x];
        pos := x;
      }
    }
    assert d[..|d|] == d;
  }

  ghost predicate StrictTotalOrder<T(!new)>(lt: (T, T) -> bool) {
    && (forall x :: !lt(x, x))
    && (forall x, y, z :: lt(x, y) && lt(y, z) ==> lt(x, z))
    && (forall x, y :: x != y ==> lt(x, y) || lt(y, x))
  }

  /** The order read backwards: `Min` improves on `greater-than`. */
  function Reversed<T(!new)>(lt: (T, T) -> bool): (gt: (T, T) -> bool)
    ensures forall x, y :: gt(x, y) == lt(y, x)
  {
    (x, y) => lt(y, x)
  }

  lemma ReversedIsStrictTotalOrder<T(!new)>(lt: (T, T) -> bool)
    requires StrictTotalOrder(lt)
    ensures StrictTotalOrder(Reversed(lt))
  {
  }

  /**
   * What the running best is under a strict total order: nothing exceeds it,
   * it is at least the seed, it is either the untouched seed at position 0 or
   * an element that beats the seed, and every earlier element is strictly
   * smaller (so its position is the first occurrence). In particular it is
   * the seed exactly when no element beats the seed.
   */
  lemma {:induction false} RunningBestMeaning<T(!new)>(d: seq<T>, seed: T, lt: (T, T) -> bool)
    requires StrictTotalOrder(lt)
    ensures var (p, m) := RunningBest(d, seed, lt);
      && (forall k :: 0 <= k < |d| ==> !lt(m, d[k]))
      && !lt(m, seed)
      && ((p == 0 && m == seed) || (0 <= p < |d| && m == d[p] && lt(seed, m)))
      && (forall k :: 0 <= k < p ==> lt(d[k], m))
      && ((exists k :: 0 <= k < |d| && lt(seed, d[k])) ==> 0 <= p < |d| && m == d[p] && lt(seed, m))
      && ((forall k :: 0 <= k < |d| ==> !lt(seed, d[k])) ==> p == 0 && m == seed)
  {
    if d != [] {
      var n := |d| - 1;
      var d0, e := d[..n], d[n];
      RunningBestMeaning(d0, seed, lt);
      var (p0, m0) := RunningBest(d0, seed, lt);
      assert forall k :: 0 <= k < n ==> d[k] == d0[k];
      if lt(m0, e) {
        forall k | 0 <= k < |d| ensures !lt(e, d[k]) {
          if k < n {
            assert !lt(m0, d0[k]);
          }
        }
        forall k | 0 <= k < n ensures lt(d[k], e) {
          assert !lt(m0, d0[k]);
          assert d0[k] == m0 || lt(d0[k], m0);
        }
        assert m0 == seed || lt(seed, m0);
      }
    }
  }

  /**
   * `Max`/`Min` as evidently intended: seeded with the first element, not
   * with zero, the running best is a true extremum at its first occurrence.
   */
  function FirstBest<T(!new)>(d: seq<T>, lt: (T, T) -> bool): (r: (int, T))
    requires |d| > 0 && StrictTotalOrder(lt)
    ensures 0 <= r.0 < |d| && r.1 == d[r.0]
    ensures forall k :: 0 <= k < |d| ==> !lt(r.1, d[k])
    ensures forall k :: 0 <= k < r.0 ==> lt(d[k], r.1)
  {
    RunningBestMeaning(d, d[0], lt);
    RunningBest(d, d[0], lt)
  }
}
