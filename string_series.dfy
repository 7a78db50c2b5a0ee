/**
 * StringSeries.go: a series of strings. Unlike the numeric series, its
 * `Append` really returns the extended copy.
 */
module StringSeries {
  import opened TruthFilters
  import opened SeriesCore

  /** `Append`: a new series, the receiver's elements followed by `elements`. */
  function Append(s: Series<string>, elements: seq<string>): (r: Series<string>)
    ensures Size(r) == Size(s) + |elements|
    ensures Subset(r, 0, Size(s)) == s
    ensures Subset(r, Size(s), Size(r)).data == elements
  {
    AppendCopy(s, elements)
  }

  /** The mask of entries equal to `str`. */
  function Matches(s: Series<string>, str: string): (r: TruthFilter)
    ensures |r| == Size(s)
    ensures forall k :: 0 <= k < Size(s) ==> r[k] == (s.data[k] == str)
  {
    Mapped(s.data, x => x == str)
  }

  /** `Equal`. */
  method Equal(s: Series<string>, str: string) returns (equal: TruthFilter)
    ensures equal == Matches(s, str)
  {
    equal := Filter(s, x => x == str);
  }

  /** `NotEqual`: the pointwise negation of `Equal`. */
  method NotEqual(s: Series<string>, str: string) returns (notEqual: TruthFilter)
    ensures notEqual == Negation(Matches(s, str))
  {
    notEqual := Filter(s, x => x != str);
  }

  /** Masking with `Equal(str)` keeps one copy of `str` per occurrence, and nothing else. */
  lemma PassThroughEqual(s: Series<string>, str: string)
    ensures Selected(s.data, Matches(s, str)) == Kept(s.data, x => x == str)
  {
    PassThroughOwnFilter(s.data, x => x == str);
  }
}
