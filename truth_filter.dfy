/**
 * pandas/TruthFilter.go: a boolean mask, one entry per row, combined
 * pointwise. Each operation builds a fresh result by appending in a loop;
 * the receiver is never changed.
 */
module TruthFilters {
  type TruthFilter = seq<bool>

  /** Every entry negated. */
  function Negation(t: TruthFilter): (r: TruthFilter)
    ensures |r| == |t|
    ensures forall i :: 0 <= i < |t| ==> r[i] == !t[i]
  {
    if t == [] then [] else Negation(t[..|t| - 1]) + [!t[|t| - 1]]
  }

  /**
   * Entry `i` is `t[i] && u[i]` for every `i` below `|t|`; later entries of
   * `u` are ignored. The `&&` short-circuits, so `u[i]` is read only where
   * `t[i]` holds: past the end of `u`, `t` must be false.
   */
  function Conjunction(t: TruthFilter, u: TruthFilter): (r: TruthFilter)
    requires forall i :: |u| <= i < |t| ==> !t[i]
    ensures |r| == |t|
    ensures forall i :: 0 <= i < |t| ==> r[i] == (t[i] && u[i])
  {
    if t == [] then [] else Conjunction(t[..|t| - 1], u) + [t[|t| - 1] && u[|t| - 1]]
  }

  /**
   * Entry `i` is `t[i] || u[i]` for every `i` below `|t|`; later entries of
   * `u` are ignored. The `||` short-circuits, so `u[i]` is read only where
   * `t[i]` fails: past the end of `u`, `t` must be true.
   */
  function Disjunction(t: TruthFilter, u: TruthFilter): (r: TruthFilter)
    requires forall i :: |u| <= i < |t| ==> t[i]
    ensures |r| == |t|
    ensures forall i :: 0 <= i < |t| ==> r[i] == (t[i] || u[i])
  {
    if t == [] then [] else Disjunction(t[..|t| - 1], u) + [t[|t| - 1] || u[|t| - 1]]
  }

  /** `Not`. */
  method Not(t: TruthFilter) returns (not: TruthFilter)
    ensures not == Negation(t)
  {
    not := [];
    for i := 0 to |t|
      invariant not == Negation(t[..i])
    {
      assert t[..i + 1][..i] == t[..i];
      not := not + [!t[i]];
    }
    assert t[..|t|] == t;
  }

  /**
   * `And`: Go reads `addFilter[i]` only where `t[i]` is true, so a shorter
   * `u` is an index panic only at a true entry of `t` past its end.
   */
  method And(t: TruthFilter, u: TruthFilter) returns (and: TruthFilter)
    requires forall i :: |u| <= i < |t| ==> !t[i]
    ensures and == Conjunction(t, u)
  {
    and := [];
    for i := 0 to |t|
      invariant and == Conjunction(t[..i], u)
    {
      assert t[..i + 1][..i] == t[..i];
      and := and + [t[i] && u[i]];
    }
    assert t[..|t|] == t;
  }

  /**
   * `Or`: Go reads `addFilter[i]` only where `t[i]` is false, so a shorter
   * `u` is an index panic only at a false entry of `t` past its end.
   */
  method Or(t: TruthFilter, u: TruthFilter) returns (or: TruthFilter)
    requires forall i :: |u| <= i < |t| ==> t[i]
    ensures or == Disjunction(t, u)
  {
    or := [];
    for i := 0 to |t|
      invariant or == Disjunction(t[..i], u)
    {
      assert t[..i + 1][..i] == t[..i];
      or := or + [t[i] || u[i]];
    }
    assert t[..|t|] == t;
  }

  /** Negating twice gives back the mask. */
  lemma {:induction false} NotIsInvolution(t: TruthFilter)
    ensures Negation(Negation(t)) == t
  {
    var r := Negation(Negation(t));
    assert |r| == |t|;
    forall i | 0 <= i < |t| ensures r[i] == t[i] {
      assert Negation(t)[i] == !t[i];
    }
  }

  /** De Morgan, both ways, for masks of equal length. */
  lemma {:induction false} DeMorgan(t: TruthFilter, u: TruthFilter)
    requires |t| == |u|
    ensures Negation(Conjunction(t, u)) == Disjunction(Negation(t), Negation(u))
    ensures Negation(Disjunction(t, u)) == Conjunction(Negation(t), Negation(u))
  {
    var a, b := Negation(Conjunction(t, u)), Disjunction(Negation(t), Negation(u));
    assert |a| == |b|;
    forall i | 0 <= i < |t| ensures a[i] == b[i] {
      assert Conjunction(t, u)[i] == (t[i] && u[i]);
    }
    var c, d := Negation(Disjunction(t, u)), Conjunction(Negation(t), Negation(u));
    assert |c| == |d|;
    forall i | 0 <= i < |t| ensures c[i] == d[i] {
      assert Disjunction(t, u)[i] == (t[i] || u[i]);
    }
  }

  /** Short-circuiting lets a short second mask through where its entries are never read. */
  lemma ShortSecondMask()
    ensures Conjunction([false, false], []) == [false, false]
    ensures Disjunction([true], []) == [true]
  {
  }

  /** The example `{true, false, true}.Not() == {false, true, false}`. */
  lemma NotExample()
    ensures Negation([true, false, true]) == [false, true, false]
  {
  }
}
