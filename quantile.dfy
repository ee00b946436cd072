/**
 * The dataset-wide statistic behind `is_high_cost`: pandas'
 * `Series.quantile(0.75)` with its default linear interpolation, that is the
 * value at position 0.75 * (n - 1) of the sorted costs, read between the two
 * neighbouring order statistics. An empty column has no quantile.
 */
module Quantile {
  import opened Wrappers

  predicate Sorted(s: seq<real>)
  {
    forall i, j :: 0 <= i < j < |s| ==> s[i] <= s[j]
  }

  function Insert(x: real, s: seq<real>): (r: seq<real>)
    requires Sorted(s)
    ensures Sorted(r)
    ensures |r| == |s| + 1
    ensures r[0] == if s == [] || x <= s[0] then x else s[0]
    ensures multiset(r) == multiset(s) + multiset{x}
  {
    if s == [] then [x]
    else if x <= s[0] then [x] + s
    else
      var rest := Insert(x, s[1..]);
      assert s == [s[0]] + s[1..];
      assert s[0] <= rest[0];
      [s[0]] + rest
  }

  /** The costs in ascending order (an insertion sort). */
  function Sort(xs: seq<real>): (r: seq<real>)
    ensures Sorted(r)
    ensures |r| == |xs|
    ensures multiset(r) == multiset(xs)
  {
    if xs == [] then []
    else
      assert xs == [xs[0]] + xs[1..];
      Insert(xs[0], Sort(xs[1..]))
  }

  /** How many values lie strictly above `t`. */
  function CountAbove(xs: seq<real>, t: real): (c: nat)
    ensures c <= |xs|
  {
    if xs == [] then 0 else (if xs[0] > t then 1 else 0) + CountAbove(xs[1..], t)
  }

  lemma {:induction false} CountAboveInsert(x: real, s: seq<real>, t: real)
    requires Sorted(s)
    ensures CountAbove(Insert(x, s), t) == CountAbove(s, t) + (if x > t then 1 else 0)
  {
    if s != [] && x > s[0] {
      CountAboveInsert(x, s[1..], t);
    }
  }

  /** Sorting does not change how many values exceed a threshold. */
  lemma {:induction false} CountAboveSort(xs: seq<real>, t: real)
    ensures CountAbove(Sort(xs), t) == CountAbove(xs, t)
  {
    if xs != [] {
      CountAboveSort(xs[1..], t);
      CountAboveInsert(xs[0], Sort(xs[1..]), t);
    }
  }

  /** Sorting an already sorted column leaves it as it is. */
  lemma {:induction false} SortSorted(xs: seq<real>)
    requires Sorted(xs)
    ensures Sort(xs) == xs
  {
    if xs != [] {
      SortSorted(xs[1..]);
      assert xs == [xs[0]] + xs[1..];
    }
  }

  /** Index of the lower order statistic for the 0.75 quantile of n values. */
  function LowerRank(n: nat): nat
    requires n >= 1
  {
    3 * (n - 1) / 4
  }

  lemma Between(a: real, b: real, f: real)
    requires a <= b && 0.0 <= f <= 1.0
    ensures a <= a + f * (b - a) <= b
  {
    var d := b - a;
    assert f * d >= 0.0;
    assert (1.0 - f) * d >= 0.0;
    assert d - f * d == (1.0 - f) * d;
  }

  /** Linear interpolation at position 0.75 * (|s| - 1) of a sorted column. */
  function Interpolate75(s: seq<real>): (q: Option<real>)
    requires Sorted(s)
    ensures q.None? <==> s == []
    ensures q.Some? ==> s[LowerRank(|s|)] <= q.value <= s[|s| - 1]
  {
    if s == [] then None
    else
      var lo := LowerRank(|s|);
      var frac := ((3 * (|s| - 1)) % 4) as real / 4.0;
      if lo + 1 < |s| then
        assert s[lo] <= s[lo + 1] <= s[|s| - 1];
        Between(s[lo], s[lo + 1], frac);
        Some(s[lo] + frac * (s[lo + 1] - s[lo]))
      else Some(s[lo])
  }

  /** `costs.quantile(0.75)`: between the smallest and the largest cost. */
  function Quantile75(xs: seq<real>): (q: Option<real>)
    ensures q.None? <==> xs == []
    ensures q.Some? ==> (exists i :: 0 <= i < |xs| && xs[i] <= q.value)
    ensures q.Some? ==> (exists j :: 0 <= j < |xs| && q.value <= xs[j])
  {
    var s := Sort(xs);
    var q := Interpolate75(s);
    if q.Some? then
      assert s[LowerRank(|s|)] in multiset(xs);
      assert s[|s| - 1] in multiset(xs);
      q
    else q
  }

  /**
   * At most n - 1 - floor(3(n - 1)/4) values lie strictly above the 0.75
   * quantile: every value at or below the lower order statistic is not above it.
   */
  lemma {:induction false} AboveQuantileBound(xs: seq<real>)
    requires xs != []
    ensures CountAbove(xs, Quantile75(xs).value) <= |xs| - 1 - LowerRank(|xs|)
  {
    var s := Sort(xs);
    var q := Interpolate75(s).value;
    assert q == Quantile75(xs).value;
    SortedAboveBound(s, LowerRank(|s|), q);
    CountAboveSort(xs, q);
  }

  /** In a sorted column, nothing at or before an index whose value is at most t lies above t. */
  lemma {:induction false} SortedAboveBound(s: seq<real>, k: nat, t: real)
    requires Sorted(s) && k < |s| && s[k] <= t
    ensures CountAbove(s, t) <= |s| - 1 - k
  {
    if k > 0 {
      assert s[0] <= s[k];
      SortedAboveBound(s[1..], k - 1, t);
    }
  }

  /** One cost is never above its own quantile. */
  lemma {:induction false} SingleValueNeverAbove(x: real)
    ensures Quantile75([x]) == Some(x)
    ensures CountAbove([x], x) == 0
  {
    AboveQuantileBound([x]);
  }

  /** Costs 100, 200, 300, 1000: the quantile is 300 + 0.25 * 700 = 475. */
  lemma FourCostsExample()
    ensures Quantile75([100.0, 200.0, 300.0, 1000.0]) == Some(475.0)
  {
    var xs := [100.0, 200.0, 300.0, 1000.0];
    assert Interpolate75(xs) == Some(475.0) by {
      assert Sorted(xs);
      assert LowerRank(4) == 2;
    }
    SortSorted(xs);
  }
}
