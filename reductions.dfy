/** Column totals over `processed_data`, read in row order. */
module Reductions {
  import opened Wrappers
  import opened Transform

  /** The sum of the `total_cost` column. */
  function SumCost(ds: seq<Derived>): real
  {
    if ds == [] then 0.0 else ds[0].totalCost + SumCost(ds[1..])
  }

  /** The sum of the `length_of_stay` column. */
  function SumLengthOfStay(ds: seq<Derived>): real
  {
    if ds == [] then 0.0 else ds[0].lengthOfStay + SumLengthOfStay(ds[1..])
  }

  /** The total cost is never negative when no cost is. */
  lemma {:induction false} SumCostNonNegative(ds: seq<Derived>)
    requires forall i :: 0 <= i < |ds| ==> ds[i].totalCost >= 0.0
    ensures SumCost(ds) >= 0.0
  {
    if ds != [] {
      SumCostNonNegative(ds[1..]);
    }
  }

  /** The total stay is never negative when no stay is. */
  lemma {:induction false} SumLengthOfStayNonNegative(ds: seq<Derived>)
    requires forall i :: 0 <= i < |ds| ==> ds[i].lengthOfStay >= 0.0
    ensures SumLengthOfStay(ds) >= 0.0
  {
    if ds != [] {
      SumLengthOfStayNonNegative(ds[1..]);
    }
  }

  /** The number of readmissions: never more than the number of rows. */
  function SumReadmissions(ds: seq<Derived>): (n: nat)
    ensures n <= |ds|
  {
    if ds == [] then 0 else ds[0].readmission + SumReadmissions(ds[1..])
  }

  /** pandas' `mean()`: NaN (no value) on an empty column. */
  function Mean(sum: real, count: nat): (m: Option<real>)
    ensures m.None? <==> count == 0
  {
    if count == 0 then None else Some(sum / count as real)
  }

  /** A mean times the number of values it averages gives back their sum. */
  lemma MeanTimesCount(sum: real, count: nat)
    requires count > 0
    ensures Mean(sum, count).value * count as real == sum
  {
  }

  /** The mean of the readmission column: a share of the rows, within [0, 1]. */
  function ReadmissionRate(ds: seq<Derived>): (r: Option<real>)
    ensures r.None? <==> ds == []
    ensures r.Some? ==> 0.0 <= r.value <= 1.0
  {
    var r := Mean(SumReadmissions(ds) as real, |ds|);
    if r.Some? then
      RateInUnitInterval(SumReadmissions(ds), |ds|);
      r
    else r
  }

  /** A rate of k events among n rows lies in [0, 1]. */
  lemma RateInUnitInterval(k: nat, n: nat)
    requires 0 < n && k <= n
    ensures 0.0 <= k as real / n as real <= 1.0
  {
  }
}
