/**
 * `transform_data`: the record-by-record derivation of `processed_data` from
 * `raw_data`. Every column is a whole-column expression, so each derived row
 * depends on its raw row and on one dataset-wide value, the 0.75 quantile of
 * `total_cost`.
 */
module Transform {
  import opened Wrappers
  import opened Records
  import opened TextCase
  import opened AgeBands
  import opened Risk
  import opened Quantile

  type Quarter = q: int | 1 <= q <= 4 witness 1

  /** Strict lower bound of a long stay, in days. */
  const LONG_STAY_DAYS: real := 7.0

  /** One row of `processed_data`: the raw columns plus the derived ones. */
  datatype Derived = Derived(
    patientId: string,
    recordDate: Timestamp,
    age: int,
    gender: Gender,
    county: string,
    condition: string,
    admissionType: AdmissionType,
    lengthOfStay: real,
    totalCost: real,
    readmission: Bit,
    ageGroup: Option<AgeBand>,
    year: int,
    month: Month,
    quarter: Quarter,
    dayOfWeek: Weekday,
    costPerDay: Option<real>,
    isHighCost: bool,
    isLongStay: bool,
    riskScore: real
  )

  /** `.dt.quarter` of a month. */
  function QuarterOf(m: Month): (q: Quarter)
    ensures 3 * (q - 1) < m <= 3 * q
  {
    (m - 1) / 3 + 1
  }

  /**
   * `total_cost / length_of_stay`; pandas yields inf or NaN for a zero
   * length of stay, which is "no value" here.
   */
  function CostPerDay(cost: real, lengthOfStay: real): (r: Option<real>)
    ensures r.Some? <==> lengthOfStay != 0.0
    ensures r.Some? ==> r.value * lengthOfStay == cost
  {
    if lengthOfStay == 0.0 then None else Some(cost / lengthOfStay)
  }

  /** The derived row of one raw row, given the dataset's cost quantile. */
  function Derive(r: RawRecord, threshold: Option<real>): (d: Derived)
    ensures d.patientId == r.patientId && d.age == r.age && d.gender == r.gender
    ensures d.admissionType == r.admissionType && d.readmission == r.readmission
    ensures d.lengthOfStay == r.lengthOfStay && d.totalCost == r.totalCost
    ensures d.county == TitleCase(r.county) && d.condition == TitleCase(r.condition)
    ensures d.ageGroup == AgeGroup(r.age)
    ensures d.recordDate == r.recordDate
    ensures d.year == r.recordDate.year && d.month == r.recordDate.month
    ensures 3 * (d.quarter - 1) < d.month <= 3 * d.quarter
    ensures d.dayOfWeek == r.recordDate.dayOfWeek
    ensures d.costPerDay.Some? <==> r.lengthOfStay != 0.0
    ensures d.costPerDay.Some? ==> d.costPerDay.value * r.lengthOfStay == r.totalCost
    ensures d.isLongStay <==> r.lengthOfStay > LONG_STAY_DAYS
    ensures d.isHighCost <==> threshold.Some? && r.totalCost > threshold.value
    ensures 0.0 <= d.riskScore <= 1.0
    ensures d.riskScore == RiskScore(r.age, r.admissionType, r.readmission)
    ensures d.riskScore > HIGH_RISK_CUTOFF <==> r.admissionType == Emergency && r.readmission == 1
  {
    HighRiskIffEmergencyReadmission(r.age, r.admissionType, r.readmission);
    Derived(
      r.patientId, r.recordDate, r.age, r.gender,
      TitleCase(r.county), TitleCase(r.condition),
      r.admissionType, r.lengthOfStay, r.totalCost, r.readmission,
      AgeGroup(r.age),
      r.recordDate.year, r.recordDate.month, QuarterOf(r.recordDate.month), r.recordDate.dayOfWeek,
      CostPerDay(r.totalCost, r.lengthOfStay),
      threshold.Some? && r.totalCost > threshold.value,
      r.lengthOfStay > LONG_STAY_DAYS,
      RiskScore(r.age, r.admissionType, r.readmission)
    )
  }

  /** The `total_cost` column. */
  function Costs(raws: seq<RawRecord>): (c: seq<real>)
    ensures |c| == |raws|
    ensures forall i :: 0 <= i < |raws| ==> c[i] == raws[i].totalCost
  {
    if raws == [] then [] else [raws[0].totalCost] + Costs(raws[1..])
  }

  /** Every row derived against the same threshold. */
  function DeriveAll(raws: seq<RawRecord>, threshold: Option<real>): (ds: seq<Derived>)
    ensures |ds| == |raws|
    ensures forall i :: 0 <= i < |raws| ==> ds[i] == Derive(raws[i], threshold)
  {
    if raws == [] then [] else [Derive(raws[0], threshold)] + DeriveAll(raws[1..], threshold)
  }

  /**
   * `transform_data` on a copy of `raw_data`: no row is dropped or reordered,
   * and row i is row i's derivation against the quantile of all costs.
   */
  function Transform(raws: seq<RawRecord>): (ds: seq<Derived>)
    ensures |ds| == |raws|
    ensures forall i :: 0 <= i < |raws| ==> ds[i] == Derive(raws[i], Quantile75(Costs(raws)))
  {
    DeriveAll(raws, Quantile75(Costs(raws)))
  }

  /** How many rows carry `is_high_cost`. */
  function CountHighCost(ds: seq<Derived>): (c: nat)
    ensures c <= |ds|
  {
    if ds == [] then 0 else (if ds[0].isHighCost then 1 else 0) + CountHighCost(ds[1..])
  }

  lemma {:induction false} CountHighCostDeriveAll(raws: seq<RawRecord>, t: real)
    ensures CountHighCost(DeriveAll(raws, Some(t))) == CountAbove(Costs(raws), t)
  {
    if raws != [] {
      var ds := DeriveAll(raws, Some(t));
      assert ds[1..] == DeriveAll(raws[1..], Some(t));
      assert Costs(raws)[1..] == Costs(raws[1..]);
      CountHighCostDeriveAll(raws[1..], t);
    }
  }

  /**
   * The high-cost flag marks at most n - 1 - floor(3(n - 1)/4) of n rows, so
   * at least three in four rows (rounded up) are never flagged.
   */
  lemma HighCostBound(raws: seq<RawRecord>)
    requires raws != []
    ensures CountHighCost(Transform(raws)) <= |raws| - 1 - LowerRank(|raws|)
  {
    var costs := Costs(raws);
    var q := Quantile75(costs);
    CountHighCostDeriveAll(raws, q.value);
    AboveQuantileBound(costs);
  }

  /** A dataset of one record never flags it as high-cost. */
  lemma SingleRecordNotHighCost(r: RawRecord)
    ensures !Transform([r])[0].isHighCost
  {
    HighCostBound([r]);
    assert Transform([r])[1..] == [];
  }

  /** Costs 100, 200, 300, 1000 give the threshold 475: only the last row is high-cost. */
  lemma FourCostsFlags(raws: seq<RawRecord>)
    requires |raws| == 4
    requires raws[0].totalCost == 100.0 && raws[1].totalCost == 200.0
    requires raws[2].totalCost == 300.0 && raws[3].totalCost == 1000.0
    ensures !Transform(raws)[0].isHighCost && !Transform(raws)[1].isHighCost
    ensures !Transform(raws)[2].isHighCost && Transform(raws)[3].isHighCost
  {
    assert Costs(raws) == [100.0, 200.0, 300.0, 1000.0];
    FourCostsExample();
  }
}
