/**
 * The metrics dictionary `generate_analytics` returns: distinct patients,
 * admissions, and the means of length of stay, cost and readmission. pandas'
 * mean of an empty column is NaN, which is "no value" here.
 */
module Analytics {
  import opened Wrappers
  import opened Records
  import opened Risk
  import opened Quantile
  import opened Transform
  import opened Reductions

  datatype Metrics = Metrics(
    totalPatients: nat,
    totalAdmissions: nat,
    avgLos: Option<real>,
    avgCost: Option<real>,
    readmissionRate: Option<real>
  )

  /** The `patient_id` column, row for row. */
  function PatientColumn(ds: seq<Derived>): (col: seq<string>)
    ensures |col| == |ds|
    ensures forall i :: 0 <= i < |ds| ==> col[i] == ds[i].patientId
  {
    if ds == [] then [] else [ds[0].patientId] + PatientColumn(ds[1..])
  }

  /**
   * The distinct patient identifiers (`nunique`), collected row by row:
   * never more of them than rows, and at least one when there are rows.
   */
  function PatientIds(ds: seq<Derived>): (ids: set<string>)
    ensures |ids| <= |ds|
    ensures ds != [] ==> |ids| >= 1
  {
    if ds == [] then {}
    else
      var rest := PatientIds(ds[1..]);
      var ids := {ds[0].patientId} + rest;
      assert |ids| <= |rest| + 1 by {
        if ds[0].patientId in rest {
          assert ids == rest;
        }
      }
      ids
  }

  /** The identifiers collected are exactly the values of the patient column. */
  lemma {:induction false} PatientIdsAreColumnValues(ds: seq<Derived>)
    ensures forall x :: x in PatientIds(ds) <==> x in PatientColumn(ds)
  {
    if ds != [] {
      PatientIdsAreColumnValues(ds[1..]);
      assert PatientColumn(ds) == [ds[0].patientId] + PatientColumn(ds[1..]);
    }
  }

  /** The rows flagged high-risk (`risk_score > 0.7`), as counted for the report. */
  function CountHighRisk(ds: seq<Derived>): (c: nat)
    ensures c <= |ds|
  {
    if ds == [] then 0
    else (if ds[0].riskScore > HIGH_RISK_CUTOFF then 1 else 0) + CountHighRisk(ds[1..])
  }

  /** The raw records admitted as an emergency that are readmissions. */
  function CountEmergencyReadmissions(raws: seq<RawRecord>): (c: nat)
    ensures c <= |raws|
  {
    if raws == [] then 0
    else (if raws[0].admissionType == Emergency && raws[0].readmission == 1 then 1 else 0)
         + CountEmergencyReadmissions(raws[1..])
  }

  /**
   * The high-risk patients of the processed data are exactly the emergency
   * readmissions of the raw data: age never tips a score over 0.7.
   */
  lemma {:induction false} HighRiskCount(raws: seq<RawRecord>, threshold: Option<real>)
    ensures CountHighRisk(DeriveAll(raws, threshold)) == CountEmergencyReadmissions(raws)
  {
    if raws != [] {
      var ds := DeriveAll(raws, threshold);
      assert ds[1..] == DeriveAll(raws[1..], threshold);
      HighRiskCount(raws[1..], threshold);
    }
  }

  /** The high-risk count of `transform_data`'s output. */
  lemma HighRiskCountOfTransform(raws: seq<RawRecord>)
    ensures CountHighRisk(Transform.Transform(raws)) == CountEmergencyReadmissions(raws)
  {
    HighRiskCount(raws, Quantile75(Costs(raws)));
  }

  /**
   * `generate_analytics`' result: admissions count every row, patients are
   * the number of distinct identifiers (between one and the admissions, none
   * for no rows), and each average is its column total over the number of
   * rows, which exists exactly when there are rows; the readmission rate is
   * the share of readmitted rows, within [0, 1].
   */
  function Summarize(ds: seq<Derived>): (m: Metrics)
    ensures m.totalAdmissions == |ds|
    ensures m.totalPatients == |PatientIds(ds)|
    ensures m.totalPatients <= m.totalAdmissions
    ensures m.totalPatients == 0 <==> ds == []
    ensures m.avgLos.Some? <==> ds != []
    ensures m.avgCost.Some? <==> ds != []
    ensures m.readmissionRate.Some? <==> ds != []
    ensures m.avgLos.Some? ==> m.avgLos.value == SumLengthOfStay(ds) / |ds| as real
    ensures m.avgCost.Some? ==> m.avgCost.value == SumCost(ds) / |ds| as real
    ensures m.readmissionRate.Some? ==> m.readmissionRate.value == SumReadmissions(ds) as real / |ds| as real
    ensures m.readmissionRate.Some? ==> 0.0 <= m.readmissionRate.value <= 1.0
  {
    Metrics(|PatientIds(ds)|, |ds|, Mean(SumLengthOfStay(ds), |ds|), Mean(SumCost(ds), |ds|), ReadmissionRate(ds))
  }
}
