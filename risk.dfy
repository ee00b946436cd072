/**
 * The `risk_score` column: an integer-weighted sum of three indicators
 * divided by the largest possible sum, 9.
 */
module Risk {
  import opened Records
  import opened Wrappers
  import opened AgeBands

  const ELDERLY_WEIGHT: nat := 2
  const EMERGENCY_WEIGHT: nat := 3
  const READMISSION_WEIGHT: nat := 4
  const RISK_DIVISOR: nat := 9

  /** The cut-off above which `generate_analytics` counts a patient as high-risk. */
  const HIGH_RISK_CUTOFF: real := 0.7

  function Indicator(b: bool): nat
  {
    if b then 1 else 0
  }

  /** The weighted sum before division. */
  function RiskNumerator(age: int, admission: AdmissionType, readmission: Bit): (n: nat)
    ensures n <= RISK_DIVISOR
    ensures n == RISK_DIVISOR <==> age > 65 && admission == Emergency && readmission == 1
    ensures n == 0 <==> age <= 65 && admission != Emergency && readmission == 0
  {
    Indicator(age > 65) * ELDERLY_WEIGHT
    + Indicator(admission == Emergency) * EMERGENCY_WEIGHT
    + Indicator(readmission == 1) * READMISSION_WEIGHT
  }

  function RiskScore(age: int, admission: AdmissionType, readmission: Bit): (s: real)
    ensures 0.0 <= s <= 1.0
    ensures s == 1.0 <==> age > 65 && admission == Emergency && readmission == 1
    ensures s == 0.0 <==> age <= 65 && admission != Emergency && readmission == 0
  {
    RiskNumerator(age, admission, readmission) as real / RISK_DIVISOR as real
  }

  /**
   * A patient is high-risk exactly when the admission is an emergency and a
   * readmission: 3 + 4 = 7 and 7/9 > 0.7, while every sum without both is at
   * most 6 and 6/9 < 0.7.
   */
  lemma HighRiskIffEmergencyReadmission(age: int, admission: AdmissionType, readmission: Bit)
    ensures RiskScore(age, admission, readmission) > HIGH_RISK_CUTOFF <==> admission == Emergency && readmission == 1
  {
    var n := RiskNumerator(age, admission, readmission);
    assert n == 7 || n == 9 || n <= 6;
  }

  /** For ages that get a band, the `65+` band and the elderly weight agree. */
  lemma ElderlyBandMatchesElderlyWeight(age: int)
    requires 0 < age <= 100
    ensures AgeGroup(age) == Some(Over65) <==> age > 65
  {
  }

  /** An elderly emergency readmission scores the maximum. */
  lemma WorstCaseScoresOne()
    ensures RiskScore(70, Emergency, 1) == 1.0
  {
  }
}
