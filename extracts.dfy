/**
 * `create_tableau_extracts`: three group-by tables over `processed_data`
 * with fixed columns.
 *   overview   (Year, Month, Admissions, Total_Cost, Avg_LOS, Readmission_Rate)
 *   conditions (Condition, Count, Avg_Cost, Avg_LOS, Readmission_Rate)
 *   regional   (County, Admissions, Total_Cost, Readmission_Rate)
 */
module Extracts {
  import opened Transform
  import opened Reductions
  import opened Grouping

  datatype OverviewRow = OverviewRow(
    year: int, month: int, admissions: nat, totalCost: real, avgLos: real, readmissionRate: real)

  datatype ConditionRow = ConditionRow(
    condition: string, count: nat, avgCost: real, avgLos: real, readmissionRate: real)

  datatype RegionalRow = RegionalRow(
    county: string, admissions: nat, totalCost: real, readmissionRate: real)

  datatype TableauExtracts = TableauExtracts(
    overview: seq<OverviewRow>, conditions: seq<ConditionRow>, regional: seq<RegionalRow>)

  /** The per-group mean of a column sum; groups are never empty. */
  function GroupMean(sum: real, count: nat): real
    requires count >= 1
  {
    sum / count as real
  }

  /** The share of a group's rows that are readmissions. */
  function Rate(readmissions: nat, count: nat): real
    requires count >= 1
  {
    readmissions as real / count as real
  }

  lemma RateFacts(readmissions: nat, count: nat)
    requires 1 <= count && readmissions <= count
    ensures 0.0 <= Rate(readmissions, count) <= 1.0
    ensures Rate(readmissions, count) * count as real == readmissions as real
  {
    RateInUnitInterval(readmissions, count);
  }

  function OverviewRowOf(g: Group): OverviewRow
    requires g.key.MonthKey? && g.count >= 1
  {
    OverviewRow(g.key.year, g.key.month, g.count, g.costSum,
                GroupMean(g.losSum, g.count), Rate(g.readmissions, g.count))
  }

  function ConditionRowOf(g: Group): ConditionRow
    requires g.key.TextKey? && g.count >= 1
  {
    ConditionRow(g.key.text, g.count, GroupMean(g.costSum, g.count),
                 GroupMean(g.losSum, g.count), Rate(g.readmissions, g.count))
  }

  function RegionalRowOf(g: Group): RegionalRow
    requires g.key.TextKey? && g.count >= 1
  {
    RegionalRow(g.key.text, g.count, g.costSum, Rate(g.readmissions, g.count))
  }

  function OverviewRows(gs: seq<Group>): (rows: seq<OverviewRow>)
    requires NonEmptyGroups(gs) && forall i :: 0 <= i < |gs| ==> gs[i].key.MonthKey?
    ensures |rows| == |gs|
    ensures forall i :: 0 <= i < |gs| ==> rows[i] == OverviewRowOf(gs[i])
  {
    if gs == [] then [] else [OverviewRowOf(gs[0])] + OverviewRows(gs[1..])
  }

  function ConditionRows(gs: seq<Group>): (rows: seq<ConditionRow>)
    requires NonEmptyGroups(gs) && forall i :: 0 <= i < |gs| ==> gs[i].key.TextKey?
    ensures |rows| == |gs|
    ensures forall i :: 0 <= i < |gs| ==> rows[i] == ConditionRowOf(gs[i])
  {
    if gs == [] then [] else [ConditionRowOf(gs[0])] + ConditionRows(gs[1..])
  }

  function RegionalRows(gs: seq<Group>): (rows: seq<RegionalRow>)
    requires NonEmptyGroups(gs) && forall i :: 0 <= i < |gs| ==> gs[i].key.TextKey?
    ensures |rows| == |gs|
    ensures forall i :: 0 <= i < |gs| ==> rows[i] == RegionalRowOf(gs[i])
  {
    if gs == [] then [] else [RegionalRowOf(gs[0])] + RegionalRows(gs[1..])
  }

  /**
   * The overview table: every row holds at least one admission, and the
   * admissions add up to the number of records and Total_Cost to the
   * overall cost.
   */
  function Overview(ds: seq<Derived>): (rows: seq<OverviewRow>)
    ensures forall i :: 0 <= i < |rows| ==> rows[i].admissions >= 1
    ensures SumOverviewAdmissions(rows) == |ds|
    ensures SumOverviewCost(rows) == SumCost(ds)
  {
    var gs := GroupAll(ds, ByYearMonth);
    GroupAllSpec(ds, ByYearMonth);
    OverviewSums(gs);
    OverviewRows(gs)
  }

  /**
   * The conditions table: every row counts at least one record, and the
   * counts add up to the number of records.
   */
  function Conditions(ds: seq<Derived>): (rows: seq<ConditionRow>)
    ensures forall i :: 0 <= i < |rows| ==> rows[i].count >= 1
    ensures SumConditionCounts(rows) == |ds|
  {
    var gs := GroupAll(ds, ByCondition);
    GroupAllSpec(ds, ByCondition);
    ConditionSums(gs);
    ConditionRows(gs)
  }

  /**
   * The regional table: every row holds at least one admission, and the
   * admissions add up to the number of records and Total_Cost to the
   * overall cost.
   */
  function Regional(ds: seq<Derived>): (rows: seq<RegionalRow>)
    ensures forall i :: 0 <= i < |rows| ==> rows[i].admissions >= 1
    ensures SumRegionalAdmissions(rows) == |ds|
    ensures SumRegionalCost(rows) == SumCost(ds)
  {
    var gs := GroupAll(ds, ByCounty);
    GroupAllSpec(ds, ByCounty);
    RegionalSums(gs);
    RegionalRows(gs)
  }

  /**
   * The dictionary `create_tableau_extracts` returns. The three tables
   * account for the same records: each counts every record once, and the
   * two cost columns agree on the overall cost.
   */
  function BuildExtracts(ds: seq<Derived>): (e: TableauExtracts)
    ensures SumOverviewAdmissions(e.overview) == SumConditionCounts(e.conditions) == |ds|
    ensures SumRegionalAdmissions(e.regional) == |ds|
    ensures SumOverviewCost(e.overview) == SumRegionalCost(e.regional) == SumCost(ds)
  {
    TableauExtracts(Overview(ds), Conditions(ds), Regional(ds))
  }

  function SumOverviewAdmissions(rows: seq<OverviewRow>): nat
  {
    if rows == [] then 0 else rows[0].admissions + SumOverviewAdmissions(rows[1..])
  }

  function SumOverviewCost(rows: seq<OverviewRow>): real
  {
    if rows == [] then 0.0 else rows[0].totalCost + SumOverviewCost(rows[1..])
  }

  function SumConditionCounts(rows: seq<ConditionRow>): nat
  {
    if rows == [] then 0 else rows[0].count + SumConditionCounts(rows[1..])
  }

  function SumRegionalAdmissions(rows: seq<RegionalRow>): nat
  {
    if rows == [] then 0 else rows[0].admissions + SumRegionalAdmissions(rows[1..])
  }

  function SumRegionalCost(rows: seq<RegionalRow>): real
  {
    if rows == [] then 0.0 else rows[0].totalCost + SumRegionalCost(rows[1..])
  }

  lemma {:induction false} OverviewSums(gs: seq<Group>)
    requires NonEmptyGroups(gs) && forall i :: 0 <= i < |gs| ==> gs[i].key.MonthKey?
    ensures SumOverviewAdmissions(OverviewRows(gs)) == SumCounts(gs)
    ensures SumOverviewCost(OverviewRows(gs)) == SumCostSums(gs)
  {
    if gs != [] {
      assert OverviewRows(gs)[1..] == OverviewRows(gs[1..]);
      OverviewSums(gs[1..]);
    }
  }

  lemma {:induction false} ConditionSums(gs: seq<Group>)
    requires NonEmptyGroups(gs) && forall i :: 0 <= i < |gs| ==> gs[i].key.TextKey?
    ensures SumConditionCounts(ConditionRows(gs)) == SumCounts(gs)
  {
    if gs != [] {
      assert ConditionRows(gs)[1..] == ConditionRows(gs[1..]);
      ConditionSums(gs[1..]);
    }
  }

  lemma {:induction false} RegionalSums(gs: seq<Group>)
    requires NonEmptyGroups(gs) && forall i :: 0 <= i < |gs| ==> gs[i].key.TextKey?
    ensures SumRegionalAdmissions(RegionalRows(gs)) == SumCounts(gs)
    ensures SumRegionalCost(RegionalRows(gs)) == SumCostSums(gs)
  {
    if gs != [] {
      assert RegionalRows(gs)[1..] == RegionalRows(gs[1..]);
      RegionalSums(gs[1..]);
    }
  }

  /** The (year, month) pairs of the overview rows. */
  function OverviewMonths(ov: seq<OverviewRow>): set<(int, int)>
  {
    set i | 0 <= i < |ov| :: (ov[i].year, ov[i].month)
  }

  /** The (year, month) pairs of the records. */
  function RecordMonths(ds: seq<Derived>): set<(int, int)>
  {
    set j | 0 <= j < |ds| :: (ds[j].year, ds[j].month)
  }

  function ConditionNames(cs: seq<ConditionRow>): set<string>
  {
    set i | 0 <= i < |cs| :: cs[i].condition
  }

  function RecordConditions(ds: seq<Derived>): set<string>
  {
    set j | 0 <= j < |ds| :: ds[j].condition
  }

  function RegionalCounties(rs: seq<RegionalRow>): set<string>
  {
    set i | 0 <= i < |rs| :: rs[i].county
  }

  function RecordCounties(ds: seq<Derived>): set<string>
  {
    set j | 0 <= j < |ds| :: ds[j].county
  }

  /** (year, month) tuples compared as pandas sorts them. */
  predicate YearMonthLess(y1: int, m1: int, y2: int, m2: int)
  {
    y1 < y2 || (y1 == y2 && m1 < m2)
  }

  /**
   * The overview extract has one row per (year, month) present in the
   * records and no other, in strictly ascending (year, month) order.
   */
  lemma OverviewKeys(ds: seq<Derived>)
    ensures var ov := Overview(ds);
      && (forall i, j :: 0 <= i < j < |ov| ==>
            YearMonthLess(ov[i].year, ov[i].month, ov[j].year, ov[j].month))
      && OverviewMonths(ov) == RecordMonths(ds)
  {
    var gs := GroupAll(ds, ByYearMonth);
    GroupAllSpec(ds, ByYearMonth);
    var ov := OverviewRows(gs);
    assert ov == Overview(ds);
    var rowKeys, dataKeys := OverviewMonths(ov), RecordMonths(ds);
    forall x | x in rowKeys
      ensures x in dataKeys
    {
      var i :| 0 <= i < |ov| && (ov[i].year, ov[i].month) == x;
      var j := RowWithKey(ds, ByYearMonth, gs[i].key);
      assert (ds[j].year, ds[j].month) == x;
    }
    forall x | x in dataKeys
      ensures x in rowKeys
    {
      var j :| 0 <= j < |ds| && (ds[j].year, ds[j].month) == x;
      var i := GroupWithKey(gs, KeyOf(ByYearMonth, ds[j]));
      assert (ov[i].year, ov[i].month) == x;
    }
    forall i, j | 0 <= i < j < |ov|
      ensures YearMonthLess(ov[i].year, ov[i].month, ov[j].year, ov[j].month)
    {
      assert KeyLess(gs[i].key, gs[j].key);
    }
  }

  /**
   * Each overview row holds the aggregates of exactly the records of its
   * month: Admissions is their number (at least one), Total_Cost their cost
   * sum, Avg_LOS their mean stay and Readmission_Rate, within [0, 1], their
   * share of readmissions.
   */
  lemma OverviewRowsAreTallies(ds: seq<Derived>)
    ensures var ov := Overview(ds);
      forall i :: 0 <= i < |ov| ==>
        var t := Tally(ds, ByYearMonth, MonthKey(ov[i].year, ov[i].month));
        && ov[i].admissions == t.count >= 1
        && ov[i].totalCost == t.costSum
        && ov[i].avgLos == t.losSum / t.count as real
        && ov[i].readmissionRate == t.readmissions as real / t.count as real
        && 0.0 <= ov[i].readmissionRate <= 1.0
  {
    var gs := GroupAll(ds, ByYearMonth);
    GroupAllSpec(ds, ByYearMonth);
    var ov := OverviewRows(gs);
    assert ov == Overview(ds);
    forall i | 0 <= i < |ov|
      ensures var t := Tally(ds, ByYearMonth, MonthKey(ov[i].year, ov[i].month));
        && ov[i].admissions == t.count >= 1
        && ov[i].totalCost == t.costSum
        && ov[i].avgLos == t.losSum / t.count as real
        && ov[i].readmissionRate == t.readmissions as real / t.count as real
        && 0.0 <= ov[i].readmissionRate <= 1.0
    {
      var g := gs[i];
      assert g == Tally(ds, ByYearMonth, g.key);
      assert g.key == MonthKey(ov[i].year, ov[i].month);
      RateFacts(g.readmissions, g.count);
    }
  }

  /**
   * The conditions extract has one row per condition present in the records
   * and no other, conditions strictly ascending.
   */
  lemma ConditionsKeys(ds: seq<Derived>)
    ensures var cs := Conditions(ds);
      && (forall i, j :: 0 <= i < j < |cs| ==> TextLess(cs[i].condition, cs[j].condition))
      && ConditionNames(cs) == RecordConditions(ds)
  {
    var gs := GroupAll(ds, ByCondition);
    GroupAllSpec(ds, ByCondition);
    var cs := ConditionRows(gs);
    assert cs == Conditions(ds);
    var rowKeys, dataKeys := ConditionNames(cs), RecordConditions(ds);
    forall x | x in rowKeys
      ensures x in dataKeys
    {
      var i :| 0 <= i < |cs| && cs[i].condition == x;
      var j := RowWithKey(ds, ByCondition, gs[i].key);
      assert ds[j].condition == x;
    }
    forall x | x in dataKeys
      ensures x in rowKeys
    {
      var j :| 0 <= j < |ds| && ds[j].condition == x;
      var i := GroupWithKey(gs, KeyOf(ByCondition, ds[j]));
      assert cs[i].condition == x;
    }
    forall i, j | 0 <= i < j < |cs|
      ensures TextLess(cs[i].condition, cs[j].condition)
    {
      assert KeyLess(gs[i].key, gs[j].key);
    }
  }

  /**
   * Each conditions row holds the aggregates of exactly the records of its
   * condition: Count (at least one), and Avg_Cost, Avg_LOS and
   * Readmission_Rate as their sums over Count, the rate within [0, 1].
   */
  lemma ConditionRowsAreTallies(ds: seq<Derived>)
    ensures var cs := Conditions(ds);
      forall i :: 0 <= i < |cs| ==>
        var t := Tally(ds, ByCondition, TextKey(cs[i].condition));
        && cs[i].count == t.count >= 1
        && cs[i].avgCost == t.costSum / t.count as real
        && cs[i].avgLos == t.losSum / t.count as real
        && cs[i].readmissionRate == t.readmissions as real / t.count as real
        && 0.0 <= cs[i].readmissionRate <= 1.0
  {
    var gs := GroupAll(ds, ByCondition);
    GroupAllSpec(ds, ByCondition);
    var cs := ConditionRows(gs);
    assert cs == Conditions(ds);
    forall i | 0 <= i < |cs|
      ensures var t := Tally(ds, ByCondition, TextKey(cs[i].condition));
        && cs[i].count == t.count >= 1
        && cs[i].avgCost == t.costSum / t.count as real
        && cs[i].avgLos == t.losSum / t.count as real
        && cs[i].readmissionRate == t.readmissions as real / t.count as real
        && 0.0 <= cs[i].readmissionRate <= 1.0
    {
      var g := gs[i];
      assert g == Tally(ds, ByCondition, g.key);
      assert g.key == TextKey(cs[i].condition);
      RateFacts(g.readmissions, g.count);
    }
  }

  /**
   * The regional extract has one row per county present in the records and
   * no other, counties strictly ascending.
   */
  lemma RegionalKeys(ds: seq<Derived>)
    ensures var rs := Regional(ds);
      && (forall i, j :: 0 <= i < j < |rs| ==> TextLess(rs[i].county, rs[j].county))
      && RegionalCounties(rs) == RecordCounties(ds)
  {
    var gs := GroupAll(ds, ByCounty);
    GroupAllSpec(ds, ByCounty);
    var rs := RegionalRows(gs);
    assert rs == Regional(ds);
    var rowKeys, dataKeys := RegionalCounties(rs), RecordCounties(ds);
    forall x | x in rowKeys
      ensures x in dataKeys
    {
      var i :| 0 <= i < |rs| && rs[i].county == x;
      var j := RowWithKey(ds, ByCounty, gs[i].key);
      assert ds[j].county == x;
    }
    forall x | x in dataKeys
      ensures x in rowKeys
    {
      var j :| 0 <= j < |ds| && ds[j].county == x;
      var i := GroupWithKey(gs, KeyOf(ByCounty, ds[j]));
      assert rs[i].county == x;
    }
    forall i, j | 0 <= i < j < |rs|
      ensures TextLess(rs[i].county, rs[j].county)
    {
      assert KeyLess(gs[i].key, gs[j].key);
    }
  }

  /**
   * Each regional row holds the aggregates of exactly the records of its
   * county: Admissions (at least one), Total_Cost, and Readmission_Rate
   * within [0, 1].
   */
  lemma RegionalRowsAreTallies(ds: seq<Derived>)
    ensures var rs := Regional(ds);
      forall i :: 0 <= i < |rs| ==>
        var t := Tally(ds, ByCounty, TextKey(rs[i].county));
        && rs[i].admissions == t.count >= 1
        && rs[i].totalCost == t.costSum
        && rs[i].readmissionRate == t.readmissions as real / t.count as real
        && 0.0 <= rs[i].readmissionRate <= 1.0
  {
    var gs := GroupAll(ds, ByCounty);
    GroupAllSpec(ds, ByCounty);
    var rs := RegionalRows(gs);
    assert rs == Regional(ds);
    forall i | 0 <= i < |rs|
      ensures var t := Tally(ds, ByCounty, TextKey(rs[i].county));
        && rs[i].admissions == t.count >= 1
        && rs[i].totalCost == t.costSum
        && rs[i].readmissionRate == t.readmissions as real / t.count as real
        && 0.0 <= rs[i].readmissionRate <= 1.0
    {
      var g := gs[i];
      assert g == Tally(ds, ByCounty, g.key);
      assert g.key == TextKey(rs[i].county);
      RateFacts(g.readmissions, g.count);
    }
  }
}
