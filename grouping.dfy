/**
 * pandas `groupby(...).agg(...)` over `processed_data`: one group per key
 * present in the rows, groups in ascending key order. A group accumulates
 * the count and the sums that the extracts' means are built from.
 *
 * The groups are built by folding the rows into a key-sorted list (AddRow);
 * Tally is the reference reading of a group, the totals over exactly the
 * rows that carry its key.
 */
module Grouping {
  import opened Records
  import opened Transform
  import opened Reductions

  /** A group-by key: a (year, month) pair or a text column. */
  datatype GroupKey = MonthKey(year: int, month: int) | TextKey(text: string)

  /** The three groupings `create_tableau_extracts` uses. */
  datatype KeySelector = ByYearMonth | ByCondition | ByCounty

  function KeyOf(sel: KeySelector, d: Derived): GroupKey
  {
    match sel
    case ByYearMonth => MonthKey(d.year, d.month)
    case ByCondition => TextKey(d.condition)
    case ByCounty => TextKey(d.county)
  }

  /** The kind of key a selector produces. */
  predicate KeyFits(sel: KeySelector, k: GroupKey)
  {
    if sel == ByYearMonth then k.MonthKey? else k.TextKey?
  }

  /** Python's `<` on strings: lexicographic by code point. */
  predicate TextLess(a: string, b: string)
  {
    if a == [] then b != []
    else if b == [] then false
    else a[0] < b[0] || (a[0] == b[0] && TextLess(a[1..], b[1..]))
  }

  lemma {:induction false} TextLessIrreflexive(a: string)
    ensures !TextLess(a, a)
  {
    if a != [] {
      TextLessIrreflexive(a[1..]);
    }
  }

  lemma {:induction false} TextLessTransitive(a: string, b: string, c: string)
    requires TextLess(a, b) && TextLess(b, c)
    ensures TextLess(a, c)
  {
    if a != [] && a[0] == b[0] && b[0] == c[0] {
      TextLessTransitive(a[1..], b[1..], c[1..]);
    }
  }

  lemma {:induction false} TextLessTotal(a: string, b: string)
    requires a != b
    ensures TextLess(a, b) || TextLess(b, a)
  {
    if a != [] && b != [] && a[0] == b[0] {
      assert a == [a[0]] + a[1..] && b == [b[0]] + b[1..];
      TextLessTotal(a[1..], b[1..]);
    }
  }

  /** The order in which `groupby` emits its groups: tuples and strings ascending. */
  predicate KeyLess(a: GroupKey, b: GroupKey)
  {
    match (a, b)
    case (MonthKey(y1, m1), MonthKey(y2, m2)) => y1 < y2 || (y1 == y2 && m1 < m2)
    case (TextKey(s), TextKey(t)) => TextLess(s, t)
    case (MonthKey(_, _), TextKey(_)) => true
    case (TextKey(_), MonthKey(_, _)) => false
  }

  lemma KeyLessIrreflexive(a: GroupKey)
    ensures !KeyLess(a, a)
  {
    if a.TextKey? {
      TextLessIrreflexive(a.text);
    }
  }

  lemma KeyLessTransitive(a: GroupKey, b: GroupKey, c: GroupKey)
    requires KeyLess(a, b) && KeyLess(b, c)
    ensures KeyLess(a, c)
  {
    if a.TextKey? && b.TextKey? && c.TextKey? {
      TextLessTransitive(a.text, b.text, c.text);
    }
  }

  lemma KeyLessTotal(a: GroupKey, b: GroupKey)
    requires a != b
    ensures KeyLess(a, b) || KeyLess(b, a)
  {
    if a.TextKey? && b.TextKey? {
      TextLessTotal(a.text, b.text);
    }
  }

  /** The accumulated aggregates of one group. */
  datatype Group = Group(key: GroupKey, count: nat, costSum: real, losSum: real, readmissions: nat)

  function Empty(k: GroupKey): Group
  {
    Group(k, 0, 0.0, 0.0, 0)
  }

  /** A group with one more row added. */
  function Bump(g: Group, d: Derived): Group
  {
    Group(g.key, g.count + 1, g.costSum + d.totalCost, g.losSum + d.lengthOfStay, g.readmissions + d.readmission)
  }

  /** Reference: the aggregates over exactly the rows whose key is k. */
  function Tally(ds: seq<Derived>, sel: KeySelector, k: GroupKey): (g: Group)
    ensures g.key == k && g.readmissions <= g.count
  {
    if ds == [] then Empty(k)
    else
      var rest := Tally(ds[1..], sel, k);
      if KeyOf(sel, ds[0]) == k then Bump(rest, ds[0]) else rest
  }

  /** The keys present in the rows. */
  function KeysPresent(ds: seq<Derived>, sel: KeySelector): (ks: set<GroupKey>)
    ensures forall i :: 0 <= i < |ds| ==> KeyOf(sel, ds[i]) in ks
  {
    if ds == [] then {}
    else
      var rest := KeysPresent(ds[1..], sel);
      assert forall i :: 1 <= i < |ds| ==> KeyOf(sel, ds[i]) == KeyOf(sel, ds[1..][i - 1]);
      {KeyOf(sel, ds[0])} + rest
  }

  /** Every key present has the kind its selector produces. */
  lemma {:induction false} KeysPresentFit(ds: seq<Derived>, sel: KeySelector, k: GroupKey)
    requires k in KeysPresent(ds, sel)
    ensures KeyFits(sel, k)
  {
    if KeyOf(sel, ds[0]) != k {
      KeysPresentFit(ds[1..], sel, k);
    }
  }

  /** A key that no row carries has an empty tally. */
  lemma {:induction false} TallyAbsent(ds: seq<Derived>, sel: KeySelector, k: GroupKey)
    requires k !in KeysPresent(ds, sel)
    ensures Tally(ds, sel, k) == Empty(k)
  {
    if ds != [] {
      TallyAbsent(ds[1..], sel, k);
    }
  }

  /** A key that some row carries has a tally of at least one row. */
  lemma {:induction false} TallyPresent(ds: seq<Derived>, sel: KeySelector, k: GroupKey)
    requires k in KeysPresent(ds, sel)
    ensures Tally(ds, sel, k).count >= 1
  {
    if KeyOf(sel, ds[0]) != k {
      TallyPresent(ds[1..], sel, k);
    }
  }

  /** The keys of a list of groups. */
  function Keys(gs: seq<Group>): (ks: set<GroupKey>)
    ensures forall i :: 0 <= i < |gs| ==> gs[i].key in ks
  {
    if gs == [] then {}
    else
      var rest := Keys(gs[1..]);
      assert forall i :: 1 <= i < |gs| ==> gs[i].key == gs[1..][i - 1].key;
      {gs[0].key} + rest
  }

  predicate StrictlyAscending(gs: seq<Group>)
  {
    forall i, j :: 0 <= i < j < |gs| ==> KeyLess(gs[i].key, gs[j].key)
  }

  /** Every group holds at least one row, and no more readmissions than rows. */
  predicate NonEmptyGroups(gs: seq<Group>)
  {
    forall i :: 0 <= i < |gs| ==> 1 <= gs[i].count && gs[i].readmissions <= gs[i].count
  }

  function SumCounts(gs: seq<Group>): nat
  {
    if gs == [] then 0 else gs[0].count + SumCounts(gs[1..])
  }

  function SumCostSums(gs: seq<Group>): real
  {
    if gs == [] then 0.0 else gs[0].costSum + SumCostSums(gs[1..])
  }

  /** The group of key k in a list of groups, or an empty one. */
  function Lookup(gs: seq<Group>, k: GroupKey): Group
  {
    if gs == [] then Empty(k) else if gs[0].key == k then gs[0] else Lookup(gs[1..], k)
  }

  /**
   * One row folded into key-sorted groups: its group is bumped, or a new
   * group is inserted at its place in key order.
   */
  function AddRow(gs: seq<Group>, k: GroupKey, d: Derived): (r: seq<Group>)
    requires StrictlyAscending(gs) && NonEmptyGroups(gs)
    ensures StrictlyAscending(r) && NonEmptyGroups(r)
    ensures Keys(r) == Keys(gs) + {k}
    ensures SumCounts(r) == SumCounts(gs) + 1
    ensures SumCostSums(r) == SumCostSums(gs) + d.totalCost
    ensures r[0].key == if gs == [] || KeyLess(k, gs[0].key) then k else gs[0].key
  {
    if gs == [] then [Bump(Empty(k), d)]
    else if gs[0].key == k then
      assert Keys(gs) == Keys(gs[1..]) + {k};
      [Bump(gs[0], d)] + gs[1..]
    else if KeyLess(k, gs[0].key) then
      forall j | 0 <= j < |gs|
        ensures KeyLess(k, gs[j].key)
      {
        if j > 0 {
          KeyLessTransitive(k, gs[0].key, gs[j].key);
        }
      }
      [Bump(Empty(k), d)] + gs
    else
      KeyLessTotal(k, gs[0].key);
      var rest := AddRow(gs[1..], k, d);
      forall j | 0 <= j < |rest|
        ensures KeyLess(gs[0].key, rest[j].key)
      {
        assert KeyLess(gs[0].key, rest[0].key);
        if j > 0 {
          KeyLessTransitive(gs[0].key, rest[0].key, rest[j].key);
        }
      }
      assert Keys(gs) == Keys(gs[1..]) + {gs[0].key};
      [gs[0]] + rest
  }

  /** Folding a row changes the group of its key only, by exactly that row. */
  lemma {:induction false} LookupAddRow(gs: seq<Group>, k: GroupKey, d: Derived, k': GroupKey)
    requires StrictlyAscending(gs) && NonEmptyGroups(gs)
    ensures Lookup(AddRow(gs, k, d), k') == if k' == k then Bump(Lookup(gs, k), d) else Lookup(gs, k')
  {
    if gs == [] {
    } else if gs[0].key == k {
    } else if KeyLess(k, gs[0].key) {
      if k' == k {
        forall j | 0 <= j < |gs|
          ensures gs[j].key != k
        {
          if j > 0 {
            KeyLessTransitive(k, gs[0].key, gs[j].key);
          }
          KeyLessIrreflexive(k);
        }
        LookupMissing(gs, k);
      }
    } else {
      LookupAddRow(gs[1..], k, d, k');
    }
  }

  lemma {:induction false} LookupMissing(gs: seq<Group>, k: GroupKey)
    requires forall j :: 0 <= j < |gs| ==> gs[j].key != k
    ensures Lookup(gs, k) == Empty(k)
  {
    if gs != [] {
      LookupMissing(gs[1..], k);
    }
  }

  /** In a list of distinct keys, looking up a group's key finds that group. */
  lemma {:induction false} LookupAt(gs: seq<Group>, i: int)
    requires StrictlyAscending(gs) && 0 <= i < |gs|
    ensures Lookup(gs, gs[i].key) == gs[i]
  {
    if i > 0 {
      KeyLessIrreflexive(gs[0].key);
      assert gs[0].key != gs[i].key;
      LookupAt(gs[1..], i - 1);
    }
  }

  /** `df.groupby(key)`: the rows folded into key-sorted groups. */
  function GroupAll(ds: seq<Derived>, sel: KeySelector): (gs: seq<Group>)
    ensures StrictlyAscending(gs) && NonEmptyGroups(gs)
    ensures Keys(gs) == KeysPresent(ds, sel)
    ensures SumCounts(gs) == |ds|
    ensures SumCostSums(gs) == SumCost(ds)
  {
    if ds == [] then []
    else AddRow(GroupAll(ds[1..], sel), KeyOf(sel, ds[0]), ds[0])
  }

  /** Every key's group in GroupAll is that key's reference tally. */
  lemma {:induction false} GroupAllLookup(ds: seq<Derived>, sel: KeySelector, k: GroupKey)
    ensures Lookup(GroupAll(ds, sel), k) == Tally(ds, sel, k)
  {
    if ds != [] {
      GroupAllLookup(ds[1..], sel, k);
      LookupAddRow(GroupAll(ds[1..], sel), KeyOf(sel, ds[0]), ds[0], k);
    } else {
      assert Lookup([], k) == Empty(k);
    }
  }

  /** A row that carries a key present in the rows. */
  lemma {:induction false} RowWithKey(ds: seq<Derived>, sel: KeySelector, k: GroupKey) returns (j: int)
    requires k in KeysPresent(ds, sel)
    ensures 0 <= j < |ds| && KeyOf(sel, ds[j]) == k
  {
    if KeyOf(sel, ds[0]) == k {
      j := 0;
    } else {
      j := RowWithKey(ds[1..], sel, k);
      j := j + 1;
    }
  }

  /** The group that carries a key of a list of groups. */
  lemma {:induction false} GroupWithKey(gs: seq<Group>, k: GroupKey) returns (i: int)
    requires k in Keys(gs)
    ensures 0 <= i < |gs| && gs[i].key == k
  {
    if gs[0].key == k {
      i := 0;
    } else {
      i := GroupWithKey(gs[1..], k);
      i := i + 1;
    }
  }

  /**
   * The grouping, fully: groups in strictly ascending key order, one per key
   * present in the rows and no other, each equal to the totals over exactly
   * the rows with its key; counts add up to the number of rows and cost sums
   * to the total cost.
   */
  lemma GroupAllSpec(ds: seq<Derived>, sel: KeySelector)
    ensures var gs := GroupAll(ds, sel);
      && StrictlyAscending(gs)
      && (forall i :: 0 <= i < |gs| ==> gs[i] == Tally(ds, sel, gs[i].key) && gs[i].count >= 1)
      && (forall i :: 0 <= i < |gs| ==> KeyFits(sel, gs[i].key))
      && Keys(gs) == KeysPresent(ds, sel)
      && SumCounts(gs) == |ds|
      && SumCostSums(gs) == SumCost(ds)
  {
    var gs := GroupAll(ds, sel);
    forall i | 0 <= i < |gs|
      ensures gs[i] == Tally(ds, sel, gs[i].key) && KeyFits(sel, gs[i].key)
    {
      LookupAt(gs, i);
      GroupAllLookup(ds, sel, gs[i].key);
      KeysPresentFit(ds, sel, gs[i].key);
    }
  }
}
