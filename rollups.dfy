/**
 * app.py:140-144 and 229: the `groupby(...).sum()` fold that both the daily
 * chart and the state map use, and the per-day sums behind the line charts.
 */
module Rollups {
  import opened Wrappers
  import opened Records
  import opened Sequences

  /** The sum of column `c` over the rows that `key` files under `k`: one cell of a `groupby(key).sum()`. */
  function GroupTotal<K(==)>(rows: seq<Row>, key: Row -> Option<K>, k: K, c: Count): int
    requires Coerced(rows)
  {
    if rows == [] then 0
    else (if key(rows[0]) == Some(k) then CountOf(rows[0], c) else 0) + GroupTotal(rows[1..], key, k, c)
  }

  lemma {:induction false} GroupTotalOfAbsentKey<K>(rows: seq<Row>, key: Row -> Option<K>, k: K, c: Count)
    requires Coerced(rows)
    requires forall i :: 0 <= i < |rows| ==> key(rows[i]) != Some(k)
    ensures GroupTotal(rows, key, k, c) == 0
  {
    if rows != [] {
      GroupTotalOfAbsentKey(rows[1..], key, k, c);
    }
  }

  /**
   * `groupby(key).sum()`: one entry per key that some row carries, holding the
   * column sums over that key's rows. Rows without a key (NaN) join no group.
   * `GroupSumsKeys` and `GroupSumsTotals` state what it holds.
   */
  function GroupSums<K(==)>(rows: seq<Row>, key: Row -> Option<K>): map<K, Tally>
    requires Coerced(rows)
  {
    if rows == [] then map[]
    else
      var rest := GroupSums(rows[1..], key);
      match key(rows[0])
      case None => rest
      case Some(k) =>
        if k in rest then rest[k := Measures(rows[0]).Plus(rest[k])] else rest[k := Measures(rows[0])]
  }

  predicate KeyOccurs<K(==)>(rows: seq<Row>, key: Row -> Option<K>, k: K) {
    exists i :: 0 <= i < |rows| && key(rows[i]) == Some(k)
  }

  /** A key occurs in the rows if it is the first row's or occurs in the others. */
  lemma KeyOccursStep<K>(rows: seq<Row>, key: Row -> Option<K>, k: K)
    requires rows != []
    ensures KeyOccurs(rows, key, k) <==> key(rows[0]) == Some(k) || KeyOccurs(rows[1..], key, k)
  {
    if KeyOccurs(rows, key, k) {
      var i :| 0 <= i < |rows| && key(rows[i]) == Some(k);
      if i > 0 {
        assert key(rows[1..][i - 1]) == Some(k);
      }
    }
    if KeyOccurs(rows[1..], key, k) {
      var i :| 0 <= i < |rows[1..]| && key(rows[1..][i]) == Some(k);
      assert key(rows[i + 1]) == Some(k);
    }
  }

  /** The groups are exactly the keys that some row carries. */
  lemma {:induction false} GroupSumsKeys<K>(rows: seq<Row>, key: Row -> Option<K>, k: K)
    requires Coerced(rows)
    ensures k in GroupSums(rows, key) <==> KeyOccurs(rows, key, k)
  {
    if rows != [] {
      GroupSumsKeys(rows[1..], key, k);
      KeyOccursStep(rows, key, k);
    }
  }

  /** Each group holds, for every count column, the sum over the rows filed under its key. */
  lemma {:induction false} GroupSumsTotals<K>(rows: seq<Row>, key: Row -> Option<K>, k: K, c: Count)
    requires Coerced(rows)
    requires k in GroupSums(rows, key)
    ensures GroupSums(rows, key)[k].Get(c) == GroupTotal(rows, key, k, c)
  {
    var rest := GroupSums(rows[1..], key);
    if k in rest {
      GroupSumsTotals(rows[1..], key, k, c);
    } else {
      GroupSumsKeys(rows[1..], key, k);
      GroupTotalOfAbsentKey(rows[1..], key, k, c);
    }
  }

  /** The sums of column `c` over the groups listed in `ks`, added up. */
  function SumOfGroups<K(==)>(rows: seq<Row>, key: Row -> Option<K>, ks: seq<K>, c: Count): int
    requires Coerced(rows)
  {
    if ks == [] then 0 else GroupTotal(rows, key, ks[0], c) + SumOfGroups(rows, key, ks[1..], c)
  }

  /** The sum of column `c` over the rows whose key is one of `ks`. */
  function KeyedTotal<K(==)>(rows: seq<Row>, key: Row -> Option<K>, ks: seq<K>, c: Count): int
    requires Coerced(rows)
  {
    if rows == [] then 0
    else (if key(rows[0]).Some? && key(rows[0]).value in ks then CountOf(rows[0], c) else 0)
         + KeyedTotal(rows[1..], key, ks, c)
  }

  /** The sum of column `c` over the rows that have no key. */
  function UnkeyedTotal<K>(rows: seq<Row>, key: Row -> Option<K>, c: Count): int
    requires Coerced(rows)
  {
    if rows == [] then 0
    else (if key(rows[0]).None? then CountOf(rows[0], c) else 0) + UnkeyedTotal(rows[1..], key, c)
  }

  lemma {:induction false} KeyedTotalSplit<K>(rows: seq<Row>, key: Row -> Option<K>, k: K, ks: seq<K>, c: Count)
    requires Coerced(rows)
    requires k !in ks
    ensures KeyedTotal(rows, key, [k] + ks, c) == GroupTotal(rows, key, k, c) + KeyedTotal(rows, key, ks, c)
  {
    if rows != [] {
      KeyedTotalSplit(rows[1..], key, k, ks, c);
    }
  }

  lemma {:induction false} KeyedTotalNoKeys<K>(rows: seq<Row>, key: Row -> Option<K>, c: Count)
    requires Coerced(rows)
    ensures KeyedTotal(rows, key, [], c) == 0
  {
    if rows != [] {
      KeyedTotalNoKeys(rows[1..], key, c);
    }
  }

  /** Adding up distinct groups counts each row of those groups exactly once. */
  lemma {:induction false} SumOfGroupsIsKeyedTotal<K>(rows: seq<Row>, key: Row -> Option<K>, ks: seq<K>, c: Count)
    requires Coerced(rows)
    requires NoDuplicates(ks)
    ensures SumOfGroups(rows, key, ks, c) == KeyedTotal(rows, key, ks, c)
  {
    if ks == [] {
      KeyedTotalNoKeys(rows, key, c);
    } else {
      SumOfGroupsIsKeyedTotal(rows, key, ks[1..], c);
      KeyedTotalSplit(rows, key, ks[0], ks[1..], c);
      assert [ks[0]] + ks[1..] == ks;
    }
  }

  /** When `ks` lists every key that occurs, each row counts either among the keyed rows or the unkeyed ones. */
  lemma {:induction false} KeyedAndUnkeyed<K>(rows: seq<Row>, key: Row -> Option<K>, ks: seq<K>, c: Count)
    requires Coerced(rows)
    requires forall i :: 0 <= i < |rows| ==> key(rows[i]).None? || key(rows[i]).value in ks
    ensures Total(rows, c) == KeyedTotal(rows, key, ks, c) + UnkeyedTotal(rows, key, c)
  {
    if rows != [] {
      KeyedAndUnkeyed(rows[1..], key, ks, c);
    }
  }

  /** The grouping key of the daily chart, `data['Date'].dt.date`; every row has one. */
  function DateOf(r: Row): Option<Date> {
    Some(r.date)
  }

  /** Rows without a key add nothing when every row has one. */
  lemma {:induction false} UnkeyedTotalAllKeyed<K>(rows: seq<Row>, key: Row -> Option<K>, c: Count)
    requires Coerced(rows)
    requires forall i :: 0 <= i < |rows| ==> key(rows[i]).Some?
    ensures UnkeyedTotal(rows, key, c) == 0
  {
    if rows != [] {
      UnkeyedTotalAllKeyed(rows[1..], key, c);
    }
  }

  lemma {:induction false} UnkeyedTotalNonNegative<K>(rows: seq<Row>, key: Row -> Option<K>, c: Count)
    requires Coerced(rows)
    requires forall i :: 0 <= i < |rows| ==> key(rows[i]).Some? || CountOf(rows[i], c) >= 0
    ensures UnkeyedTotal(rows, key, c) >= 0
  {
    if rows != [] {
      UnkeyedTotalNonNegative(rows[1..], key, c);
    }
  }

  /** One row of `daily_sums`: a date and the sums of the count columns over that date's rows. */
  datatype DaySums = DaySums(date: Date, sums: Tally)

  function Dates(rows: seq<Row>): (ds: seq<Date>)
    ensures |ds| == |rows|
    ensures forall i :: 0 <= i < |rows| ==> ds[i] == rows[i].date
  {
    seq(|rows|, i requires 0 <= i < |rows| => rows[i].date)
  }

  function Tabulate(groups: map<Date, Tally>, ds: seq<Date>): (days: seq<DaySums>)
    requires forall i :: 0 <= i < |ds| ==> ds[i] in groups
    ensures |days| == |ds|
    ensures forall i :: 0 <= i < |ds| ==> days[i] == DaySums(ds[i], groups[ds[i]])
  {
    if ds == [] then [] else [DaySums(ds[0], groups[ds[0]])] + Tabulate(groups, ds[1..])
  }

  /** The dates that occur in `rows`, each once, in ascending order. */
  function AscendingDates(rows: seq<Row>): (ds: seq<Date>)
    ensures Ascending(ds)
    ensures forall d :: d in ds <==> d in Dates(rows)
  {
    SortAscending(Distinct(Dates(rows)))
  }

  /** The date column of `daily_sums`. */
  function DayDates(days: seq<DaySums>): (ds: seq<Date>)
    ensures |ds| == |days|
    ensures forall i :: 0 <= i < |days| ==> ds[i] == days[i].date
  {
    seq(|days|, i requires 0 <= i < |days| => days[i].date)
  }

  /**
   * Lines 140-144: `data.groupby(data['Date'].dt.date)[numerical_columns].sum().reset_index()`,
   * one row per date that occurs, in ascending date order, holding that date's column sums.
   */
  function DailySums(rows: seq<Row>): (days: seq<DaySums>)
    requires Coerced(rows)
    ensures forall i, j :: 0 <= i < j < |days| ==> days[i].date < days[j].date
    ensures forall d :: d in DayDates(days) <==> d in Dates(rows)
    ensures forall i, c :: 0 <= i < |days| ==> days[i].sums.Get(c) == GroupTotal(rows, DateOf, days[i].date, c)
  {
    var groups := GroupSums(rows, DateOf);
    var ds := AscendingDates(rows);
    DatesAreGroups(rows, groups, ds);
    var days := Tabulate(groups, ds);
    assert DayDates(days) == ds;
    days
  }

  /** Every date listed is a key of the date grouping, and that group holds the date's sums. */
  lemma DatesAreGroups(rows: seq<Row>, groups: map<Date, Tally>, ds: seq<Date>)
    requires Coerced(rows)
    requires groups == GroupSums(rows, DateOf)
    requires forall d :: d in ds <==> d in Dates(rows)
    ensures forall i :: 0 <= i < |ds| ==> ds[i] in groups
    ensures forall i, c :: 0 <= i < |ds| ==> groups[ds[i]].Get(c) == GroupTotal(rows, DateOf, ds[i], c)
  {
    forall i | 0 <= i < |ds| ensures ds[i] in groups {
      assert ds[i] in ds;
      var j :| 0 <= j < |rows| && Dates(rows)[j] == ds[i];
      assert DateOf(rows[j]) == Some(ds[i]);
      GroupSumsKeys(rows, DateOf, ds[i]);
    }
    forall i, c | 0 <= i < |ds| ensures groups[ds[i]].Get(c) == GroupTotal(rows, DateOf, ds[i], c) {
      GroupSumsTotals(rows, DateOf, ds[i], c);
    }
  }

  /** The sum of column `c` over the rows of `daily_sums`. */
  function SumDays(days: seq<DaySums>, c: Count): int {
    if days == [] then 0 else days[0].sums.Get(c) + SumDays(days[1..], c)
  }

  lemma {:induction false} SumOfTabulated(rows: seq<Row>, groups: map<Date, Tally>, ds: seq<Date>, c: Count)
    requires Coerced(rows)
    requires forall i :: 0 <= i < |ds| ==> ds[i] in groups && groups[ds[i]].Get(c) == GroupTotal(rows, DateOf, ds[i], c)
    ensures SumDays(Tabulate(groups, ds), c) == SumOfGroups(rows, DateOf, ds, c)
  {
    if ds != [] {
      SumOfTabulated(rows, groups, ds[1..], c);
      assert Tabulate(groups, ds)[1..] == Tabulate(groups, ds[1..]);
    }
  }

  lemma DatesCoverRows(rows: seq<Row>, ds: seq<Date>)
    requires forall d :: d in ds <==> d in Dates(rows)
    ensures forall j :: 0 <= j < |rows| ==> DateOf(rows[j]).None? || DateOf(rows[j]).value in ds
  {
    forall j | 0 <= j < |rows| ensures DateOf(rows[j]).value in ds {
      assert Dates(rows)[j] in Dates(rows);
    }
  }

  /** Adding up any count column of the daily rows gives that column's total over the whole table. */
  lemma DailySumsReconcile(rows: seq<Row>, c: Count)
    requires Coerced(rows)
    ensures SumDays(DailySums(rows), c) == Total(rows, c)
  {
    var groups := GroupSums(rows, DateOf);
    var ds := AscendingDates(rows);
    DatesAreGroups(rows, groups, ds);
    assert DailySums(rows) == Tabulate(groups, ds);
    SumOfTabulated(rows, groups, ds, c);
    SumOfGroupsIsKeyedTotal(rows, DateOf, ds, c);
    DatesCoverRows(rows, ds);
    KeyedAndUnkeyed(rows, DateOf, ds, c);
    UnkeyedTotalAllKeyed(rows, DateOf, c);
  }
}
