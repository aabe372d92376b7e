/**
 * The state rollup of lines 226-229 of app.py: the `State_Abbreviation` column that a
 * name-to-abbreviation dict gives each row, and the per-abbreviation sums of `Appts` that feed
 * the choropleth. The dict is a parameter here; `AbbreviationTable` says what the rollup needs
 * of it, and `StateTable.TableValuesListed` shows that `state_abbreviations` has it.
 */
module States {
  import opened Wrappers
  import opened Sequences
  import opened Records
  import opened Rollups

  /** Every value of `table` is one of `abbreviations`, which are distinct. */
  predicate AbbreviationTable(table: map<string, string>, abbreviations: seq<string>) {
    NoDuplicates(abbreviations) &&
    forall name :: name in table ==> table[name] in abbreviations
  }

  /** One cell of line 227, `data['State_Name'].map(table)`: missing (NaN) for a name not in `table`. */
  function AbbreviationOf(table: map<string, string>, r: Row): (abbreviation: Option<string>)
    ensures abbreviation.Some? <==> r.stateName in table
    ensures abbreviation.Some? ==> abbreviation.value == table[r.stateName]
  {
    if r.stateName in table then Some(table[r.stateName]) else None
  }

  /** The `State_Abbreviation` column as the grouping key of line 229. */
  function StateKey(table: map<string, string>): Row -> Option<string> {
    r => AbbreviationOf(table, r)
  }

  /** The groups of line 229 are the abbreviations that some row's state name maps to. */
  lemma StateGroups(table: map<string, string>, rows: seq<Row>)
    requires Coerced(rows)
    ensures forall a :: a in GroupSums(rows, StateKey(table)) <==>
      exists i :: 0 <= i < |rows| && rows[i].stateName in table && table[rows[i].stateName] == a
    ensures forall a :: a in GroupSums(rows, StateKey(table)) ==>
      GroupSums(rows, StateKey(table))[a].Get(Appts) == GroupTotal(rows, StateKey(table), a, Appts)
  {
    forall a ensures a in GroupSums(rows, StateKey(table)) <==>
      exists i :: 0 <= i < |rows| && rows[i].stateName in table && table[rows[i].stateName] == a
    {
      GroupSumsKeys(rows, StateKey(table), a);
    }
    forall a | a in GroupSums(rows, StateKey(table))
      ensures GroupSums(rows, StateKey(table))[a].Get(Appts) == GroupTotal(rows, StateKey(table), a, Appts)
    {
      GroupSumsTotals(rows, StateKey(table), a, Appts);
    }
  }

  /**
   * Line 229: `data.groupby('State_Abbreviation').agg({'Appts': 'sum'})`. Rows whose abbreviation is
   * missing are dropped by the grouping; every abbreviation that occurs gets its rows' `Appts` sum.
   */
  function StateAppts(table: map<string, string>, rows: seq<Row>): (aggregated: map<string, int>)
    requires Coerced(rows)
    ensures forall a :: a in aggregated <==>
      exists i :: 0 <= i < |rows| && rows[i].stateName in table && table[rows[i].stateName] == a
    ensures forall a :: a in aggregated ==> aggregated[a] == GroupTotal(rows, StateKey(table), a, Appts)
  {
    var groups := GroupSums(rows, StateKey(table));
    StateGroups(table, rows);
    map a | a in groups :: groups[a].Get(Appts)
  }

  /** The `Appts` column of the aggregate, added up over the abbreviations listed in `keys`. */
  function SumOver(aggregated: map<string, int>, keys: seq<string>): int {
    if keys == [] then 0
    else (if keys[0] in aggregated then aggregated[keys[0]] else 0) + SumOver(aggregated, keys[1..])
  }

  lemma {:induction false} SumOverIsSumOfGroups(table: map<string, string>, rows: seq<Row>, keys: seq<string>)
    requires Coerced(rows)
    ensures SumOver(StateAppts(table, rows), keys) == SumOfGroups(rows, StateKey(table), keys, Appts)
  {
    if keys != [] {
      SumOverIsSumOfGroups(table, rows, keys[1..]);
      if keys[0] !in StateAppts(table, rows) {
        GroupTotalOfAbsentKey(rows, StateKey(table), keys[0], Appts);
      }
    }
  }

  /**
   * The state aggregate's `Appts` column, summed over the table's abbreviations, plus the `Appts`
   * of the rows whose state name is not in the table, is exactly the overall total of line 104.
   */
  lemma StateRollupAccountsForEveryRow(table: map<string, string>, abbreviations: seq<string>, rows: seq<Row>)
    requires Coerced(rows)
    requires AbbreviationTable(table, abbreviations)
    ensures SumOver(StateAppts(table, rows), abbreviations) + UnkeyedTotal(rows, StateKey(table), Appts)
            == Total(rows, Appts)
  {
    SumOverIsSumOfGroups(table, rows, abbreviations);
    SumOfGroupsIsKeyedTotal(rows, StateKey(table), abbreviations, Appts);
    KeyedAndUnkeyed(rows, StateKey(table), abbreviations, Appts);
  }

  /** With no negative `Appts` among the unmapped rows, the state aggregate never exceeds the total. */
  lemma StateRollupBounded(table: map<string, string>, abbreviations: seq<string>, rows: seq<Row>)
    requires Coerced(rows)
    requires AbbreviationTable(table, abbreviations)
    requires forall i :: 0 <= i < |rows| ==> rows[i].stateName in table || rows[i].appts.n >= 0
    ensures SumOver(StateAppts(table, rows), abbreviations) <= Total(rows, Appts)
  {
    StateRollupAccountsForEveryRow(table, abbreviations, rows);
    UnkeyedTotalNonNegative(rows, StateKey(table), Appts);
  }

  /** When every state name is in the table, the state aggregate equals the total. */
  lemma StateRollupExact(table: map<string, string>, abbreviations: seq<string>, rows: seq<Row>)
    requires Coerced(rows)
    requires AbbreviationTable(table, abbreviations)
    requires forall i :: 0 <= i < |rows| ==> rows[i].stateName in table
    ensures SumOver(StateAppts(table, rows), abbreviations) == Total(rows, Appts)
  {
    StateRollupAccountsForEveryRow(table, abbreviations, rows);
    UnkeyedTotalAllKeyed(rows, StateKey(table), Appts);
  }
}
