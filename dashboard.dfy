/**
 * `main_dashboard` from the fetched table to the numbers its widgets show: the selections
 * (lines 48-76), the filters (lines 79-84), the `Appts` coercion and the totals (lines 96-104),
 * the daily sums (lines 140-144) and the state rollup (lines 214-229).
 */
module Dashboard {
  import opened Wrappers
  import opened Sequences
  import opened Records
  import opened Coercion
  import opened Selection
  import opened Filtering
  import opened Rollups
  import opened StateTable
  import opened States

  /**
   * Line 84 reads `date_range[1]`. While the user is part-way through picking a range,
   * `st.date_input` returns a single date and that read raises an IndexError.
   */
  datatype Failure = DateRangeIncomplete

  /** The four selections of lines 59-76. */
  datatype Selections = Selections(channels: seq<string>, types: seq<string>, states: seq<string>, campaigns: seq<string>)
  {
    function Of(d: Dimension): seq<string> {
      match d
      case Channel => channels
      case Kind => types
      case StateName => states
      case Campaign => campaigns
    }
  }

  /**
   * Lines 48-76: each dimension's distinct values, narrowed to the checked ones, or all of
   * them when none is checked. `toggles` holds the checkbox states by widget key.
   */
  function Choose(rows: seq<Row>, toggles: map<string, bool>): Selections {
    Selections(Selected(Channel, Unique(rows, Channel), toggles), Selected(Kind, Unique(rows, Kind), toggles),
               Selected(StateName, Unique(rows, StateName), toggles), Selected(Campaign, Unique(rows, Campaign), toggles))
  }

  lemma ChooseOf(rows: seq<Row>, toggles: map<string, bool>, d: Dimension)
    ensures Choose(rows, toggles).Of(d) == Selected(d, Unique(rows, d), toggles)
  {
    match d
    case Channel =>
    case Kind =>
    case StateName =>
    case Campaign =>
  }

  /**
   * A selection holds only values that occur in its column, in their order of first appearance,
   * and it is empty only when the table is.
   */
  lemma ChosenValues(rows: seq<Row>, toggles: map<string, bool>, d: Dimension)
    ensures SubsequenceOf(Choose(rows, toggles).Of(d), Unique(rows, d))
    ensures forall v :: v in Choose(rows, toggles).Of(d) ==> exists i :: 0 <= i < |rows| && Field(rows[i], d) == v
    ensures Choose(rows, toggles).Of(d) == [] <==> rows == []
  {
    var chosen := Choose(rows, toggles).Of(d);
    ChooseOf(rows, toggles, d);
    forall v | v in chosen ensures exists i :: 0 <= i < |rows| && Field(rows[i], d) == v {
      SubsequenceMembers(chosen, Unique(rows, d), v);
    }
    if rows != [] {
      assert Field(rows[0], d) in Unique(rows, d);
    }
  }

  /** The masks of lines 79-84 as one test: all four categorical columns selected, `Date` in range. */
  predicate Passes(sel: Selections, first: Date, last: Date, x: Row) {
    x.channel in sel.channels && x.kind in sel.types && x.stateName in sel.states
    && x.campaign in sel.campaigns && first <= x.date <= last
  }

  /** The five masks of lines 79-84, in the order the code applies them. */
  function Masks(sel: Selections, first: Date, last: Date): (masks: seq<Mask>)
    ensures forall x :: HoldsAll(masks, x) <==> Passes(sel, first, last, x)
  {
    var masks := [Within(Channel, sel.channels), Within(Kind, sel.types), Within(StateName, sel.states),
                  Within(Campaign, sel.campaigns), Between(first, last)];
    assert forall x :: HoldsAll(masks, x) <==> Passes(sel, first, last, x) by {
      forall x ensures HoldsAll(masks, x) <==> Passes(sel, first, last, x) {
        if Passes(sel, first, last, x) {
          assert forall m :: m in masks ==> Holds(m, x);
        } else {
          assert !Holds(masks[0], x) || !Holds(masks[1], x) || !Holds(masks[2], x)
                 || !Holds(masks[3], x) || !Holds(masks[4], x);
        }
      }
    }
    masks
  }

  /**
   * Lines 79-84: the fetched rows narrowed by the selections and the date range.
   * The result keeps exactly the rows that pass all five tests, in their original order.
   */
  function Filtered(rows: seq<Row>, toggles: map<string, bool>, dateRange: seq<Date>): (r: Result<seq<Row>, Failure>)
    ensures r.Err? <==> |dateRange| < 2
    ensures r.Ok? ==> SubsequenceOf(r.value, rows)
    ensures r.Ok? ==> forall x :: x in r.value <==>
      x in rows && Passes(Choose(rows, toggles), dateRange[0], dateRange[1], x)
    ensures r.Ok? ==> forall x :: multiset(r.value)[x] ==
                                  (if Passes(Choose(rows, toggles), dateRange[0], dateRange[1], x)
                                   then multiset(rows)[x] else 0)
  {
    if |dateRange| < 2 then Err(DateRangeIncomplete)
    else
      var masks := Masks(Choose(rows, toggles), dateRange[0], dateRange[1]);
      ChainIsConjunction(rows, masks);
      Ok(Chain(rows, masks))
  }

  /**
   * On first render every checkbox is on and the range spans the data's earliest and latest
   * dates (line 55), so the filters leave the fetched table as it is.
   */
  lemma DefaultsKeepEverything(rows: seq<Row>, toggles: map<string, bool>)
    requires rows != []
    requires forall k :: k in toggles ==> toggles[k]
    ensures Filtered(rows, toggles, [Earliest(rows), Latest(rows)]) == Ok(rows)
  {
    var sel := Choose(rows, toggles);
    var first, last := Earliest(rows), Latest(rows);
    var masks := Masks(sel, first, last);
    forall i | 0 <= i < |rows| ensures HoldsAll(masks, rows[i]) {
      RowPassesDefaults(rows, toggles, i);
    }
    KeepAllEverything(rows, masks);
    ChainIsConjunction(rows, masks);
    assert Filtered(rows, toggles, [first, last]) == Ok(Chain(rows, masks));
  }

  lemma RowPassesDefaults(rows: seq<Row>, toggles: map<string, bool>, i: nat)
    requires i < |rows|
    requires forall k :: k in toggles ==> toggles[k]
    ensures Passes(Choose(rows, toggles), Earliest(rows), Latest(rows), rows[i])
  {
    var sel := Choose(rows, toggles);
    forall d ensures Field(rows[i], d) in sel.Of(d) {
      ChooseOf(rows, toggles, d);
      AllCheckedSelectsAll(d, Unique(rows, d), toggles);
      assert Field(rows[i], d) in Unique(rows, d);
    }
    assert Field(rows[i], Channel) in sel.Of(Channel);
    assert Field(rows[i], Kind) in sel.Of(Kind);
    assert Field(rows[i], StateName) in sel.Of(StateName);
    assert Field(rows[i], Campaign) in sel.Of(Campaign);
  }

  /**
   * With a prefix per dimension, the checkboxes of lines 59-74 never share a widget key,
   * whatever the fetched table holds, so the page never fails on a duplicate key.
   */
  lemma CheckboxKeysDistinct(rows: seq<Row>)
    ensures NoDuplicates(PageKeys(Key, Unique(rows, Channel), Unique(rows, Kind),
                                  Unique(rows, StateName), Unique(rows, Campaign)))
  {
    PageKeysDistinct(Unique(rows, Channel), Unique(rows, Kind), Unique(rows, StateName), Unique(rows, Campaign));
  }

  /** What the dashboard computes from the filtered rows. */
  datatype Report = Report(
    data: seq<Row>,             // the filtered table once line 103 has coerced `Appts`
    totals: Tally,              // lines 96-104
    daily: seq<DaySums>,        // `daily_sums`, lines 140-144
    byState: map<string, int>)  // `aggregated_data`, line 229

  /**
   * `main_dashboard` from the fetch to the charts' data. The daily rows add up to the totals,
   * and the state rollup accounts for every appointment outside the table's 50 names.
   */
  function Render(rows: seq<Row>, toggles: map<string, bool>, dateRange: seq<Date>): (r: Result<Report, Failure>)
    ensures r.Err? <==> |dateRange| < 2
    ensures r.Ok? ==> Filtered(rows, toggles, dateRange).Ok?
    ensures r.Ok? ==> r.value.data == CoerceAppts(Filtered(rows, toggles, dateRange).value)
    ensures r.Ok? ==> r.value.totals == Totals(r.value.data)
    ensures r.Ok? ==> r.value.daily == DailySums(r.value.data)
    ensures r.Ok? ==> r.value.byState == StateAppts(StateAbbreviations(), r.value.data)
    ensures r.Ok? ==> forall c :: SumDays(r.value.daily, c) == r.value.totals.Get(c)
    ensures r.Ok? ==> forall i, j :: 0 <= i < j < |r.value.daily| ==> r.value.daily[i].date < r.value.daily[j].date
    ensures r.Ok? ==> SumOver(r.value.byState, Abbreviations()) + UnkeyedTotal(r.value.data, StateKey(StateAbbreviations()), Appts)
                      == r.value.totals.appts
  {
    match Filtered(rows, toggles, dateRange)
    case Err(e) => Err(e)
    case Ok(filtered) =>
      var data := CoerceAppts(filtered);
      var report := Report(data, Totals(data), DailySums(data), StateAppts(StateAbbreviations(), data));
      assert forall c :: SumDays(report.daily, c) == report.totals.Get(c) by {
        forall c ensures SumDays(report.daily, c) == report.totals.Get(c) {
          DailySumsReconcile(data, c);
        }
      }
      TableValuesListed();
      StateRollupAccountsForEveryRow(StateAbbreviations(), Abbreviations(), data);
      Ok(report)
  }

  /** A filtered row from Wyoming is counted in the state rollup under "WY". */
  lemma WyomingRowsUnderWY(rows: seq<Row>, i: nat)
    requires Coerced(rows) && i < |rows| && rows[i].stateName == "Wyoming"
    ensures "WY" in StateAppts(StateAbbreviations(), rows)
  {
    WyomingIsWY();
    assert StateAbbreviations()[rows[i].stateName] == "WY";
  }

  /** Rows whose state is entered as "Not Entered" count in the totals but in no state. */
  lemma NotEnteredRowsUnmapped(rows: seq<Row>, i: nat)
    requires Coerced(rows) && i < |rows| && rows[i].stateName == "Not Entered"
    ensures StateKey(StateAbbreviations())(rows[i]) == None
  {
    NotEnteredIsUnmapped();
  }

  /** With no negative `Appts` among unmapped rows, the state map shows at most the Appointments total. */
  lemma StateMapBounded(data: seq<Row>)
    requires Coerced(data)
    requires forall i :: 0 <= i < |data| ==> data[i].stateName in StateAbbreviations() || data[i].appts.n >= 0
    ensures SumOver(StateAppts(StateAbbreviations(), data), Abbreviations()) <= Totals(data).appts
  {
    TableValuesListed();
    StateRollupBounded(StateAbbreviations(), Abbreviations(), data);
  }

  /** When every state name is one of the 50, the state map shows exactly the Appointments total. */
  lemma StateMapExact(data: seq<Row>)
    requires Coerced(data)
    requires forall i :: 0 <= i < |data| ==> data[i].stateName in StateAbbreviations()
    ensures SumOver(StateAppts(StateAbbreviations(), data), Abbreviations()) == Totals(data).appts
  {
    TableValuesListed();
    StateRollupExact(StateAbbreviations(), Abbreviations(), data);
  }
}
