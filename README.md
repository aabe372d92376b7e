# Funnel dashboard: the filter-and-rollup pipeline

This project models the data pipeline inside `main_dashboard` of the SunPower funnel dashboard
(`app.py`). The dashboard fetches the `sunpower_full_funnel` table and builds four selections
from its categorical columns: channel, type, state name and campaign. Each selection is the
list of distinct values whose checkbox is on, or every value when none is on. The dashboard
then narrows the table with four `isin` filters and an inclusive date-range filter. It coerces
`Appts` to integers and sums the count columns into the headline metrics. It groups the rows
by calendar date for the line charts, and maps state names to postal abbreviations to sum
`Appts` per state for the choropleth.

Everything is written as pure functions over sequences of rows, with lemmas about them:

- A row is a datatype. The raw `Appts` cell is a small sum type: missing, integer, fraction or
  text.
- Each DataFrame column assignment (lines 103, 140, 227) is a whole-column map.
- Each boolean-mask rebinding of `data` (lines 79-84) is one `Keep` over the rows.
- `groupby(...).sum()` (lines 143, 229) is a fold into a map.

Modules, in dependency order:

| module | file | what it holds |
|---|---|---|
| `Wrappers` | wrappers.dfy | `Option`, `Result` |
| `Sequences` | sequences.dfy | `unique()` as `Distinct`, subsequences, ascending sort |
| `Records` | records.dfy | the row, the count columns, column totals |
| `Coercion` | coercion.dfy | `to_numeric(errors='coerce').fillna(0).astype(int)` |
| `Selection` | selection.dfy | distinct values, checkbox keys, checked and selected values |
| `Filtering` | filtering.dfy | masks, the chain of filters, its one-pass equivalent |
| `Rollups` | rollups.dfy | the groupby fold, the daily sums, the reconciliation lemmas |
| `StateTable` | state_table.dfy | the 50-entry `state_abbreviations` dict |
| `States` | states.dfy | the `State_Abbreviation` column and the per-state `Appts` rollup |
| `Dashboard` | dashboard.dfy | the whole pipeline from fetched rows to a report |

Two facts about the code shape the model:

- Line 103 does not clamp, so a negative integer, or text such as `"-3"`, stays negative in
  `Appts`. The bound on the state rollup therefore assumes that unmapped rows have no negative
  `Appts`.
- Categories are the strings the warehouse returns; the code replaces no nulls. A placeholder
  such as "Not Entered" is one more string, and it is not a key of the state table.

## Model

| member | source | states |
|---|---|---|
| `Sequences.Distinct` | app.py:48-51 | `unique()`: every value of the column exactly once, nothing else, listed in the order in which the values first occur |
| `Sequences.FirstIndex` | app.py:48-51 | the position where a value first occurs: it holds the value and no earlier position does |
| `Selection.Unique` | app.py:48-51 | a distinct-value list has no duplicates, holds exactly the values occurring in the column, and lists them in order of first occurrence |
| `Selection.UniqueOfOneRow` | app.py:48-51 | a one-row table has exactly one distinct value per column, that row's |
| `Selection.CheckedCount` | app.py:59 | the comprehension keeps every copy of a value whose checkbox is on and no copy of any other |
| `Selection.IsChecked` | app.py:59-74 | a checkbox the user has not touched shows its default, `value=True`; a touched one shows its state |
| `Selection.Key` | app.py:59-74 | the corrected widget key: a prefix per dimension before the value; `KeyInjective` proves it never clashes |
| `Selection.Checked` | app.py:59 | the comprehension keeps exactly the values whose checkbox is on (untouched boxes default to on), in their order |
| `Selection.SelectedCount` | app.py:59-76 | when some box is on, the selection keeps every copy of a checked value and no copy of any other |
| `Selection.Selected` | app.py:59-76 | a selection is a subsequence of the distinct values; it is the checked values when any box is on and all values when none is; it is empty only when there are no values |
| `Selection.AllCheckedSelectsAll` | app.py:59-76 | with every checkbox on, a selection is the full distinct list |
| `Selection.AllCheckedKeepsAll` | app.py:59 | with every checkbox on, the comprehension keeps every value |
| `Selection.KeysAsWrittenCollide` | app.py:59-74 | with the keys as written, one row whose channel and state are both "Not Entered" gives two checkboxes the same widget key |
| `Selection.KeyAsWritten` | app.py:59-74 | the keys as written: `"type_"` before a type, the bare value for a channel, state or campaign |
| `Selection.KeyInjective` | app.py:59-74 | with a prefix per dimension, two checkboxes share a key exactly when they share dimension and value |
| `Selection.Keys` | app.py:59-74 | one key per value of an expander, in the values' order |
| `Selection.KeysDistinct` | app.py:59-74 | with prefixed keys, one expander's distinct values get distinct keys |
| `Selection.KeysApart` | app.py:59-74 | with prefixed keys, two expanders share no key |
| `Selection.PageKeysDistinct` | app.py:59-74 | with prefixed keys, every checkbox on the page has its own key whenever each expander's values are distinct |
| `Dashboard.CheckboxKeysDistinct` | app.py:48-74 | with prefixed keys, the checkboxes built from any fetched table all have distinct keys, so the page never hits a duplicate widget key |
| `Filtering.Holds` | app.py:79-84 | a category mask holds when the row's value is in the selection (`isin`); the date mask holds when first <= Date <= last |
| `Filtering.Keep` | app.py:79 | one mask keeps exactly the rows it holds for, as a subsequence in their original order |
| `Filtering.KeepCount` | app.py:79 | one mask keeps every copy of a row it holds for and no copy of any other row |
| `Filtering.Chain` | app.py:79-84 | rebinding `data` mask by mask keeps every copy of a row that passes all the masks and no copy of any other row |
| `Filtering.KeepAll` | app.py:79-84 | one pass with the conjunction keeps exactly the rows that pass every mask, as a subsequence |
| `Filtering.KeepAllCount` | app.py:79-84 | the one-pass filter keeps every copy of a row passing all masks and no copy of any other row |
| `Filtering.KeepThenKeepAll` | app.py:79-84 | filtering by one mask, then by the rest at once, equals filtering by all of them at once |
| `Filtering.KeepAllNoMasks` | app.py:79-84 | with no masks nothing is dropped |
| `Filtering.ChainIsConjunction` | app.py:79-84 | rebinding `data` mask by mask gives the same table as one pass with the AND of all masks |
| `Filtering.KeepAllSameMasks` | app.py:79-84 | the one-pass result depends only on which masks are present |
| `Filtering.ChainOrderIrrelevant` | app.py:79-84 | applying the same masks in any order gives the same table |
| `Filtering.KeepAllEverything` | app.py:79-84 | when every row passes every mask, the table is unchanged |
| `Filtering.Earliest` | app.py:55 | `Date.min()` is a date of some row and no row is earlier |
| `Filtering.Latest` | app.py:55 | `Date.max()` is a date of some row and no row is later |
| `Dashboard.ChooseOf` | app.py:59-76 | the selection of each dimension is that dimension's `Selected` over its distinct values |
| `Dashboard.Choose` | app.py:48-76 | the four selections, each the `Selected` values of its column's distinct values; `ChooseOf` and `ChosenValues` state their properties |
| `Dashboard.ChosenValues` | app.py:48-76 | a selection is a subsequence of the distinct values, holds only values occurring in the column, and is empty exactly when the table is |
| `Dashboard.Masks` | app.py:79-84 | a row passes the five masks exactly when its four categories are selected and its date lies in the inclusive range |
| `Dashboard.Filtered` | app.py:79-84 | fails exactly when the date range has fewer than two dates; otherwise a subsequence of the fetched rows that keeps every copy of each row passing all five tests and no copy of any other row |
| `Dashboard.DefaultsKeepEverything` | app.py:55-84 | with every checkbox on and the range from the earliest to the latest date, the filters return the fetched table unchanged |
| `Dashboard.RowPassesDefaults` | app.py:55-84 | under the defaults every fetched row passes all five tests |
| `Coercion.FillNa` | app.py:103 | `fillna(0)` turns NaN into 0 and keeps every other value |
| `Coercion.ToNumeric` | app.py:103 | `to_numeric(errors='coerce')` on one cell: missing is NaN, numbers are kept, text of the form optional sign then digits is read and any other text is NaN (decimals, exponents and padded text, which pandas reads, are NaN here); `CoerceCell` states the outcome |
| `Coercion.ParseInteger` | app.py:103 | the text read as an integer here: optional sign, then at least one digit, nothing else (a narrower set than `to_numeric` reads); `ParseDecimal` proves it inverts `str` |
| `Coercion.AsInt` | app.py:103 | `astype(int)`: an integer is kept and a float truncated toward zero, as `Truncate` states |
| `Coercion.Truncate` | app.py:103 | `astype(int)` on a float cuts toward zero: within one of the value, never past it, sign kept |
| `Coercion.CoerceCell` | app.py:103 | missing becomes 0, an integer is kept, a fraction is truncated, numeric text is read and other text becomes 0 |
| `Coercion.CoerceAppts` | app.py:103 | after line 103 every row's `Appts` is an integer, the coerced value of its cell, and no other column or row changes |
| `Coercion.DigitsValueOfDigits` | app.py:103 | reading back the digits of a natural number gives that number |
| `Coercion.ParseDecimal` | app.py:103 | the decimal text of any integer is read as that integer |
| `Coercion.CoerceReadsDecimalText` | app.py:103 | a cell holding the decimal text of `n` is coerced to `n`, not to 0 |
| `Records.Column` | app.py:79-84 | `data[column]` has one entry per row, that row's field |
| `Records.Total` | app.py:96-104 | `data[column].sum()` for one count column; `Totals` and `DailySumsReconcile` relate it to the metrics and the daily sums |
| `Records.Measures` | app.py:143 | a row's tally holds its value in every count column |
| `Records.Totals` | app.py:96-104 | each headline metric is its column's sum over the filtered, coerced rows |
| `Rollups.GroupTotalOfAbsentKey` | app.py:143 | a key that no row carries sums to 0 |
| `Rollups.GroupTotal` | app.py:143 | the sum of one column over the rows filed under one key, the reference that `GroupSumsTotals` compares the groupby against |
| `Rollups.GroupSums` | app.py:143 | the `groupby(key).sum()` fold into a map; `GroupSumsKeys` and `GroupSumsTotals` state what it holds |
| `Rollups.KeyOccursStep` | app.py:143 | a key occurs in the rows exactly when it is the first row's or occurs in the rest |
| `Rollups.GroupSumsKeys` | app.py:143 | `groupby(key).sum()` has a group for a key exactly when some row carries that key; keyless rows form none |
| `Rollups.GroupSumsTotals` | app.py:143 | each group holds, in every count column, the sum over exactly the rows filed under its key |
| `Rollups.KeyedTotalSplit` | app.py:143 | the rows keyed by `k` or by one of `ks` split into `k`'s group and the rest when `k` is not in `ks` |
| `Rollups.KeyedTotalNoKeys` | app.py:143 | no listed keys, no keyed rows |
| `Rollups.SumOfGroupsIsKeyedTotal` | app.py:143 | adding up distinct groups counts each of their rows exactly once |
| `Rollups.KeyedAndUnkeyed` | app.py:143 | when the listed keys cover every key that occurs, each row counts either among the grouped rows or among the keyless ones |
| `Rollups.UnkeyedTotalAllKeyed` | app.py:143 | when every row has a key, the keyless rows add nothing |
| `Rollups.UnkeyedTotalNonNegative` | app.py:229 | keyless rows whose counts are not negative add up to no less than 0 |
| `Rollups.DateOf` | app.py:143 | every row's grouping key is its calendar date, so no row is left out of the daily grouping |
| `Rollups.Dates` | app.py:140 | the date column, one entry per row |
| `Rollups.DayDates` | app.py:144 | the date column of `daily_sums`, one entry per day row |
| `Rollups.Tabulate` | app.py:144 | `reset_index()`: one row per listed date, carrying that date's group |
| `Rollups.AscendingDates` | app.py:143 | the group keys come out strictly ascending and are exactly the dates that occur |
| `Rollups.DailySums` | app.py:140-144 | `daily_sums` has one row per distinct date of the filtered rows (its dates are exactly the rows' dates, strictly ascending), each holding the sums of every count column over that date's rows |
| `Rollups.DatesAreGroups` | app.py:143 | every listed date is a group, holding that date's sums |
| `Rollups.SumOfTabulated` | app.py:144 | summing a column of the tabulated rows adds up the listed groups |
| `Rollups.DatesCoverRows` | app.py:143 | every row's date is among the listed dates |
| `Rollups.DailySumsReconcile` | app.py:96-104 | summing any count column over `daily_sums` gives that column's total over the filtered rows |
| `StateTable.Names` | app.py:214-224 | the table's 50 state names, in the order it lists them |
| `StateTable.Abbreviations` | app.py:214-224 | the table's 50 abbreviations, in the same order |
| `StateTable.NameIndexOfEntry` | app.py:214-224 | the code of the `i`-th name decodes to `i`, so names with equal codes are the same entry |
| `StateTable.AbbreviationIndexOfEntry` | app.py:214-224 | the code of the `i`-th abbreviation decodes to `i` |
| `StateTable.NamesDistinct` | app.py:214-224 | the 50 names are distinct |
| `StateTable.AbbreviationsDistinct` | app.py:214-224 | the 50 abbreviations are distinct |
| `StateTable.DictLiteral` | app.py:214-224 | a dict literal's keys are exactly the listed keys, and with distinct keys each maps to its own listed value |
| `StateTable.DictLiteralSize` | app.py:214-224 | with distinct keys and distinct values, the dict has as many keys and as many values as pairs |
| `StateTable.StateAbbreviations` | app.py:214-224 | `state_abbreviations` has exactly the 50 names as keys, each mapped to its own abbreviation |
| `StateTable.TableShape` | app.py:214-224 | the dict has 50 distinct keys and 50 distinct values |
| `StateTable.TableValuesListed` | app.py:214-224 | every value of the dict is one of the 50 abbreviations, and those are distinct |
| `StateTable.WyomingIsWY` | app.py:224 | "Wyoming" maps to "WY" |
| `StateTable.NotEnteredIsUnmapped` | app.py:214-227 | "Not Entered" is not a key, so its rows get no abbreviation |
| `States.AbbreviationOf` | app.py:227 | a row gets an abbreviation exactly when its state name is a key, and then the name's value |
| `States.StateGroups` | app.py:229 | the state groups are the abbreviations some row maps to, each holding its rows' `Appts` sum |
| `States.StateAppts` | app.py:229 | `aggregated_data` has an entry exactly for each abbreviation some row's name maps to, holding the `Appts` sum over those rows |
| `States.SumOverIsSumOfGroups` | app.py:229 | adding up the aggregate over listed abbreviations equals adding up their groups, with 0 for absent ones |
| `States.StateRollupAccountsForEveryRow` | app.py:226-229 | the aggregate summed over the table's abbreviations, plus the `Appts` of unmapped rows, is the overall `Appts` total |
| `States.StateRollupBounded` | app.py:226-229 | with no negative `Appts` among unmapped rows, the aggregate never exceeds the overall total |
| `States.StateRollupExact` | app.py:226-229 | when every state name is mapped, the aggregate equals the overall total |
| `Dashboard.Render` | app.py:79-229 | fails exactly on an incomplete date range; otherwise the report's rows are the filtered rows with `Appts` coerced, its totals, daily sums and state map are computed from those rows, the daily sums add up to the totals in every column, the dates are strictly ascending, and the state map plus the unmapped rows' `Appts` equals the Appointments total |
| `Dashboard.WyomingRowsUnderWY` | app.py:224-229 | a row from Wyoming is aggregated under "WY" |
| `Dashboard.NotEnteredRowsUnmapped` | app.py:227 | a "Not Entered" row gets a missing abbreviation and so joins no state |
| `Dashboard.StateMapBounded` | app.py:214-229 | with no negative `Appts` among unmapped rows, the state map's sum is at most the Appointments metric |
| `Dashboard.StateMapExact` | app.py:214-229 | when every state name is one of the 50, the state map's sum equals the Appointments metric |

## Left out

- The BigQuery credentials, the query and the fetch (lines 36-43): the fetched table is the input sequence of rows.
- The Streamlit page: the password gate, the expanders, the columns and the metric widgets. Checkbox states are an input map from widget key to boolean, and an absent key means the box shows its default, on.
- `Cost` and every ratio (CPL, CTR, CVR, CPC, CPA, L2A and the daily CTR, CPL and CPA): floating-point division, with a zero denominator giving inf or NaN. The display rounding and formatting go with them.
- The Plotly figures, the choropleth rendering and the OLS trendline, and the unused imports.
- Records.Totals: the sums are unbounded integers; pandas' int64 overflow is not modelled. The sums of lines 96-101 are taken before line 103 runs, but coercion changes only `Appts`, so they equal the sums over the coerced rows used here.
- Coercion.ToNumeric, Coercion.ParseInteger, Coercion.CoerceCell: only text of the form optional sign then digits is read as a number. Other text that `to_numeric` accepts (decimals, exponents, surrounding spaces) becomes 0 here. Float infinities and NaN values inside a fraction cell are not modelled. Text that `to_numeric` reads as an infinity (`"inf"`, `"-Infinity"`, `"1e400"`) makes `.astype(int)` raise at line 103; the model gives 0 for such a cell.
- `DQ` is modelled as an integer column.
- Null values in `Channel_Non_Truth`, `Type`, `State_Name` and `Campaign` are not modelled: the four category fields of a row are strings. On a null `Type`, line 64's `"type_" + type` raises a TypeError, and a null channel or state reaches `st.checkbox` as a label that is not a string; the pipeline models neither, so `Dashboard.Filtered` and `Dashboard.Render` fail only on an incomplete date range.
- Dashboard.Filtered: the checkbox states are read through per-dimension keys (`Selection.Key`), the corrected keys of the finding below. The keys as written (`Selection.KeyAsWritten`) make Streamlit stop with a duplicate-widget-key error whenever two of the keys of lines 59, 64, 69 and 74 coincide: one value that is both a channel and a state, say, or a channel `"type_Search"` beside a type `"Search"`. The pipeline does not model that stop; with the corrected keys it cannot happen (`Dashboard.CheckboxKeysDistinct`), so the only failure left is an incomplete date range.
- Dashboard.Render: fails only on an incomplete date range, for the reason given for `Dashboard.Filtered`.
- States.StateAppts: the aggregate is a map from abbreviation to sum. The row order that `reset_index()` gives it is not modelled.
- Rollups.DailySums: only the six integer count columns are summed; the `Cost` column that `select_dtypes` also picks up is left out with the other floating-point values.
- Line 140 turns `Date` into a timestamp and line 143 takes its calendar date; a date is one integer day throughout, so the round trip is the identity.

## Findings

| source | as written | input that shows it | evidently intended | confidence | as-written member | corrected member |
|---|---|---|---|---|---|---|
| app.py:59-74 | channels, states and campaigns use the bare value as the checkbox key; only types get a prefix | one row whose channel and state name are both "Not Entered" gives two checkboxes the key "Not Entered", and Streamlit rejects duplicate widget keys | each dimension's keys in their own namespace, such as a prefix per dimension | not executed | `Selection.KeysAsWrittenCollide` | `Selection.PageKeysDistinct` |
