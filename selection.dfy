/**
 * app.py:48-76: the distinct values of each filter column, one checkbox per
 * value, and the selection each dimension's filter then uses.
 */
module Selection {
  import opened Records
  import opened Sequences

  /** `list(data[column].unique())` (lines 48-51). */
  function Unique(rows: seq<Row>, d: Dimension): (values: seq<string>)
    ensures NoDuplicates(values)
    ensures forall v :: v in values <==> exists i :: 0 <= i < |rows| && Field(rows[i], d) == v
    ensures SubsequenceOf(values, Column(rows, d))
    ensures forall i :: 0 <= i < |values| ==> values[i] in Column(rows, d)
    ensures forall i, j :: 0 <= i < j < |values| ==>
      FirstIndex(Column(rows, d), values[i]) < FirstIndex(Column(rows, d), values[j])
  {
    var column := Column(rows, d);
    assert forall v :: v in column <==> exists i :: 0 <= i < |rows| && Field(rows[i], d) == v by {
      forall v ensures v in column <==> exists i :: 0 <= i < |rows| && Field(rows[i], d) == v {
        if v in column {
          var i :| 0 <= i < |column| && column[i] == v;
          assert Field(rows[i], d) == v;
        }
      }
    }
    var values := Distinct(column);
    assert forall i :: 0 <= i < |values| ==> values[i] in values;
    values
  }

  /**
   * The widget key app.py gives each checkbox (lines 59, 64, 69, 74): only
   * the types get a prefix; channels, states and campaigns use the bare value.
   */
  function KeyAsWritten(d: Dimension, v: string): string {
    if d == Kind then "type_" + v else v
  }

  function Prefix(d: Dimension): string {
    match d
    case Channel => "channel_"
    case Kind => "type_"
    case StateName => "state_"
    case Campaign => "campaign_"
  }

  /** The widget key with a prefix for every dimension, so that no two checkboxes share one. */
  function Key(d: Dimension, v: string): string {
    Prefix(d) + v
  }

  /** Two checkboxes get the same key only if they are the same dimension and value. */
  lemma KeyInjective(d1: Dimension, v1: string, d2: Dimension, v2: string)
    ensures Key(d1, v1) == Key(d2, v2) <==> d1 == d2 && v1 == v2
  {
    if Key(d1, v1) == Key(d2, v2) {
      var k := Key(d1, v1);
      assert k[0] == Prefix(d1)[0] == Prefix(d2)[0];
      assert k[1] == Prefix(d1)[1] == Prefix(d2)[1];
      assert d1 == d2;
      assert v1 == k[|Prefix(d1)|..] == v2;
    }
  }

  /** The keys of one expander's checkboxes. */
  function Keys(key: (Dimension, string) -> string, d: Dimension, values: seq<string>): (keys: seq<string>)
    ensures |keys| == |values|
    ensures forall i :: 0 <= i < |values| ==> keys[i] == key(d, values[i])
  {
    seq(|values|, i requires 0 <= i < |values| => key(d, values[i]))
  }

  /** The keys of every checkbox on the page, in the order the four expanders render them. */
  function PageKeys(key: (Dimension, string) -> string,
                    channels: seq<string>, types: seq<string>, states: seq<string>, campaigns: seq<string>)
    : seq<string>
  {
    Keys(key, Channel, channels) + Keys(key, Kind, types) + Keys(key, StateName, states) + Keys(key, Campaign, campaigns)
  }

  /**
   * As written, a value that occurs both as a channel and as a state name (here
   * "Not Entered", the placeholder for a missing category) gives two checkboxes
   * the same key, which Streamlit refuses.
   */
  lemma KeysAsWrittenCollide()
    ensures var rows := [Row(0, "Not Entered", "Search", "Not Entered", "Fall", 0, 0, 0, 0, 0, Whole(0))];
            !NoDuplicates(PageKeys(KeyAsWritten, Unique(rows, Channel), Unique(rows, Kind),
                                   Unique(rows, StateName), Unique(rows, Campaign)))
  {
    var row := Row(0, "Not Entered", "Search", "Not Entered", "Fall", 0, 0, 0, 0, 0, Whole(0));
    var rows := [row];
    UniqueOfOneRow(row, Channel);
    UniqueOfOneRow(row, Kind);
    UniqueOfOneRow(row, StateName);
    UniqueOfOneRow(row, Campaign);
    var keys := PageKeys(KeyAsWritten, Unique(rows, Channel), Unique(rows, Kind),
                         Unique(rows, StateName), Unique(rows, Campaign));
    assert keys[0] == "Not Entered" == keys[2];
  }

  /** A table of one row has one distinct value per column. */
  lemma UniqueOfOneRow(row: Row, d: Dimension)
    ensures Unique([row], d) == [Field(row, d)]
  {
    var values := Unique([row], d);
    assert Field([row][0], d) in values;
    forall i | 0 <= i < |values| ensures values[i] == Field(row, d) {
      assert values[i] in values;
    }
  }

  /** With prefixed keys, one expander's distinct values get distinct keys. */
  lemma KeysDistinct(d: Dimension, values: seq<string>)
    requires NoDuplicates(values)
    ensures NoDuplicates(Keys(Key, d, values))
  {
    var keys := Keys(Key, d, values);
    forall i, j | 0 <= i < j < |keys| ensures keys[i] != keys[j] {
      KeyInjective(d, values[i], d, values[j]);
    }
  }

  /** With prefixed keys, two different expanders share no key. */
  lemma KeysApart(d1: Dimension, values1: seq<string>, d2: Dimension, values2: seq<string>)
    requires d1 != d2
    ensures forall k :: k in Keys(Key, d1, values1) ==> k !in Keys(Key, d2, values2)
  {
    forall k | k in Keys(Key, d1, values1) ensures k !in Keys(Key, d2, values2) {
      var i :| 0 <= i < |values1| && Keys(Key, d1, values1)[i] == k;
      if k in Keys(Key, d2, values2) {
        var j :| 0 <= j < |values2| && Keys(Key, d2, values2)[j] == k;
        KeyInjective(d1, values1[i], d2, values2[j]);
      }
    }
  }

  /** With prefixed keys, distinct values in each dimension give distinct keys across the page. */
  lemma PageKeysDistinct(channels: seq<string>, types: seq<string>, states: seq<string>, campaigns: seq<string>)
    requires NoDuplicates(channels) && NoDuplicates(types) && NoDuplicates(states) && NoDuplicates(campaigns)
    ensures NoDuplicates(PageKeys(Key, channels, types, states, campaigns))
  {
    var c, t := Keys(Key, Channel, channels), Keys(Key, Kind, types);
    var s, p := Keys(Key, StateName, states), Keys(Key, Campaign, campaigns);
    KeysDistinct(Channel, channels);
    KeysDistinct(Kind, types);
    KeysDistinct(StateName, states);
    KeysDistinct(Campaign, campaigns);
    KeysApart(Channel, channels, Kind, types);
    NoDuplicatesConcat(c, t);
    KeysApart(Channel, channels, StateName, states);
    KeysApart(Kind, types, StateName, states);
    NoDuplicatesConcat(c + t, s);
    KeysApart(Channel, channels, Campaign, campaigns);
    KeysApart(Kind, types, Campaign, campaigns);
    KeysApart(StateName, states, Campaign, campaigns);
    NoDuplicatesConcat(c + t + s, p);
  }

  /** A checkbox the user has not touched shows its default, `value=True`. */
  function IsChecked(toggles: map<string, bool>, key: string): bool {
    key !in toggles || toggles[key]
  }

  /** The list comprehension of lines 59, 64, 69, 74: the values whose checkbox is on, in order. */
  function Checked(d: Dimension, values: seq<string>, toggles: map<string, bool>): (r: seq<string>)
    ensures SubsequenceOf(r, values)
    ensures forall v :: v in r <==> v in values && IsChecked(toggles, Key(d, v))
  {
    if values == [] then []
    else if IsChecked(toggles, Key(d, values[0])) then [values[0]] + Checked(d, values[1..], toggles)
    else Checked(d, values[1..], toggles)
  }

  /** The comprehension keeps every copy of a value whose checkbox is on and no copy of any other. */
  lemma {:induction false} CheckedCount(d: Dimension, values: seq<string>, toggles: map<string, bool>, v: string)
    ensures multiset(Checked(d, values, toggles))[v] ==
            if IsChecked(toggles, Key(d, v)) then multiset(values)[v] else 0
  {
    if values != [] {
      CheckedCount(d, values[1..], toggles, v);
      assert values == [values[0]] + values[1..];
    }
  }

  /** Lines 59-76: the checked values, or every value when none is checked. */
  function Selected(d: Dimension, values: seq<string>, toggles: map<string, bool>): (r: seq<string>)
    ensures SubsequenceOf(r, values)
    ensures r == [] <==> values == []
    ensures (exists v :: v in values && IsChecked(toggles, Key(d, v))) ==>
              forall v :: v in r <==> v in values && IsChecked(toggles, Key(d, v))
    ensures (forall v :: v in values ==> !IsChecked(toggles, Key(d, v))) ==> r == values
  {
    var picked := Checked(d, values, toggles);
    if picked == [] then (SubsequenceReflexive(values); values)
    else assert picked[0] in picked; picked
  }

  /** When some box is on, the selection keeps every copy of a checked value and no copy of any other. */
  lemma SelectedCount(d: Dimension, values: seq<string>, toggles: map<string, bool>, v: string)
    requires exists w :: w in values && IsChecked(toggles, Key(d, w))
    ensures multiset(Selected(d, values, toggles))[v] ==
            if IsChecked(toggles, Key(d, v)) then multiset(values)[v] else 0
  {
    CheckedCount(d, values, toggles, v);
  }

  /** With every checkbox on, as on first render, a dimension selects all of its values. */
  lemma {:induction false} AllCheckedSelectsAll(d: Dimension, values: seq<string>, toggles: map<string, bool>)
    requires forall k :: k in toggles ==> toggles[k]
    ensures Selected(d, values, toggles) == values
  {
    AllCheckedKeepsAll(d, values, toggles);
  }

  lemma {:induction false} AllCheckedKeepsAll(d: Dimension, values: seq<string>, toggles: map<string, bool>)
    requires forall k :: k in toggles ==> toggles[k]
    ensures Checked(d, values, toggles) == values
  {
    if values != [] {
      AllCheckedKeepsAll(d, values[1..], toggles);
    }
  }
}
