/**
 * app.py:79-84: the boolean masks that narrow the fetched table to the rows
 * the user selected.
 */
module Filtering {
  import opened Records
  import opened Sequences

  /** One mask: a categorical column `isin` a selection, or `Date` within an inclusive range. */
  datatype Mask = Within(dim: Dimension, allowed: seq<string>) | Between(first: Date, last: Date)

  predicate Holds(m: Mask, r: Row) {
    match m
    case Within(d, allowed) => Field(r, d) in allowed
    case Between(first, last) => first <= r.date && r.date <= last
  }

  /** `data[mask]`: the rows where the mask holds, in their original order. */
  function Keep(rows: seq<Row>, m: Mask): (r: seq<Row>)
    ensures SubsequenceOf(r, rows)
    ensures forall x :: x in r <==> x in rows && Holds(m, x)
  {
    if rows == [] then []
    else if Holds(m, rows[0]) then [rows[0]] + Keep(rows[1..], m)
    else Keep(rows[1..], m)
  }

  /** A mask keeps every copy of a row it holds for and no copy of any other row. */
  lemma {:induction false} KeepCount(rows: seq<Row>, m: Mask, x: Row)
    ensures multiset(Keep(rows, m))[x] == if Holds(m, x) then multiset(rows)[x] else 0
  {
    if rows != [] {
      KeepCount(rows[1..], m, x);
      assert rows == [rows[0]] + rows[1..];
    }
  }

  /** Lines 79-84 as written: `data` rebound to the result of each mask in turn. */
  function Chain(rows: seq<Row>, masks: seq<Mask>): (r: seq<Row>)
    ensures forall x :: multiset(r)[x] == if HoldsAll(masks, x) then multiset(rows)[x] else 0
    decreases |masks|
  {
    if masks == [] then rows
    else
      var r := Chain(Keep(rows, masks[0]), masks[1..]);
      assert forall x :: multiset(r)[x] == if HoldsAll(masks, x) then multiset(rows)[x] else 0 by {
        forall x ensures multiset(r)[x] == if HoldsAll(masks, x) then multiset(rows)[x] else 0 {
          KeepCount(rows, masks[0], x);
          assert masks == [masks[0]] + masks[1..];
          assert HoldsAll(masks, x) <==> Holds(masks[0], x) && HoldsAll(masks[1..], x);
        }
      }
      r
  }

  predicate HoldsAll(masks: seq<Mask>, r: Row) {
    forall m :: m in masks ==> Holds(m, r)
  }

  /** One pass over the table with the conjunction of all masks. */
  function KeepAll(rows: seq<Row>, masks: seq<Mask>): (r: seq<Row>)
    ensures SubsequenceOf(r, rows)
    ensures forall x :: x in r <==> x in rows && HoldsAll(masks, x)
  {
    if rows == [] then []
    else if HoldsAll(masks, rows[0]) then [rows[0]] + KeepAll(rows[1..], masks)
    else KeepAll(rows[1..], masks)
  }

  /** The one-pass filter keeps every copy of a row that passes all masks and no copy of any other row. */
  lemma {:induction false} KeepAllCount(rows: seq<Row>, masks: seq<Mask>, x: Row)
    ensures multiset(KeepAll(rows, masks))[x] == if HoldsAll(masks, x) then multiset(rows)[x] else 0
  {
    if rows != [] {
      KeepAllCount(rows[1..], masks, x);
      assert rows == [rows[0]] + rows[1..];
    }
  }

  lemma {:induction false} KeepThenKeepAll(rows: seq<Row>, m: Mask, masks: seq<Mask>)
    ensures KeepAll(Keep(rows, m), masks) == KeepAll(rows, [m] + masks)
  {
    if rows != [] {
      KeepThenKeepAll(rows[1..], m, masks);
      assert HoldsAll([m] + masks, rows[0]) <==> Holds(m, rows[0]) && HoldsAll(masks, rows[0]);
    }
  }

  lemma {:induction false} KeepAllNoMasks(rows: seq<Row>)
    ensures KeepAll(rows, []) == rows
  {
    if rows != [] {
      KeepAllNoMasks(rows[1..]);
    }
  }

  /** Narrowing mask by mask keeps exactly the rows that pass every mask, in their order. */
  lemma {:induction false} ChainIsConjunction(rows: seq<Row>, masks: seq<Mask>)
    ensures Chain(rows, masks) == KeepAll(rows, masks)
    decreases |masks|
  {
    if masks == [] {
      KeepAllNoMasks(rows);
    } else {
      ChainIsConjunction(Keep(rows, masks[0]), masks[1..]);
      KeepThenKeepAll(rows, masks[0], masks[1..]);
      assert [masks[0]] + masks[1..] == masks;
    }
  }

  lemma {:induction false} KeepAllSameMasks(rows: seq<Row>, masks1: seq<Mask>, masks2: seq<Mask>)
    requires forall m :: m in masks1 <==> m in masks2
    ensures KeepAll(rows, masks1) == KeepAll(rows, masks2)
  {
    if rows != [] {
      KeepAllSameMasks(rows[1..], masks1, masks2);
      assert HoldsAll(masks1, rows[0]) == HoldsAll(masks2, rows[0]);
    }
  }

  /** The masks may be applied in any order: the result is the same table. */
  lemma ChainOrderIrrelevant(rows: seq<Row>, masks1: seq<Mask>, masks2: seq<Mask>)
    requires multiset(masks1) == multiset(masks2)
    ensures Chain(rows, masks1) == Chain(rows, masks2)
  {
    ChainIsConjunction(rows, masks1);
    ChainIsConjunction(rows, masks2);
    assert forall m :: m in masks1 <==> m in masks2 by {
      forall m ensures m in masks1 <==> m in masks2 {
        assert m in masks1 <==> m in multiset(masks1);
        assert m in masks2 <==> m in multiset(masks2);
      }
    }
    KeepAllSameMasks(rows, masks1, masks2);
  }

  /** When every row passes every mask, the masks leave the table unchanged. */
  lemma {:induction false} KeepAllEverything(rows: seq<Row>, masks: seq<Mask>)
    requires forall i :: 0 <= i < |rows| ==> HoldsAll(masks, rows[i])
    ensures KeepAll(rows, masks) == rows
  {
    if rows != [] {
      KeepAllEverything(rows[1..], masks);
    }
  }

  /** `data['Date'].min()` (line 55). */
  function Earliest(rows: seq<Row>): (d: Date)
    requires rows != []
    ensures exists i :: 0 <= i < |rows| && rows[i].date == d
    ensures forall i :: 0 <= i < |rows| ==> d <= rows[i].date
  {
    if |rows| == 1 then rows[0].date
    else
      var rest := Earliest(rows[1..]);
      if rows[0].date <= rest then rows[0].date else rest
  }

  /** `data['Date'].max()` (line 55). */
  function Latest(rows: seq<Row>): (d: Date)
    requires rows != []
    ensures exists i :: 0 <= i < |rows| && rows[i].date == d
    ensures forall i :: 0 <= i < |rows| ==> rows[i].date <= d
  {
    if |rows| == 1 then rows[0].date
    else
      var rest := Latest(rows[1..]);
      if rest <= rows[0].date then rows[0].date else rest
  }
}
