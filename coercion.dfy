/**
 * app.py:103, `pd.to_numeric(data['Appts'], errors='coerce').fillna(0).astype(int)`:
 * the three steps that turn whatever the `Appts` column holds into integers.
 */
module Coercion {
  import opened Wrappers
  import opened Records

  /** A numeric pandas value: not-a-number, an integer or a float. */
  datatype Numeric = NaN | Int(i: int) | Float(x: real)

  predicate IsDigit(c: char) {
    '0' <= c <= '9'
  }

  predicate AllDigits(s: string) {
    forall i :: 0 <= i < |s| ==> IsDigit(s[i])
  }

  /** The number a run of decimal digits denotes. */
  function DigitsValue(s: string): nat
    requires AllDigits(s)
  {
    if s == [] then 0
    else DigitsValue(s[..|s| - 1]) * 10 + (s[|s| - 1] as int - '0' as int)
  }

  /**
   * The text `to_numeric` reads as an integer: an optional sign and at least
   * one decimal digit. Any other text is not a number.
   */
  function ParseInteger(s: string): Option<int> {
    if s != [] && (s[0] == '-' || s[0] == '+') then
      if |s| > 1 && AllDigits(s[1..]) then
        var magnitude: int := DigitsValue(s[1..]);
        Some(if s[0] == '-' then -magnitude else magnitude)
      else None
    else if s != [] && AllDigits(s) then Some(DigitsValue(s))
    else None
  }

  /** The decimal digits of `n`, most significant first. */
  function Digits(n: nat): (s: string)
    ensures s != [] && AllDigits(s)
  {
    if n < 10 then [('0' as int + n) as char]
    else Digits(n / 10) + [('0' as int + n % 10) as char]
  }

  /** `str(n)` for an integer. */
  function Decimal(n: int): string {
    if n < 0 then "-" + Digits(-n) else Digits(n)
  }

  lemma {:induction false} DigitsValueOfDigits(n: nat)
    ensures DigitsValue(Digits(n)) == n
  {
    if n >= 10 {
      var s := Digits(n);
      assert s[..|s| - 1] == Digits(n / 10);
      DigitsValueOfDigits(n / 10);
    }
  }

  /** Reading back the decimal text of an integer gives that integer. */
  lemma ParseDecimal(n: int)
    ensures ParseInteger(Decimal(n)) == Some(n)
  {
    if n < 0 {
      assert Decimal(n)[1..] == Digits(-n);
      DigitsValueOfDigits(-n);
    } else {
      assert IsDigit(Digits(n)[0]);
      DigitsValueOfDigits(n);
    }
  }

  /** `pd.to_numeric(..., errors='coerce')` on one cell: text that is not a number becomes NaN. */
  function ToNumeric(c: Cell): Numeric {
    match c
    case Missing => NaN
    case Whole(n) => Int(n)
    case Fraction(x) => Float(x)
    case Text(s) =>
      match ParseInteger(s)
      case Some(n) => Int(n)
      case None => NaN
  }

  /** `.fillna(0)`. */
  function FillNa(v: Numeric): (w: Numeric)
    ensures !w.NaN?
    ensures v.NaN? ==> w == Int(0)
    ensures !v.NaN? ==> w == v
  {
    if v.NaN? then Int(0) else v
  }

  /** `.astype(int)` on a float: the fraction is cut off, toward zero. */
  function Truncate(x: real): (n: int)
    ensures 0.0 <= x ==> 0 <= n && n as real <= x < n as real + 1.0
    ensures x < 0.0 ==> n <= 0 && n as real - 1.0 < x <= n as real
  {
    if x >= 0.0 then x.Floor else -((-x).Floor)
  }

  /** `.astype(int)` on a value that is not NaN. */
  function AsInt(v: Numeric): int
    requires !v.NaN?
  {
    match v
    case Int(i) => i
    case Float(x) => Truncate(x)
  }

  /** The whole conversion of line 103 for one cell. */
  function CoerceCell(c: Cell): (n: int)
    ensures c.Missing? ==> n == 0
    ensures c.Whole? ==> n == c.n
    ensures c.Fraction? ==> n == Truncate(c.x)
    ensures c.Text? ==> n == (if ParseInteger(c.s).Some? then ParseInteger(c.s).value else 0)
  {
    AsInt(FillNa(ToNumeric(c)))
  }

  /** Line 103: the `Appts` column replaced by its coerced values; no other column changes. */
  function CoerceAppts(rows: seq<Row>): (out: seq<Row>)
    ensures |out| == |rows| && Coerced(out)
    ensures forall i :: 0 <= i < |rows| ==> out[i] == rows[i].(appts := Whole(CoerceCell(rows[i].appts)))
  {
    seq(|rows|, i requires 0 <= i < |rows| => rows[i].(appts := Whole(CoerceCell(rows[i].appts))))
  }

  /** A cell holding the text `str(n)` is coerced to `n`, not to 0. */
  lemma CoerceReadsDecimalText(n: int)
    ensures CoerceCell(Text(Decimal(n))) == n
  {
    ParseDecimal(n);
  }
}
