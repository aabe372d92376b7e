/**
 * One row of the `sunpower_full_funnel` table as the dashboard fetches it, and
 * the count columns that its metrics and charts sum.
 */
module Records {

  /** A calendar day, as a number of days from a fixed epoch; the query's `Date` column is a DATE. */
  type Date = int

  /** A raw `Appts` value: the warehouse may hand back nulls, integers, fractions or text. */
  datatype Cell = Missing | Whole(n: int) | Fraction(x: real) | Text(s: string)

  datatype Row = Row(
    date: Date,
    channel: string,   // Channel_Non_Truth
    kind: string,      // Type
    stateName: string, // State_Name
    campaign: string,  // Campaign
    impressions: int,  // Impressions
    clicks: int,       // Clicks
    conversions: int,  // Conversions
    leads: int,        // Number_of_reports__Salesforce_Reports
    dqs: int,          // DQ
    appts: Cell)       // Appts

  /** The four categorical columns that have a checkbox filter. */
  datatype Dimension = Channel | Kind | StateName | Campaign

  function Field(r: Row, d: Dimension): string {
    match d
    case Channel => r.channel
    case Kind => r.kind
    case StateName => r.stateName
    case Campaign => r.campaign
  }

  /** `data[column]` for a categorical column. */
  function Column(rows: seq<Row>, d: Dimension): (c: seq<string>)
    ensures |c| == |rows|
    ensures forall i :: 0 <= i < |rows| ==> c[i] == Field(rows[i], d)
  {
    seq(|rows|, i requires 0 <= i < |rows| => Field(rows[i], d))
  }

  /** The integer count columns that the metrics and the daily chart sum. */
  datatype Count = Impressions | Clicks | Conversions | Leads | Dqs | Appts

  /** Every `Appts` cell holds an integer, as it does once app.py:103 has run. */
  predicate Coerced(rows: seq<Row>) {
    forall i :: 0 <= i < |rows| ==> rows[i].appts.Whole?
  }

  function CountOf(r: Row, c: Count): int
    requires r.appts.Whole?
  {
    match c
    case Impressions => r.impressions
    case Clicks => r.clicks
    case Conversions => r.conversions
    case Leads => r.leads
    case Dqs => r.dqs
    case Appts => r.appts.n
  }

  /** `data[column].sum()` for one count column; 0 for no rows. */
  function Total(rows: seq<Row>, c: Count): int
    requires Coerced(rows)
  {
    if rows == [] then 0 else CountOf(rows[0], c) + Total(rows[1..], c)
  }

  /** One value per count column, as in a row of metrics or of `daily_sums`. */
  datatype Tally = Tally(impressions: int, clicks: int, conversions: int, leads: int, dqs: int, appts: int)
  {
    function Get(c: Count): int {
      match c
      case Impressions => impressions
      case Clicks => clicks
      case Conversions => conversions
      case Leads => leads
      case Dqs => dqs
      case Appts => appts
    }

    function Plus(other: Tally): (t: Tally)
      ensures forall c :: t.Get(c) == Get(c) + other.Get(c)
    {
      Tally(impressions + other.impressions, clicks + other.clicks, conversions + other.conversions,
            leads + other.leads, dqs + other.dqs, appts + other.appts)
    }
  }

  /** The counts of one row. */
  function Measures(r: Row): (t: Tally)
    requires r.appts.Whole?
    ensures forall c :: t.Get(c) == CountOf(r, c)
  {
    Tally(r.impressions, r.clicks, r.conversions, r.leads, r.dqs, r.appts.n)
  }

  /** Lines 96-104: the column totals shown by the metric widgets. */
  function Totals(rows: seq<Row>): (t: Tally)
    requires Coerced(rows)
    ensures forall c :: t.Get(c) == Total(rows, c)
  {
    Tally(Total(rows, Impressions), Total(rows, Clicks), Total(rows, Conversions),
          Total(rows, Leads), Total(rows, Dqs), Total(rows, Appts))
  }
}
