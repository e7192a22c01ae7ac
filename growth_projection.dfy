/**
 * The growth projection chart: horizons put in order 1, 3, 5 and 10 years (unknown horizons last),
 * one row per horizon with its spread, and the quick stats read from the last row.
 */
module GrowthProjection {
  import opened Wrappers
  import opened JsText
  import opened Schema
  import opened Ordering

  /** `order[period] || 5`. */
  function HorizonRank(period: string): (rank: nat)
    ensures 1 <= rank <= 5
    ensures rank == 4 <==> period == "10year"
    ensures rank == 5 <==> period !in KnownHorizons
  {
    match period
    case "1year" => 1
    case "3year" => 2
    case "5year" => 3
    case "10year" => 4
    case _ => 5
  }

  const KnownHorizons: set<string> := {"1year", "3year", "5year", "10year"}

  /** The comparator `rank(a) - rank(b)` sorts ascending, which is descending on the negated rank. */
  function NegatedRank(h: (string, Projection)): real {
    -(HorizonRank(h.0) as real)
  }

  /** `Object.entries(data).sort(...)`: ranks never decrease, nothing is lost or added. */
  function SortedHorizons(projections: seq<(string, Projection)>): (s: seq<(string, Projection)>)
    ensures |s| == |projections| && multiset(s) == multiset(projections)
    ensures forall i, j :: 0 <= i < j < |s| ==> HorizonRank(s[i].0) <= HorizonRank(s[j].0)
  {
    var s := SortDescending(projections, NegatedRank);
    assert forall i, j :: 0 <= i < j < |s| ==> NegatedRank(s[i]) >= NegatedRank(s[j]);
    s
  }

  /** Horizons of the same rank, such as several unknown ones, keep the order they came in. */
  lemma SortedHorizonsStable(projections: seq<(string, Projection)>, rank: nat)
    ensures WithKey(SortedHorizons(projections), NegatedRank, -(rank as real))
            == WithKey(projections, NegatedRank, -(rank as real))
  {
    SortDescendingStable(projections, NegatedRank, -(rank as real));
  }

  /** One point of the chart. */
  datatype Row = Row(period: string, conservative: real, expected: real, optimistic: real, range: real)

  function RowOf(h: (string, Projection)): Row {
    Row(ReplaceFirst(h.0, "year", "Y"), h.1.conservative, h.1.expected, h.1.optimistic,
        h.1.optimistic - h.1.conservative)
  }

  /** `chartData`: one row per horizon, in horizon order, with the spread between the outer cases. */
  function ChartRows(projections: seq<(string, Projection)>): (rows: seq<Row>)
    ensures |rows| == |projections|
    ensures forall i :: 0 <= i < |rows| ==>
              rows[i].range == rows[i].optimistic - rows[i].conservative
              && (rows[i].conservative, rows[i].expected, rows[i].optimistic)
                 == (SortedHorizons(projections)[i].1.conservative, SortedHorizons(projections)[i].1.expected,
                     SortedHorizons(projections)[i].1.optimistic)
    ensures forall i :: 0 <= i < |rows| ==> rows[i].period == ReplaceFirst(SortedHorizons(projections)[i].0, "year", "Y")
  {
    Map(SortedHorizons(projections), RowOf)
  }

  /** A horizon key `<n>year` is labelled `<n>Y`, whatever its digits. */
  lemma PeriodLabel(digits: string)
    requires forall k :: 0 <= k < |digits| ==> '0' <= digits[k] <= '9'
    ensures ReplaceFirst(digits + "year", "year", "Y") == digits + "Y"
  {
    ReplaceAfterDigits(digits, "year", "Y");
  }

  /** The three quick-stat figures. */
  datatype QuickStats = QuickStats(expected: real, optimistic: real, conservative: real)

  /** `chartData[chartData.length - 1]?.X || 0`: the last row's figures, or zeros without rows. */
  function QuickStatsOf(rows: seq<Row>): (q: QuickStats)
    ensures rows == [] ==> q == QuickStats(0.0, 0.0, 0.0)
    ensures rows != [] ==> q.expected == rows[|rows| - 1].expected
                           && q.optimistic == rows[|rows| - 1].optimistic
                           && q.conservative == rows[|rows| - 1].conservative
  {
    if rows == [] then QuickStats(0.0, 0.0, 0.0)
    else
      var last := rows[|rows| - 1];
      QuickStats(last.expected, last.optimistic, last.conservative)
  }

  /**
   * The tiles are labelled as ten-year figures, and they are when the horizons are the known ones
   * and the ten-year horizon is among them.
   */
  lemma QuickStatsAreTenYear(projections: seq<(string, Projection)>)
    requires DistinctKeys(projections)
    requires forall i :: 0 <= i < |projections| ==> projections[i].0 in KnownHorizons
    requires Lookup(projections, "10year").Some?
    ensures var h := Lookup(projections, "10year").value;
            QuickStatsOf(ChartRows(projections)) == QuickStats(h.expected, h.optimistic, h.conservative)
  {
    var s := SortedHorizons(projections);
    TenYearSortsLast(projections);
    var last := s[|s| - 1];
    assert last in multiset(projections);
    var m :| 0 <= m < |projections| && projections[m] == last;
    LookupDistinct(projections, m);
    assert ChartRows(projections)[|s| - 1] == RowOf(last);
  }

  lemma TenYearSortsLast(projections: seq<(string, Projection)>)
    requires forall i :: 0 <= i < |projections| ==> projections[i].0 in KnownHorizons
    requires Lookup(projections, "10year").Some?
    ensures |projections| > 0 && SortedHorizons(projections)[|projections| - 1].0 == "10year"
  {
    var s := SortedHorizons(projections);
    var h := Lookup(projections, "10year").value;
    var k :| 0 <= k < |projections| && projections[k] == ("10year", h);
    assert projections[k] in multiset(s);
    var j :| 0 <= j < |s| && s[j] == projections[k];
    var last := s[|s| - 1];
    assert last in multiset(projections);
    assert HorizonRank(last.0) >= HorizonRank(s[j].0) == 4;
  }

  /** An unknown horizon sorts after the ten-year one, so the tiles then show its figures instead. */
  lemma UnknownHorizonTakesTheTiles(projections: seq<(string, Projection)>, k: nat)
    requires k < |projections| && projections[k].0 !in KnownHorizons
    ensures HorizonRank(SortedHorizons(projections)[|projections| - 1].0) == 5
  {
    var s := SortedHorizons(projections);
    assert projections[k] in multiset(s);
    var j :| 0 <= j < |s| && s[j] == projections[k];
    assert HorizonRank(s[|s| - 1].0) >= HorizonRank(s[j].0);
  }
}
