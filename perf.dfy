// The performance summary written by scripts/perf_summary.mjs: how many evaluated rows
// have matured, the per-horizon hit summaries, the drift signals and the latest
// matured rows.

module Perf {
  import opened Values
  import opened Dates
  import opened Order
  import opened History
  import opened Eval

  /**
   * `pickAsOfDate`: the fallback when it has the YYYY-MM-DD shape, else the date of the
   * last record in date order, else nothing. `dayText` prints a day as its key.
   */
  function PickAsOfDate(history: seq<Entry>, fallback: Option<string>, dayText: int -> string): (r: Option<string>)
    ensures fallback.Some? && IsIsoShape(fallback.value) ==> r == fallback
    ensures !(fallback.Some? && IsIsoShape(fallback.value)) ==> (r.None? <==> history == [])
    ensures !(fallback.Some? && IsIsoShape(fallback.value)) && history != [] ==>
      exists e :: e in history && r == Some(dayText(e.date)) && forall x :: x in history ==> x.date <= e.date
  {
    if fallback.Some? && IsIsoShape(fallback.value) then fallback
    else
      var sorted := SortBy(history, DateOf);
      if sorted == [] then None
      else
        var last := sorted[|sorted| - 1];
        SortedEnds(sorted, DateOf);
        SameMembers(sorted, history);
        Some(dayText(last.date))
  }

  /**
   * `horizonKeys.some((key) => row.horizons[key]?.hit !== null)`: some horizon's cell is
   * scored. A missing cell reads as `undefined`, which is not `null`, so it counts too.
   */
  predicate Matured(row: Row, hs: seq<int>)
  {
    exists i :: 0 <= i < |hs| && (hs[i] !in row.horizons || row.horizons[hs[i]].hit.Some?)
  }

  function MaturedIn(hs: seq<int>): Row -> bool
  {
    row => Matured(row, hs)
  }

  function PendingIn(hs: seq<int>): Row -> bool
  {
    row => !Matured(row, hs)
  }

  /** Filtering by a test and by its negation splits a sequence into two parts that together hold each element once. */
  lemma {:induction false} FilterPartition<T(!new)>(s: seq<T>, p: T -> bool, q: T -> bool)
    requires forall x :: q(x) == !p(x)
    ensures multiset(Filter(s, p)) + multiset(Filter(s, q)) == multiset(s)
    ensures |Filter(s, p)| + |Filter(s, q)| == |s|
  {
    if s != [] {
      FilterPartition(s[1..], p, q);
      assert s == [s[0]] + s[1..];
    }
  }

  /** One horizon's cell in the recent list: a verdict (pending when there is none), the return and the future date. */
  datatype RecentCell = RecentCell(verdict: string, returnPct: Option<real>, futureDate: Option<int>)

  datatype RecentRow = RecentRow(date: int, state: Value, expectation: Expectation, price: Option<real>,
                                 horizons: map<int, RecentCell>)

  /** `row.horizons[key] || {}` and the defaults of the recent list. */
  function RecentCellOf(row: Row, h: int): (r: RecentCell)
    ensures r.verdict != ""
    ensures h !in row.horizons ==> r == RecentCell("pending", None, None)
    ensures h in row.horizons && row.horizons[h].verdict != "" ==> r.verdict == row.horizons[h].verdict
    ensures h in row.horizons ==> r.returnPct == row.horizons[h].returnPct && r.futureDate == row.horizons[h].futureDate
  {
    if h !in row.horizons then RecentCell("pending", None, None)
    else
      var c := row.horizons[h];
      RecentCell(if c.verdict != "" then c.verdict else "pending", c.returnPct, c.futureDate)
  }

  function RecentCells(row: Row, hs: seq<int>): (m: map<int, RecentCell>)
    ensures forall h :: h in m <==> h in hs
    ensures forall h :: h in m ==> m[h] == RecentCellOf(row, h)
  {
    if hs == [] then map[]
    else RecentCells(row, hs[..|hs| - 1])[hs[|hs| - 1] := RecentCellOf(row, hs[|hs| - 1])]
  }

  function RecentRowOf(row: Row, hs: seq<int>): (r: RecentRow)
    ensures r.date == row.date && r.state == row.state && r.expectation == row.expectation && r.price == row.price
    ensures r.horizons == RecentCells(row, hs)
  {
    RecentRow(row.date, row.state, row.expectation, row.price, RecentCells(row, hs))
  }

  function MapRecent(rows: seq<Row>, hs: seq<int>): (r: seq<RecentRow>)
    ensures |r| == |rows|
    ensures forall i :: 0 <= i < |r| ==> r[i] == RecentRowOf(rows[i], hs)
  {
    seq(|rows|, i requires 0 <= i < |rows| => RecentRowOf(rows[i], hs))
  }

  /** The last twenty matured rows, newest first, as recent entries. */
  function RecentOf(matured: seq<Row>, hs: seq<int>): (r: seq<RecentRow>)
    ensures |r| <= 20 && |r| <= |matured|
    ensures |matured| <= 20 ==> |r| == |matured|
    ensures forall i :: 0 <= i < |r| ==> r[i] == RecentRowOf(matured[|matured| - 1 - i], hs)
  {
    MapRecent(Reverse(TakeLast(matured, 20)), hs)
  }

  datatype Maturity = Maturity(total: nat, matured: nat, pending: nat, ratio: real)

  datatype PerfSummary = PerfSummary(generatedAt: string, asOfDate: Option<string>, maturity: Maturity,
                                     byHorizon: map<int, HorizonSummary>, drift7: Value, drift14: Option<Value>,
                                     recent: seq<RecentRow>)

  /** The share of matured rows, or 0 when there are none. */
  function Ratio(part: nat, total: nat): (r: real)
    requires part <= total
    ensures total == 0 ==> r == 0.0
    ensures total > 0 ==> 0.0 <= r <= 1.0 && r == part as real / total as real
  {
    if total == 0 then 0.0
    else
      RatioBounds(part, total);
      part as real / total as real
  }

  /**
   * `buildPerfSummary`. The evaluation is the one of `computePredictionEvaluation` with
   * the same defaults; `drift` stands for `deriveDriftSignal`, and `now` for the clock.
   */
  function BuildPerfSummary(history: seq<Entry>, o: Options, asOfFallback: Option<string>, drift: int -> Value,
                            now: string, dayText: int -> string): (r: PerfSummary)
    ensures r.maturity.total == |history|
    ensures r.maturity.matured + r.maturity.pending == r.maturity.total
    ensures r.maturity.total == 0 ==> r.maturity.ratio == 0.0
    ensures r.maturity.total > 0 ==>
      0.0 <= r.maturity.ratio <= 1.0 && r.maturity.ratio == r.maturity.matured as real / r.maturity.total as real
    ensures |r.recent| <= 20 && |r.recent| <= r.maturity.matured
    ensures r.drift7 == drift(7)
    ensures r.drift14.Some? <==> 14 in SettingsOf(o).horizons
    ensures r.drift14.Some? ==> r.drift14.value == drift(14)
    ensures r.asOfDate == PickAsOfDate(history, asOfFallback, dayText)
    ensures r.generatedAt == now
  {
    var s := SettingsOf(o);
    var rows := EvalRows(SortBy(history, DateOf), s);
    var matured := Filter(rows, MaturedIn(s.horizons));
    var pending := Filter(rows, PendingIn(s.horizons));
    FilterPartition(rows, MaturedIn(s.horizons), PendingIn(s.horizons));
    PerfSummary(now, PickAsOfDate(history, asOfFallback, dayText),
                Maturity(|rows|, |matured|, |pending|, Ratio(|matured|, |rows|)),
                SummaryMap(rows, s.horizons, s),
                drift(7), if 14 in s.horizons then Some(drift(14)) else None,
                RecentOf(matured, s.horizons))
  }

  /** Every row of the evaluation is either matured or pending, never both, and nothing else is in either group. */
  lemma MaturityPartition(history: seq<Entry>, o: Options)
    ensures var s := SettingsOf(o); var rows := EvalRows(SortBy(history, DateOf), s);
      multiset(Filter(rows, MaturedIn(s.horizons))) + multiset(Filter(rows, PendingIn(s.horizons))) == multiset(rows)
      && forall row :: row in rows ==> (row in Filter(rows, MaturedIn(s.horizons)) <==> row !in Filter(rows, PendingIn(s.horizons)))
  {
    var s := SettingsOf(o);
    var rows := EvalRows(SortBy(history, DateOf), s);
    FilterPartition(rows, MaturedIn(s.horizons), PendingIn(s.horizons));
  }

  /** In the evaluation's rows every horizon has its cell, so a row has matured exactly when some horizon has a return. */
  lemma MaturedMeansReturn(sorted: seq<Entry>, s: Settings, i: nat)
    requires i < |sorted|
    ensures var row := EvalRows(sorted, s)[i];
      Matured(row, s.horizons) <==> exists h :: h in s.horizons && row.horizons[h].returnPct.Some?
  {
    var row := EvalRows(sorted, s)[i];
    if Matured(row, s.horizons) {
      var k :| 0 <= k < |s.horizons| && (s.horizons[k] !in row.horizons || row.horizons[s.horizons[k]].hit.Some?);
      ScoredMeansReturn(sorted, s, i, s.horizons[k]);
    }
    if exists h :: h in s.horizons && row.horizons[h].returnPct.Some? {
      var h :| h in s.horizons && row.horizons[h].returnPct.Some?;
      var k :| 0 <= k < |s.horizons| && s.horizons[k] == h;
      ScoredMeansReturn(sorted, s, i, h);
    }
  }

  /** The recent list of rows in ascending date order runs newest first. */
  lemma RecentOrder(matured: seq<Row>, hs: seq<int>)
    requires DatesAscending(matured)
    ensures var recent := RecentOf(matured, hs);
      forall i, j :: 0 <= i < j < |recent| ==> recent[i].date >= recent[j].date
  {
    var recent := RecentOf(matured, hs);
    forall i, j | 0 <= i < j < |recent|
      ensures recent[i].date >= recent[j].date
    {
      assert recent[i].date == matured[|matured| - 1 - i].date;
      assert recent[j].date == matured[|matured| - 1 - j].date;
    }
  }

  /**
   * The recent list of the summary is drawn from the matured rows of the evaluation, the
   * newest first: entry `i` is the `i`-th matured row counted from the end.
   */
  lemma RecentNewestFirst(history: seq<Entry>, o: Options, asOfFallback: Option<string>, drift: int -> Value,
                          now: string, dayText: int -> string)
    ensures var s := SettingsOf(o); var rows := EvalRows(SortBy(history, DateOf), s);
      var matured := Filter(rows, MaturedIn(s.horizons));
      var recent := BuildPerfSummary(history, o, asOfFallback, drift, now, dayText).recent;
      (forall i :: 0 <= i < |recent| ==> recent[i] == RecentRowOf(matured[|matured| - 1 - i], s.horizons))
      && forall i, j :: 0 <= i < j < |recent| ==> recent[i].date >= recent[j].date
  {
    var s := SettingsOf(o);
    var rows := EvalRows(SortBy(history, DateOf), s);
    var matured := Filter(rows, MaturedIn(s.horizons));
    assert BuildPerfSummary(history, o, asOfFallback, drift, now, dayText).recent == RecentOf(matured, s.horizons);
    RecentOfHistory(history, s);
  }

  lemma RecentOfHistory(history: seq<Entry>, s: Settings)
    ensures var recent := RecentOf(Filter(EvalRows(SortBy(history, DateOf), s), MaturedIn(s.horizons)), s.horizons);
      forall i, j :: 0 <= i < j < |recent| ==> recent[i].date >= recent[j].date
  {
    var rows := EvalRows(SortBy(history, DateOf), s);
    EvalRowsOrdered(history, s);
    assert DatesAscending(rows);
    FilterOrderedDates(rows, MaturedIn(s.horizons));
    RecentOrder(Filter(rows, MaturedIn(s.horizons)), s.horizons);
  }

  lemma MaturedMembers(rows: seq<Row>, hs: seq<int>)
    ensures forall row :: row in Filter(rows, MaturedIn(hs)) <==> row in rows && Matured(row, hs)
  {
    forall row
      ensures row in Filter(rows, MaturedIn(hs)) <==> row in rows && Matured(row, hs)
    {
      assert MaturedIn(hs)(row) == Matured(row, hs);
    }
  }

  predicate DatesAscending(rows: seq<Row>)
  {
    forall i, j :: 0 <= i < j < |rows| ==> rows[i].date <= rows[j].date
  }

  /** Filtering rows in ascending date order leaves them in ascending date order. */
  lemma {:induction false} FilterOrderedDates(rows: seq<Row>, p: Row -> bool)
    requires DatesAscending(rows)
    ensures DatesAscending(Filter(rows, p))
  {
    if rows != [] {
      var tail := rows[1..];
      assert DatesAscending(tail);
      FilterOrderedDates(tail, p);
      assert rows == [rows[0]] + tail;
      if p(rows[0]) {
        var f := Filter(rows, p);
        assert f == [rows[0]] + Filter(tail, p);
        forall k | 1 <= k < |f|
          ensures rows[0].date <= f[k].date
        {
          assert f[k] in Filter(tail, p);
          var j :| 0 <= j < |tail| && tail[j] == f[k];
        }
      }
    }
  }
}
