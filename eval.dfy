// After-the-fact scoring of the A/B/C calls (src/ui/eval.js): each dated record's call
// is compared with the ETH spot price found on a later record about one horizon ahead.

module Eval {
  import opened Values
  import opened Dates
  import opened Order
  import opened History
  import opened Inputs

  // ---------------------------------------------------------------- expectation and verdict

  /** What a state predicts: A a rise, C a fall, anything else a range. */
  datatype Expectation = Up | Down | Range
  {
    function Label(): string
    {
      match this
      case Up => "up"
      case Down => "down"
      case Range => "range"
    }
  }

  /** `predictionExpectation`: a strict comparison with the strings "A" and "C". */
  function PredictionExpectation(state: Value): (r: Expectation)
    ensures r == Up <==> state == Str("A")
    ensures r == Down <==> state == Str("C")
    ensures r == Range <==> state != Str("A") && state != Str("C")
  {
    if state == Str("A") then Up else if state == Str("C") then Down else Range
  }

  /** A verdict: "hit", "miss" or "pending", and the hit flag (null while pending). */
  datatype Scored = Scored(verdict: string, hit: Option<bool>)

  /**
   * `scoreVerdict`: pending without a return; otherwise a rise hits when it reaches the
   * threshold, a fall when it reaches minus the threshold, a range when the move stays
   * within the threshold either way.
   */
  function ScoreVerdict(e: Expectation, returnPct: Option<real>, threshold: real): (r: Scored)
    ensures returnPct.None? <==> r == Scored("pending", None)
    ensures r.hit.Some? <==> returnPct.Some?
    ensures r.hit.Some? ==> r.verdict == (if r.hit.value then "hit" else "miss")
    ensures returnPct.Some? && e == Up ==> r.hit == Some(returnPct.value >= threshold)
    ensures returnPct.Some? && e == Down ==> r.hit == Some(returnPct.value <= -threshold)
    ensures returnPct.Some? && e == Range ==> r.hit == Some(-threshold <= returnPct.value <= threshold)
  {
    if returnPct.None? then Scored("pending", None)
    else
      var x := returnPct.value;
      var hit := match e
        case Up => x >= threshold
        case Down => x <= -threshold
        case Range => Abs(x) <= threshold;
      Scored(if hit then "hit" else "miss", Some(hit))
  }

  function Negate(x: Option<real>): Option<real>
  {
    if x.None? then None else Some(-x.value)
  }

  /** A fall is scored as the mirror of a rise, and a range call is symmetric in the move. */
  lemma ScoreMirror(x: Option<real>, t: real)
    ensures ScoreVerdict(Down, x, t) == ScoreVerdict(Up, Negate(x), t)
    ensures ScoreVerdict(Range, x, t) == ScoreVerdict(Range, Negate(x), t)
  {
  }

  /** A wider threshold never loses a range hit and never wins a rise or fall that missed. */
  lemma ScoreThresholdMonotone(x: real, t1: real, t2: real)
    requires t1 <= t2
    ensures ScoreVerdict(Range, Some(x), t1).hit == Some(true) ==> ScoreVerdict(Range, Some(x), t2).hit == Some(true)
    ensures ScoreVerdict(Up, Some(x), t1).hit == Some(false) ==> ScoreVerdict(Up, Some(x), t2).hit == Some(false)
    ensures ScoreVerdict(Down, Some(x), t1).hit == Some(false) ==> ScoreVerdict(Down, Some(x), t2).hit == Some(false)
  {
  }

  // ---------------------------------------------------------------- the future record

  /** The first index at or after `start` whose day is not before `target`, if any. */
  function FirstReaching(sorted: seq<Entry>, start: nat, target: int): (r: Option<nat>)
    ensures r.Some? ==> start <= r.value < |sorted| && sorted[r.value].date >= target
    ensures r.Some? ==> forall j :: start <= j < r.value ==> sorted[j].date < target
    ensures r.None? ==> forall j :: start <= j < |sorted| ==> sorted[j].date < target
    decreases |sorted| - start
  {
    if start >= |sorted| then None
    else if sorted[start].date >= target then Some(start)
    else FirstReaching(sorted, start + 1, target)
  }

  /**
   * `pickFutureRecord`: nothing without a target; otherwise the first record from `start`
   * on that is not before the target, unless it lies beyond the tolerance window.
   */
  function FutureRecord(sorted: seq<Entry>, start: nat, target: Option<int>, tolerance: int): (r: Option<Entry>)
    ensures target.None? ==> r.None?
    ensures r.Some? ==> target.Some? && target.value <= r.value.date <= target.value + tolerance
    ensures r.Some? ==> exists k :: start <= k < |sorted| && sorted[k] == r.value
  {
    if target.None? then None
    else
      match FirstReaching(sorted, start, target.value)
      case None => None
      case Some(k) => if sorted[k].date > target.value + tolerance then None else Some(sorted[k])
  }

  /**
   * On a date-sorted history the future record is found exactly when some record from
   * `start` on falls in the window [target, target + tolerance], and it is the first one.
   */
  lemma FutureRecordSorted(sorted: seq<Entry>, start: nat, target: int, tolerance: int)
    requires SortedBy(sorted, DateOf)
    ensures var r := FutureRecord(sorted, start, Some(target), tolerance);
      (r.Some? <==> exists k :: start <= k < |sorted| && target <= sorted[k].date <= target + tolerance)
      && (r.Some? ==>
            exists k :: start <= k < |sorted| && sorted[k] == r.value && forall j :: start <= j < k ==> sorted[j].date < target)
  {
    var f := FirstReaching(sorted, start, target);
    if f.Some? {
      var k := f.value;
      if sorted[k].date > target + tolerance {
        forall j | start <= j < |sorted|
          ensures !(target <= sorted[j].date <= target + tolerance)
        {
          if j >= k {
            assert DateOf(sorted[k]) <= DateOf(sorted[j]);
          }
        }
      }
    }
  }

  /** `pickFutureRecord` as the source writes it: a scan with an early return. */
  method PickFutureRecord(sorted: seq<Entry>, start: nat, target: Option<int>, tolerance: int) returns (r: Option<Entry>)
    ensures r == FutureRecord(sorted, start, target, tolerance)
  {
    if target.None? {
      return None;
    }
    var t := target.value;
    var latestAllowed := t + tolerance;
    var i := start;
    while i < |sorted|
      invariant start <= i
      invariant FirstReaching(sorted, i, t) == FirstReaching(sorted, start, t)
      decreases |sorted| - i
    {
      var date := sorted[i].date;
      if date < t {
        i := i + 1;
        continue;
      }
      if date > latestAllowed {
        return None;
      }
      return Some(sorted[i]);
    }
    return None;
  }

  // ---------------------------------------------------------------- settings

  /** The caller's options: empty horizons, absent thresholds or tolerance take the defaults. */
  datatype Options = Options(horizons: seq<int>, thresholds: Option<map<int, real>>, tolerance: Option<int>)

  datatype Settings = Settings(horizons: seq<int>, thresholds: map<int, real>, tolerance: int)

  /** Horizons 7 and 14 days, thresholds 5% and 8%, a tolerance of 2 days. */
  function SettingsOf(o: Options): (s: Settings)
    ensures s.horizons != []
    ensures o.horizons != [] ==> s.horizons == o.horizons
    ensures o.horizons == [] ==> s.horizons == [7, 14]
    ensures o.thresholds.None? ==> s.thresholds == map[7 := 5.0, 14 := 8.0]
    ensures o.thresholds.Some? ==> s.thresholds == o.thresholds.value
    ensures s.tolerance == (if o.tolerance.Some? then o.tolerance.value else 2)
  {
    Settings(if o.horizons != [] then o.horizons else [7, 14],
             if o.thresholds.Some? then o.thresholds.value else map[7 := 5.0, 14 := 8.0],
             if o.tolerance.Some? then o.tolerance.value else 2)
  }

  /** `thresholds[h] ?? 5`: a horizon without its own threshold uses 5%. */
  function ThresholdFor(thresholds: map<int, real>, h: int): (r: real)
    ensures h !in thresholds ==> r == 5.0
    ensures h in thresholds ==> r == thresholds[h]
  {
    if h in thresholds then thresholds[h] else 5.0
  }

  /** With the default thresholds a 7-day call needs 5%, a 14-day call 8%, and any other horizon 5%. */
  lemma DefaultThresholds(h: int)
    ensures var s := SettingsOf(Options([], None, None));
      ThresholdFor(s.thresholds, 7) == 5.0 && ThresholdFor(s.thresholds, 14) == 8.0
      && (h != 7 && h != 14 ==> ThresholdFor(s.thresholds, h) == 5.0)
  {
  }

  // ---------------------------------------------------------------- rows and cells

  /** The spot price when the input holds a number there. */
  function PriceOf(input: Record): (r: Option<real>)
    ensures r.Some? <==> "ethSpotPrice" in input && input["ethSpotPrice"].Num?
  {
    var v := Lookup(input, "ethSpotPrice");
    if v.Num? then Some(v.n) else None
  }

  /** `((futurePrice / price) - 1) * 100`, or null unless both prices are numbers and the first is not zero. */
  function ReturnPct(price: Option<real>, future: Option<real>): (r: Option<real>)
    ensures r.Some? <==> price.Some? && future.Some? && price.value != 0.0
    ensures r.Some? ==> price.value * (1.0 + r.value / 100.0) == future.value
  {
    if price.Some? && future.Some? && price.value != 0.0 then
      var q := future.value / price.value;
      assert price.value * q == future.value;
      Some((q - 1.0) * 100.0)
    else None
  }

  /** The state letter of the output, or `-` when it is missing or empty. */
  function StateOf(output: Record): (r: Value)
    ensures Truthy(r)
    ensures Truthy(Lookup(output, "state")) ==> r == output["state"]
  {
    var v := Lookup(output, "state");
    if Truthy(v) then v else Str("-")
  }

  /** `addDays(record.date, h)` on a record's day. */
  function TargetDay(date: int, h: int): (r: Option<int>)
    ensures r == Some(date + h)
  {
    var t := AddDays(Day(date), h);
    if t.Some? then ParseIsoDate(t.value) else None
  }

  /** One horizon's entry of a row. */
  datatype Cell = Cell(targetDate: Option<int>, futureDate: Option<int>, futurePrice: Option<real>,
                       returnPct: Option<real>, thresholdPct: real, verdict: string, hit: Option<bool>)

  /** One evaluated record. */
  datatype Row = Row(date: int, state: Value, expectation: Expectation, beta: Value, confidence: Value,
                     price: Option<real>, horizons: map<int, Cell>)

  /** The cell of record `idx` for horizon `h`. */
  function CellOf(sorted: seq<Entry>, idx: nat, h: int, s: Settings): (c: Cell)
    requires idx < |sorted|
    ensures c.targetDate == Some(sorted[idx].date + h)
    ensures c.thresholdPct == ThresholdFor(s.thresholds, h)
    ensures c.hit.Some? <==> c.returnPct.Some?
    ensures c.returnPct.Some? ==>
      c.futurePrice.Some? && c.futureDate.Some? && PriceOf(sorted[idx].input).Some? && PriceOf(sorted[idx].input).value != 0.0
    ensures c.futureDate.Some? ==>
      sorted[idx].date + h <= c.futureDate.value <= sorted[idx].date + h + s.tolerance
      && exists k :: idx < k < |sorted| && sorted[k].date == c.futureDate.value
  {
    var e := sorted[idx];
    var target := TargetDay(e.date, h);
    var future := FutureRecord(sorted, idx + 1, target, s.tolerance);
    var futurePrice := if future.Some? then PriceOf(future.value.input) else None;
    var ret := ReturnPct(PriceOf(e.input), futurePrice);
    var thr := ThresholdFor(s.thresholds, h);
    var scored := ScoreVerdict(PredictionExpectation(StateOf(e.output)), ret, thr);
    Cell(target, if future.Some? then Some(future.value.date) else None, futurePrice, ret, thr,
         scored.verdict, scored.hit)
  }

  /** The cells of record `idx`, keyed by horizon (a repeated horizon writes the same cell again). */
  function CellMap(sorted: seq<Entry>, idx: nat, hs: seq<int>, s: Settings): (m: map<int, Cell>)
    requires idx < |sorted|
    ensures forall h :: h in m <==> h in hs
    ensures forall h :: h in m ==> m[h] == CellOf(sorted, idx, h, s)
  {
    if hs == [] then map[]
    else CellMap(sorted, idx, hs[..|hs| - 1], s)[hs[|hs| - 1] := CellOf(sorted, idx, hs[|hs| - 1], s)]
  }

  /** The row of record `idx`. */
  function RowOf(sorted: seq<Entry>, idx: nat, s: Settings): (r: Row)
    requires idx < |sorted|
    ensures r.date == sorted[idx].date
    ensures r.state == StateOf(sorted[idx].output)
    ensures r.expectation == PredictionExpectation(r.state)
    ensures r.price == PriceOf(sorted[idx].input)
    ensures r.horizons == CellMap(sorted, idx, s.horizons, s)
  {
    var e := sorted[idx];
    var state := StateOf(e.output);
    Row(e.date, state, PredictionExpectation(state), Lookup(e.output, "beta"), Lookup(e.output, "confidence"),
        PriceOf(e.input), CellMap(sorted, idx, s.horizons, s))
  }

  /** One row per record of the sorted history, in that order. */
  function EvalRows(sorted: seq<Entry>, s: Settings): (r: seq<Row>)
    ensures |r| == |sorted|
    ensures forall i :: 0 <= i < |r| ==> r[i] == RowOf(sorted, i, s)
  {
    seq(|sorted|, i requires 0 <= i < |sorted| => RowOf(sorted, i, s))
  }

  /** The row of one record: its fields, then one cell per horizon in a loop. */
  method BuildRow(sorted: seq<Entry>, idx: nat, s: Settings) returns (row: Row)
    requires idx < |sorted|
    ensures row == RowOf(sorted, idx, s)
  {
    var e := sorted[idx];
    var state := StateOf(e.output);
    var cells: map<int, Cell> := map[];
    for i := 0 to |s.horizons|
      invariant cells == CellMap(sorted, idx, s.horizons[..i], s)
    {
      var h := s.horizons[i];
      var cell := BuildCell(sorted, idx, h, s);
      CellMapStep(sorted, idx, s.horizons, i, s);
      cells := cells[h := cell];
    }
    assert s.horizons[..|s.horizons|] == s.horizons;
    row := Row(e.date, state, PredictionExpectation(state), Lookup(e.output, "beta"),
               Lookup(e.output, "confidence"), PriceOf(e.input), cells);
  }

  /** The cell of one horizon: the target day, the future record found for it, the return and the verdict. */
  method BuildCell(sorted: seq<Entry>, idx: nat, h: int, s: Settings) returns (cell: Cell)
    requires idx < |sorted|
    ensures cell == CellOf(sorted, idx, h, s)
  {
    var e := sorted[idx];
    var target := TargetDay(e.date, h);
    var future := PickFutureRecord(sorted, idx + 1, target, s.tolerance);
    var futurePrice := if future.Some? then PriceOf(future.value.input) else None;
    var ret := ReturnPct(PriceOf(e.input), futurePrice);
    var thr := ThresholdFor(s.thresholds, h);
    var scored := ScoreVerdict(PredictionExpectation(StateOf(e.output)), ret, thr);
    cell := Cell(target, if future.Some? then Some(future.value.date) else None, futurePrice, ret,
                 thr, scored.verdict, scored.hit);
  }

  /** One more horizon writes its cell over the map of the earlier ones. */
  lemma CellMapStep(sorted: seq<Entry>, idx: nat, hs: seq<int>, i: nat, s: Settings)
    requires idx < |sorted| && i < |hs|
    ensures CellMap(sorted, idx, hs[..i + 1], s) == CellMap(sorted, idx, hs[..i], s)[hs[i] := CellOf(sorted, idx, hs[i], s)]
  {
    assert hs[..i + 1][..i] == hs[..i];
  }

  /** The rows are in ascending date order, one per record of the history. */
  lemma EvalRowsOrdered(history: seq<Entry>, s: Settings)
    ensures var sorted := SortBy(history, DateOf); var rows := EvalRows(sorted, s);
      |rows| == |history|
      && (forall i, j :: 0 <= i < j < |rows| ==> rows[i].date <= rows[j].date)
      && forall i :: 0 <= i < |rows| ==> rows[i].date == sorted[i].date && sorted[i] in history
  {
    var sorted := SortBy(history, DateOf);
    forall i | 0 <= i < |sorted|
      ensures sorted[i] in history
    {
      assert sorted[i] in multiset(sorted);
    }
    forall i, j | 0 <= i < j < |sorted|
      ensures sorted[i].date <= sorted[j].date
    {
      assert DateOf(sorted[i]) <= DateOf(sorted[j]);
    }
  }

  // ---------------------------------------------------------------- summary

  datatype Tally = Tally(total: nat, hit: nat)

  /** The per-state tallies of one horizon, for states A, B and C. */
  datatype StateTallies = StateTallies(a: Tally, b: Tally, c: Tally)

  datatype Counters = Counters(all: Tally, byState: StateTallies)

  datatype HorizonSummary = HorizonSummary(total: nat, hit: nat, accuracy: Option<real>, byState: StateTallies,
                                           thresholdPct: real)

  const NoTally := Tally(0, 0)
  const NoCounters := Counters(NoTally, StateTallies(NoTally, NoTally, NoTally))

  function Bump(t: Tally, hit: bool): Tally
  {
    Tally(t.total + 1, t.hit + BoolToNat(hit))
  }

  /** The row's cell for `h` has been scored (a missing cell is skipped). */
  predicate ScoredAt(row: Row, h: int)
  {
    h in row.horizons && row.horizons[h].hit.Some?
  }

  predicate HitAt(row: Row, h: int)
  {
    ScoredAt(row, h) && row.horizons[h].hit.value
  }

  /** One row's contribution to the counters of horizon `h`. */
  function CountStep(c: Counters, row: Row, h: int): Counters
  {
    if !ScoredAt(row, h) then c
    else
      var hit := row.horizons[h].hit.value;
      var st := c.byState;
      var st' :=
        if row.state == Str("A") then st.(a := Bump(st.a, hit))
        else if row.state == Str("B") then st.(b := Bump(st.b, hit))
        else if row.state == Str("C") then st.(c := Bump(st.c, hit))
        else st;
      Counters(Bump(c.all, hit), st')
  }

  function CountRows(rows: seq<Row>, h: int): Counters
  {
    if rows == [] then NoCounters
    else CountStep(CountRows(rows[..|rows| - 1], h), rows[|rows| - 1], h)
  }

  /** The number of rows whose cell for `h` is scored, and of those that hit. */
  function NumScored(rows: seq<Row>, h: int): nat
  {
    if rows == [] then 0 else NumScored(rows[..|rows| - 1], h) + BoolToNat(ScoredAt(rows[|rows| - 1], h))
  }

  function NumHits(rows: seq<Row>, h: int): nat
  {
    if rows == [] then 0 else NumHits(rows[..|rows| - 1], h) + BoolToNat(HitAt(rows[|rows| - 1], h))
  }

  /** The invariant of the counters: hits never exceed totals, and A, B and C together never exceed the total. */
  predicate CountersOk(c: Counters)
  {
    c.all.hit <= c.all.total
    && c.byState.a.hit <= c.byState.a.total
    && c.byState.b.hit <= c.byState.b.total
    && c.byState.c.hit <= c.byState.c.total
    && c.byState.a.total + c.byState.b.total + c.byState.c.total <= c.all.total
  }

  /** The counters count exactly the scored cells and their hits, and keep their invariant. */
  lemma {:induction false} CountRowsMeaning(rows: seq<Row>, h: int)
    ensures CountRows(rows, h).all == Tally(NumScored(rows, h), NumHits(rows, h))
    ensures CountersOk(CountRows(rows, h))
    ensures NumHits(rows, h) <= NumScored(rows, h) <= |rows|
    decreases |rows|
  {
    if rows != [] {
      CountRowsMeaning(rows[..|rows| - 1], h);
    }
  }

  /** The share of hits, or null when nothing was counted. */
  function Accuracy(hit: nat, total: nat): (r: Option<real>)
    requires hit <= total
    ensures r.None? <==> total == 0
    ensures r.Some? ==> 0.0 <= r.value <= 1.0 && r.value * total as real == hit as real
  {
    if total == 0 then None
    else
      RatioBounds(hit, total);
      Some(hit as real / total as real)
  }

  /** The summary of horizon `h` over the rows. */
  function SummaryOf(rows: seq<Row>, h: int, s: Settings): (r: HorizonSummary)
    ensures r.total == NumScored(rows, h) && r.hit == NumHits(rows, h)
    ensures r.accuracy.None? <==> r.total == 0
    ensures r.accuracy.Some? ==> r.accuracy.value == r.hit as real / r.total as real
    ensures r.thresholdPct == ThresholdFor(s.thresholds, h)
  {
    var c := CountRows(rows, h);
    CountRowsMeaning(rows, h);
    HorizonSummary(c.all.total, c.all.hit, Accuracy(c.all.hit, c.all.total), c.byState, ThresholdFor(s.thresholds, h))
  }

  /**
   * A summary never counts more hits than scored cells or more scored cells than rows; its
   * accuracy is the hit ratio, within [0, 1]; and the A, B and C totals fit in the total.
   */
  lemma SummaryBounds(rows: seq<Row>, h: int, s: Settings)
    ensures var r := SummaryOf(rows, h, s);
      r.hit <= r.total <= |rows|
      && (r.accuracy.Some? ==> 0.0 <= r.accuracy.value <= 1.0)
      && r.byState.a.total + r.byState.b.total + r.byState.c.total <= r.total
      && r.byState.a.hit <= r.byState.a.total && r.byState.b.hit <= r.byState.b.total
      && r.byState.c.hit <= r.byState.c.total
  {
    var c := CountRows(rows, h);
    CountRowsMeaning(rows, h);
    assert CountersOk(c);
    var r := SummaryOf(rows, h, s);
    assert r.byState == c.byState && r.total == c.all.total && r.hit == c.all.hit;
    assert r.accuracy == Accuracy(c.all.hit, c.all.total);
  }

  function SummaryMap(rows: seq<Row>, hs: seq<int>, s: Settings): (m: map<int, HorizonSummary>)
    ensures forall h :: h in m <==> h in hs
    ensures forall h :: h in m ==> m[h] == SummaryOf(rows, h, s)
  {
    if hs == [] then map[]
    else SummaryMap(rows, hs[..|hs| - 1], s)[hs[|hs| - 1] := SummaryOf(rows, hs[|hs| - 1], s)]
  }

  lemma SummaryMapSnoc(rows: seq<Row>, hs: seq<int>, i: nat, s: Settings)
    requires i < |hs|
    ensures SummaryMap(rows, hs[..i + 1], s) == SummaryMap(rows, hs[..i], s)[hs[i] := SummaryOf(rows, hs[i], s)]
  {
    assert hs[..i + 1][..i] == hs[..i];
  }

  /** The counters of one horizon, accumulated row by row. */
  method CountHorizon(rows: seq<Row>, h: int) returns (c: Counters)
    ensures c == CountRows(rows, h)
  {
    c := NoCounters;
    for i := 0 to |rows|
      invariant c == CountRows(rows[..i], h)
    {
      assert rows[..i + 1][..i] == rows[..i];
      c := CountStep(c, rows[i], h);
    }
    assert rows[..|rows|] == rows;
  }

  /** One horizon's summary: the counters of a pass over the rows, then the accuracy. */
  method SummarizeHorizon(rows: seq<Row>, h: int, s: Settings) returns (r: HorizonSummary)
    ensures r == SummaryOf(rows, h, s)
  {
    var c := CountHorizon(rows, h);
    CountRowsMeaning(rows, h);
    var accuracy := if c.all.total == 0 then None else Some(c.all.hit as real / c.all.total as real);
    r := HorizonSummary(c.all.total, c.all.hit, accuracy, c.byState, ThresholdFor(s.thresholds, h));
  }

  /** `sorted.map(...)`: one row per record, in order. */
  method BuildRows(sorted: seq<Entry>, s: Settings) returns (rows: seq<Row>)
    ensures rows == EvalRows(sorted, s)
  {
    rows := [];
    for idx := 0 to |sorted|
      invariant |rows| == idx
      invariant forall i :: 0 <= i < idx ==> rows[i] == RowOf(sorted, i, s)
    {
      var row := BuildRow(sorted, idx, s);
      rows := rows + [row];
    }
  }

  /** `computePredictionEvaluation`: the rows of the sorted history, then one summary per horizon. */
  method ComputePredictionEvaluation(history: seq<Entry>, o: Options) returns (rows: seq<Row>, summary: map<int, HorizonSummary>)
    ensures rows == EvalRows(SortBy(history, DateOf), SettingsOf(o))
    ensures summary == SummaryMap(rows, SettingsOf(o).horizons, SettingsOf(o))
  {
    var s := SettingsOf(o);
    rows := BuildRows(SortBy(history, DateOf), s);
    summary := map[];
    for i := 0 to |s.horizons|
      invariant summary == SummaryMap(rows, s.horizons[..i], s)
    {
      var r := SummarizeHorizon(rows, s.horizons[i], s);
      SummaryMapSnoc(rows, s.horizons, i, s);
      summary := summary[s.horizons[i] := r];
    }
    assert s.horizons[..|s.horizons|] == s.horizons;
  }

  /** In the evaluation's own rows every horizon has its cell, so a cell is scored exactly when it has a return. */
  lemma ScoredMeansReturn(sorted: seq<Entry>, s: Settings, i: nat, h: int)
    requires i < |sorted| && h in s.horizons
    ensures var row := EvalRows(sorted, s)[i];
      h in row.horizons && (ScoredAt(row, h) <==> row.horizons[h].returnPct.Some?)
  {
  }
}
