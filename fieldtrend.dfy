// Per-field trends over the stored history (src/ui/fieldTrend.js): the dated samples of
// one input field, a baseline picked one window back, and a numeric or boolean trend
// from that baseline to the latest sample.

module FieldTrend {
  import opened Values
  import opened Text
  import opened Dates
  import opened Order
  import opened History
  import opened Inputs

  // ---------------------------------------------------------------- samples

  /** One dated value of a field. */
  datatype Sample = Sample(date: int, value: Value)

  function SampleDate(x: Sample): int { x.date }

  /** `{ date: record.date, value: record.input[key] }` (an absent field reads as null). */
  function SampleOf(e: Entry, key: string): Sample
  {
    Sample(e.date, Lookup(e.input, key))
  }

  function OnOrBefore(day: int): Entry -> bool
  {
    (e: Entry) => e.date <= day
  }

  function HasValue(x: Sample): bool { x.value != Null }

  function SamplesOf(records: seq<Entry>, key: string): (r: seq<Sample>)
    ensures |r| == |records|
    ensures forall i :: 0 <= i < |r| ==> r[i] == SampleOf(records[i], key)
  {
    seq(|records|, i requires 0 <= i < |records| => SampleOf(records[i], key))
  }

  /**
   * `buildFieldSeries`: nothing when the current date does not parse; otherwise the
   * samples of the records dated on or before it whose field is set, in date order.
   */
  function BuildFieldSeries(history: seq<Entry>, current: DateKey, key: string): (r: seq<Sample>)
    ensures current.Unparsed? ==> r == []
    ensures SortedBy(r, SampleDate)
  {
    if current.Unparsed? then []
    else SortBy(Filter(SamplesOf(Filter(history, OnOrBefore(current.n)), key), HasValue), SampleDate)
  }

  /** The series holds exactly the set samples of the records on or before the current day. */
  lemma FieldSeriesMembers(history: seq<Entry>, current: DateKey, key: string, x: Sample)
    ensures x in BuildFieldSeries(history, current, key) <==>
      current.Day? && exists e :: e in history && e.date <= current.n && Lookup(e.input, key) != Null && x == SampleOf(e, key)
  {
    if current.Day? {
      var kept := Filter(history, OnOrBefore(current.n));
      var set_ := Filter(SamplesOf(kept, key), HasValue);
      SameMembers(SortBy(set_, SampleDate), set_);
      assert BuildFieldSeries(history, current, key) == SortBy(set_, SampleDate);
      if x in set_ {
        SeriesFromRecord(history, current.n, key, x);
      }
      if exists e :: e in history && e.date <= current.n && Lookup(e.input, key) != Null && x == SampleOf(e, key) {
        RecordInSeries(history, current.n, key, x);
      }
    }
  }

  lemma SeriesFromRecord(history: seq<Entry>, day: int, key: string, x: Sample)
    requires x in Filter(SamplesOf(Filter(history, OnOrBefore(day)), key), HasValue)
    ensures exists e :: e in history && e.date <= day && Lookup(e.input, key) != Null && x == SampleOf(e, key)
  {
    var kept := Filter(history, OnOrBefore(day));
    var samples := SamplesOf(kept, key);
    assert x in samples && HasValue(x);
    var i :| 0 <= i < |samples| && samples[i] == x;
    var e := kept[i];
    assert e in kept;
    assert OnOrBefore(day)(e);
    assert x == SampleOf(e, key);
  }

  lemma RecordInSeries(history: seq<Entry>, day: int, key: string, x: Sample)
    requires exists e :: e in history && e.date <= day && Lookup(e.input, key) != Null && x == SampleOf(e, key)
    ensures x in Filter(SamplesOf(Filter(history, OnOrBefore(day)), key), HasValue)
  {
    var e :| e in history && e.date <= day && Lookup(e.input, key) != Null && x == SampleOf(e, key);
    var kept := Filter(history, OnOrBefore(day));
    assert OnOrBefore(day)(e);
    assert e in kept;
    var i :| 0 <= i < |kept| && kept[i] == e;
    var samples := SamplesOf(kept, key);
    assert samples[i] == x;
    assert x in samples;
    assert HasValue(x);
  }

  // ---------------------------------------------------------------- windows

  /** A short and a long look-back, in days. */
  datatype Windows = Windows(short: int, long: int)

  /** The fields with their own look-back windows. */
  const WindowOverrides: map<string, Windows> := map[
    "dxy5d" := Windows(5, 21), "dxy3dUp" := Windows(5, 21), "us2yWeekBp" := Windows(7, 30),
    "fciUpWeeks" := Windows(30, 90), "etf1d" := Windows(3, 10), "etf5d" := Windows(7, 21),
    "etf10d" := Windows(10, 30), "stablecoin30d" := Windows(30, 90), "exchStableDelta" := Windows(7, 30),
    "exchBalanceTrend" := Windows(14, 45), "liquidationUsd" := Windows(3, 14), "crowdingIndex" := Windows(7, 30),
    "longWicks" := Windows(7, 21), "reverseFishing" := Windows(7, 21), "shortFailure" := Windows(7, 21),
    "mcapGrowth" := Windows(7, 30), "mcapElasticity" := Windows(7, 30), "floatDensity" := Windows(30, 90),
    "rsdScore" := Windows(30, 90), "mappingRatioDown" := Windows(30, 90), "lstcScore" := Windows(14, 60),
    "netIssuanceHigh" := Windows(14, 60), "trendMomentum" := Windows(7, 30), "divergence" := Windows(7, 30),
    "topo" := Windows(14, 45), "spectral" := Windows(14, 45), "roughPath" := Windows(14, 45),
    "deltaES" := Windows(7, 30), "rrpChange" := Windows(14, 45), "tgaChange" := Windows(14, 45),
    "srfChange" := Windows(14, 45), "ism" := Windows(45, 120), "distributionGateCount" := Windows(30, 90),
    "ethSpotPrice" := Windows(7, 30), "cexTvl" := Windows(14, 45)]

  /** `Math.round`: the nearest integer, halves rounded up. */
  function Round(x: real): (r: int)
    ensures x - 0.5 < r as real <= x + 0.5
  {
    (x + 0.5).Floor
  }

  /** Every override has a short window of at least 3 days and a long one at least 3 days longer. */
  lemma OverridesWellSpaced()
    ensures forall k :: k in WindowOverrides ==> 3 <= WindowOverrides[k].short && WindowOverrides[k].short + 3 <= WindowOverrides[k].long
  {
  }

  /**
   * `resolveWindows`: the override of the field, else a short window of the rounded
   * half-life (at least 3 days) and a long one of three half-lives (at least 3 days more).
   * `halfLife` stands for `resolveHalfLifeDays`.
   */
  function ResolveWindows(key: string, halfLife: string -> real): (r: Windows)
    ensures key in WindowOverrides ==> r == WindowOverrides[key]
    ensures key !in WindowOverrides ==> (r.short == MaxInt(3, Round(halfLife(key)))
      && r.long == MaxInt(r.short + 3, Round(halfLife(key) * 3.0)))
    ensures 3 <= r.short && r.short + 3 <= r.long
  {
    if key in WindowOverrides then
      OverridesWellSpaced();
      WindowOverrides[key]
    else
      var hl := halfLife(key);
      var short := MaxInt(3, Round(hl));
      Windows(short, MaxInt(short + 3, Round(hl * 3.0)))
  }

  // ---------------------------------------------------------------- baseline

  /** The last index below `k` whose day is on or before `cutoff`, if any. */
  function LastAtOrBefore(series: seq<Sample>, k: nat, cutoff: int): (r: Option<nat>)
    requires k <= |series|
    ensures r.Some? ==> r.value < k && series[r.value].date <= cutoff
    ensures r.Some? ==> forall j :: r.value < j < k ==> series[j].date > cutoff
    ensures r.None? ==> forall j :: 0 <= j < k ==> series[j].date > cutoff
  {
    if k == 0 then None
    else if series[k - 1].date <= cutoff then Some(k - 1)
    else LastAtOrBefore(series, k - 1, cutoff)
  }

  /**
   * `pickBaselineByWindow`: nothing for an unparsed current date or fewer than two
   * samples; otherwise the latest sample before the last one dated on or before
   * `window` days back, or else the first sample.
   */
  function BaselineByWindow(series: seq<Sample>, current: DateKey, window: int): (r: Option<Sample>)
    ensures r.None? <==> current.Unparsed? || |series| < 2
    ensures r.Some? ==> exists i :: 0 <= i < |series| - 1 && series[i] == r.value
    ensures r.Some? && r.value.date > current.n - window ==> r.value == series[0]
  {
    if current.Unparsed? || |series| < 2 then None
    else
      match LastAtOrBefore(series, |series| - 1, current.n - window)
      case Some(i) => Some(series[i])
      case None => Some(series[0])
  }

  /** The backward scan of the source. */
  method PickBaselineByWindow(series: seq<Sample>, current: DateKey, window: int) returns (r: Option<Sample>)
    ensures r == BaselineByWindow(series, current, window)
  {
    if current.Unparsed? || |series| < 2 {
      return None;
    }
    var cutoff := current.n - window;
    var idx := |series| - 2;
    while idx >= 0
      invariant -1 <= idx <= |series| - 2
      invariant LastAtOrBefore(series, idx + 1, cutoff) == LastAtOrBefore(series, |series| - 1, cutoff)
      decreases idx + 1
    {
      if series[idx].date <= cutoff {
        return Some(series[idx]);
      }
      idx := idx - 1;
    }
    return Some(series[0]);
  }

  // ---------------------------------------------------------------- direction and days

  datatype Direction = Up | Down | Flat | Flip
  {
    function Label(): string
    {
      match this
      case Up => "up"
      case Down => "down"
      case Flat => "flat"
      case Flip => "flip"
    }
  }

  /** `directionFromDelta`: flat within `epsilon` either way, else the sign of the change. */
  function DirectionFromDelta(delta: real, epsilon: real): (r: Direction)
    ensures r != Flip
    ensures r == Flat <==> Abs(delta) <= epsilon
    ensures r == Up <==> Abs(delta) > epsilon && delta > 0.0
    ensures r == Down <==> Abs(delta) > epsilon && delta <= 0.0
  {
    if Abs(delta) <= epsilon then Flat else if delta > 0.0 then Up else Down
  }

  /** A change and its negation point opposite ways (for a non-negative tolerance). */
  lemma DirectionAntisymmetric(delta: real, epsilon: real)
    requires epsilon >= 0.0
    ensures DirectionFromDelta(delta, epsilon) == Up <==> DirectionFromDelta(-delta, epsilon) == Down
    ensures DirectionFromDelta(delta, epsilon) == Flat <==> DirectionFromDelta(-delta, epsilon) == Flat
  {
  }

  /** `diffDays` between two midnights: the whole days from `earlier` to `later`, never negative. */
  function DiffDays(later: int, earlier: int): (r: nat)
    ensures later >= earlier ==> r == later - earlier
    ensures later < earlier ==> r == 0
  {
    if later >= earlier then later - earlier else 0
  }

  // ---------------------------------------------------------------- trends

  /** A field's trend; a `NoTrend` has no series and a flat direction. */
  datatype Trend =
    | NoTrend(key: string, sampleCount: nat, text: string)
    | NumberTrend(key: string, direction: Direction, windowDays: int, actualDays: nat, currentDate: int,
                  baselineDate: int, baselineValue: real, currentValue: real, delta: real, deltaPct: Option<real>,
                  sampleCount: nat, text: string, series: seq<real>)
    | BooleanTrend(key: string, direction: Direction, windowDays: int, actualDays: nat, currentDate: int,
                   baselineDate: int, baselineOn: bool, currentOn: bool, flips: nat, ratio: real,
                   sampleCount: nat, text: string, series: seq<real>)

  const TooFewSamples := "趋势样本不足"
  const NotApplicable := "趋势不适用"

  /**
   * `formatSigned`: a sign and the magnitude with `digits` decimals. `fixed` stands for
   * `Number.prototype.toFixed`, whose decimal rounding lies outside this model.
   */
  function FormatSigned(v: real, digits: nat, fixed: (real, nat) -> string): string
  {
    (if v > 0.0 then "+" else if v < 0.0 then "-" else "") + fixed(Abs(v), digits)
  }

  /** The first window, in order, whose baseline is not the latest sample's day. */
  function FirstBaseline(series: seq<Sample>, current: DateKey, windows: seq<int>, latestDate: int): (r: Option<(Sample, int)>)
    ensures r.Some? ==> (r.value.1 in windows && r.value.0.date != latestDate
      && BaselineByWindow(series, current, r.value.1) == Some(r.value.0))
    ensures r.None? ==> forall w :: w in windows ==>
      BaselineByWindow(series, current, w).None? || BaselineByWindow(series, current, w).value.date == latestDate
  {
    if windows == [] then None
    else
      var c := BaselineByWindow(series, current, windows[0]);
      if c.Some? && c.value.date != latestDate then Some((c.value, windows[0]))
      else
        var rest := FirstBaseline(series, current, windows[1..], latestDate);
        assert forall w :: w in windows ==> w == windows[0] || w in windows[1..];
        rest
  }

  /** The finite numbers among the values, in order. */
  function FiniteValues(series: seq<Sample>): (r: seq<real>)
    ensures |r| <= |series|
  {
    if series == [] then []
    else
      var front := FiniteValues(series[..|series| - 1]);
      match JsToNumber(series[|series| - 1].value)
      case Some(v) => front + [v]
      case None => front
  }

  /** `(delta / |baseline|) * 100`, or null for a baseline of magnitude 1e-9 or less. */
  function DeltaPct(delta: real, baseline: real): (r: Option<real>)
    ensures r.Some? <==> Abs(baseline) > 0.000000001
    ensures r.Some? ==> r.value * Abs(baseline) == delta * 100.0
  {
    if Abs(baseline) > 0.000000001 then Some((delta / Abs(baseline)) * 100.0) else None
  }

  function NumericText(dir: Direction, delta: real, pct: Option<real>, actualDays: nat, baselineDay: string,
                       fixed: (real, nat) -> string): string
  {
    "趋势 " + NatText(actualDays) + "D："
    + (if dir == Flat then "基本持平"
       else if pct.None? then (if dir == Up then "上行" else "下行") + " " + FormatSigned(delta, 4, fixed)
       else (if dir == Up then "上行" else "下行") + " " + FormatSigned(pct.value, 2, fixed) + "%")
    + "（基准 " + baselineDay + "）"
  }

  /**
   * `buildNumericTrend`: the baseline of the first window that yields one on another day
   * than the latest sample; nothing without one or when either value is not a number.
   */
  function NumericTrendOf(series: seq<Sample>, current: DateKey, key: string, windows: Windows,
                          fixed: (real, nat) -> string, dayText: int -> string): (r: Option<Trend>)
    ensures series == [] ==> r.None?
    ensures r.Some? ==> r.value.NumberTrend? && r.value.key == key && r.value.sampleCount == |series|
    ensures r.Some? ==> (r.value.currentDate == series[|series| - 1].date
      && r.value.baselineDate != r.value.currentDate
      && (r.value.windowDays == windows.short || r.value.windowDays == windows.long)
      && r.value.delta == r.value.currentValue - r.value.baselineValue
      && r.value.direction == DirectionFromDelta(r.value.delta, 0.00000001)
      && r.value.actualDays == DiffDays(r.value.currentDate, r.value.baselineDate)
      && |r.value.series| <= 24)
    ensures r.Some? ==> exists i :: 0 <= i < |series| - 1 && series[i].date == r.value.baselineDate
    ensures series != [] ==>
      (r.None? <==> var b := FirstBaseline(series, current, [windows.short, windows.long], series[|series| - 1].date);
        b.None? || JsToNumber(series[|series| - 1].value).None? || JsToNumber(b.value.0.value).None?)
  {
    if series == [] then None
    else
      var latest := series[|series| - 1];
      match FirstBaseline(series, current, [windows.short, windows.long], latest.date)
      case None => None
      case Some((baseline, used)) =>
        match (JsToNumber(latest.value), JsToNumber(baseline.value))
        case (Some(cur), Some(base)) =>
          var delta := cur - base;
          var pct := DeltaPct(delta, base);
          var dir := DirectionFromDelta(delta, 0.00000001);
          var days := DiffDays(latest.date, baseline.date);
          Some(NumberTrend(key, dir, used, days, latest.date, baseline.date, base, cur, delta, pct, |series|,
                           NumericText(dir, delta, pct, days, dayText(baseline.date), fixed),
                           TakeLast(FiniteValues(series), 24)))
        case _ => None
  }

  /** In a date-sorted series the numeric baseline lies strictly before the latest day, so the trend spans at least one day. */
  lemma NumericTrendSpansDays(series: seq<Sample>, current: DateKey, key: string, windows: Windows,
                              fixed: (real, nat) -> string, dayText: int -> string)
    requires SortedBy(series, SampleDate)
    ensures var r := NumericTrendOf(series, current, key, windows, fixed, dayText);
      r.Some? ==> (r.value.baselineDate < r.value.currentDate && r.value.actualDays == r.value.currentDate - r.value.baselineDate
        && r.value.actualDays > 0)
  {
    var r := NumericTrendOf(series, current, key, windows, fixed, dayText);
    if r.Some? {
      var i :| 0 <= i < |series| - 1 && series[i].date == r.value.baselineDate;
      assert SampleDate(series[i]) <= SampleDate(series[|series| - 1]);
    }
  }

  /** The loop of `buildNumericTrend` over the two windows, stopping at the first usable baseline. */
  method BuildNumericTrend(series: seq<Sample>, current: DateKey, key: string, windows: Windows,
                           fixed: (real, nat) -> string, dayText: int -> string) returns (r: Option<Trend>)
    ensures r == NumericTrendOf(series, current, key, windows, fixed, dayText)
  {
    if series == [] {
      return None;
    }
    var latest := series[|series| - 1];
    var ws := [windows.short, windows.long];
    var baseline: Option<Sample> := None;
    var used := ws[0];
    var k := 0;
    while k < |ws|
      invariant 0 <= k <= |ws|
      invariant baseline.None? ==> FirstBaseline(series, current, ws[k..], latest.date) == FirstBaseline(series, current, ws, latest.date)
      invariant baseline.Some? ==> FirstBaseline(series, current, ws, latest.date) == Some((baseline.value, used))
      decreases if baseline.Some? then 0 else |ws| - k + 1
    {
      if baseline.Some? {
        break;
      }
      var candidate := PickBaselineByWindow(series, current, ws[k]);
      if candidate.Some? && candidate.value.date != latest.date {
        baseline := candidate;
        used := ws[k];
      } else {
        k := k + 1;
      }
    }
    if baseline.None? {
      assert ws[|ws|..] == [];
      return None;
    }
    var b := baseline.value;
    var cur := JsToNumber(latest.value);
    var base := JsToNumber(b.value);
    if cur.None? || base.None? {
      return None;
    }
    var delta := cur.value - base.value;
    var pct := DeltaPct(delta, base.value);
    var dir := DirectionFromDelta(delta, 0.00000001);
    var days := DiffDays(latest.date, b.date);
    r := Some(NumberTrend(key, dir, used, days, latest.date, b.date, base.value, cur.value, delta, pct, |series|,
                          NumericText(dir, delta, pct, days, dayText(b.date), fixed),
                          TakeLast(FiniteValues(series), 24)));
  }

  /** The number of neighbouring pairs that differ. */
  function Flips(bs: seq<bool>): (r: nat)
    ensures bs != [] ==> r <= |bs| - 1
  {
    if |bs| < 2 then 0
    else Flips(bs[..|bs| - 1]) + (if bs[|bs| - 1] != bs[|bs| - 2] then 1 else 0)
  }

  /** An odd number of flips is exactly what takes the first value to a different last value. */
  lemma {:induction false} FlipsParity(bs: seq<bool>)
    requires bs != []
    ensures Flips(bs) % 2 == 1 <==> bs[0] != bs[|bs| - 1]
  {
    if |bs| >= 2 {
      var front := bs[..|bs| - 1];
      FlipsParity(front);
      assert front[0] == bs[0] && front[|front| - 1] == bs[|bs| - 2];
    }
  }

  /** The flips counter of `buildBooleanTrend`. */
  method CountFlips(bs: seq<bool>) returns (flips: nat)
    ensures flips == Flips(bs)
  {
    flips := 0;
    if |bs| < 2 {
      return;
    }
    var idx := 1;
    while idx < |bs|
      invariant 1 <= idx <= |bs|
      invariant flips == Flips(bs[..idx])
    {
      assert bs[..idx + 1][..idx] == bs[..idx];
      if bs[idx] != bs[idx - 1] {
        flips := flips + 1;
      }
      idx := idx + 1;
    }
    assert bs[..idx] == bs;
  }

  function CountTrue(bs: seq<bool>): (r: nat)
    ensures r <= |bs|
  {
    if bs == [] then 0 else CountTrue(bs[..|bs| - 1]) + (if bs[|bs| - 1] then 1 else 0)
  }

  /** `Boolean(item.value)` over the samples. */
  function Truths(series: seq<Sample>): (r: seq<bool>)
    ensures |r| == |series|
    ensures forall i :: 0 <= i < |r| ==> r[i] == Truthy(series[i].value)
  {
    seq(|series|, i requires 0 <= i < |series| => Truthy(series[i].value))
  }

  /** The first position of a point of that day, or none. */
  function FindDay(series: seq<Sample>, day: int): (r: Option<nat>)
    ensures r.Some? ==> (r.value < |series| && series[r.value].date == day
      && forall j :: 0 <= j < r.value ==> series[j].date != day)
    ensures r.None? ==> forall j :: 0 <= j < |series| ==> series[j].date != day
  {
    if series == [] then None
    else if series[0].date == day then Some(0)
    else match FindDay(series[1..], day)
      case Some(i) => Some(i + 1)
      case None => None
  }

  /** `(trueCount / length) * 100`, or 0 for an empty window. */
  function TrueRatio(bs: seq<bool>): (r: real)
    ensures 0.0 <= r <= 100.0
    ensures bs == [] ==> r == 0.0
  {
    if bs == [] then 0.0
    else
      RatioBounds(CountTrue(bs), |bs|);
      (CountTrue(bs) as real / |bs| as real) * 100.0
  }

  function YesNo(b: bool): string { if b then "是" else "否" }

  function BooleanText(changed: bool, baseline: bool, latest: bool, flips: nat, ratio: real, actualDays: nat,
                       fixed: (real, nat) -> string): string
  {
    if changed then "趋势 " + NatText(actualDays) + "D：" + YesNo(baseline) + "→" + YesNo(latest) + "（翻转 " + NatText(flips) + " 次）"
    else "趋势 " + NatText(actualDays) + "D：保持" + YesNo(latest) + "（触发占比 " + fixed(ratio, 0) + "%）"
  }

  /** The samples from the first one on the baseline's day on, as booleans. */
  function WindowTruths(series: seq<Sample>, baselineDay: int): (r: seq<bool>)
  {
    match FindDay(series, baselineDay)
    case Some(i) => Truths(series[i..])
    case None => Truths(series)
  }

  /**
   * `buildBooleanTrend`: the baseline of the short window; the flips and the share of
   * true values from the baseline's day on; a flip when baseline and latest differ.
   */
  function BooleanTrendOf(series: seq<Sample>, current: DateKey, key: string, windows: Windows,
                          fixed: (real, nat) -> string): (r: Option<Trend>)
    ensures r.Some? <==> current.Day? && |series| >= 2
    ensures r.Some? ==> (r.value.BooleanTrend? && r.value.key == key && r.value.windowDays == windows.short
      && r.value.sampleCount == |series| && r.value.currentOn == Truthy(series[|series| - 1].value)
      && r.value.currentDate == series[|series| - 1].date
      && 0.0 <= r.value.ratio <= 100.0
      && r.value.flips == Flips(WindowTruths(series, r.value.baselineDate))
      && (r.value.direction == Flip <==> r.value.baselineOn != r.value.currentOn)
      && (r.value.direction == Up <==> r.value.baselineOn == r.value.currentOn && r.value.currentOn)
      && |r.value.series| <= 24)
  {
    if series == [] then None
    else
      var latest := series[|series| - 1];
      var latestValue := Truthy(latest.value);
      match BaselineByWindow(series, current, windows.short)
      case None => None
      case Some(baseline) =>
        var baselineValue := Truthy(baseline.value);
        var days := DiffDays(latest.date, baseline.date);
        var window := WindowTruths(series, baseline.date);
        var flips := Flips(window);
        var ratio := TrueRatio(window);
        var changed := baselineValue != latestValue;
        var bits := TakeLast(window, 24);
        Some(BooleanTrend(key, if changed then Flip else if latestValue then Up else Down, windows.short, days,
                          latest.date, baseline.date, baselineValue, latestValue, flips, ratio, |series|,
                          BooleanText(changed, baselineValue, latestValue, flips, ratio, days, fixed),
                          seq(|bits|, i requires 0 <= i < |bits| => if bits[i] then 1.0 else 0.0)))
  }

  /**
   * When the baseline is the first sample of its day (always so with distinct days), the
   * window starts at the baseline's value and ends at the latest one, so the trend flips
   * exactly when the window holds an odd number of flips.
   */
  lemma FlipMeansOddFlips(series: seq<Sample>, current: DateKey, key: string, windows: Windows,
                          fixed: (real, nat) -> string)
    requires var r := BooleanTrendOf(series, current, key, windows, fixed);
      r.Some? && FindDay(series, r.value.baselineDate).Some?
      && series[FindDay(series, r.value.baselineDate).value].value == BaselineByWindow(series, current, windows.short).value.value
    ensures var r := BooleanTrendOf(series, current, key, windows, fixed);
      r.value.direction == Flip <==> r.value.flips % 2 == 1
  {
    var r := BooleanTrendOf(series, current, key, windows, fixed);
    var i := FindDay(series, r.value.baselineDate).value;
    var window := Truths(series[i..]);
    FlipsParity(window);
  }

  /**
   * `deriveFieldTrend`: too few samples below two; a numeric trend when the latest value
   * is a number, a boolean trend when it is a boolean (each falling back to too few
   * samples); not applicable otherwise.
   */
  function DeriveFieldTrend(history: seq<Entry>, current: DateKey, key: string, halfLife: string -> real,
                            fixed: (real, nat) -> string, dayText: int -> string): (r: Trend)
    ensures var series := BuildFieldSeries(history, current, key);
      r.sampleCount == |series|
      && r.key == key
      && (|series| < 2 ==> r == NoTrend(key, |series|, TooFewSamples))
      && (r.NumberTrend? ==> series[|series| - 1].value.Num?)
      && (r.BooleanTrend? ==> series[|series| - 1].value.Bool?)
      && (|series| >= 2 && series[|series| - 1].value.Bool? ==> r.BooleanTrend?)
      && (|series| >= 2 && !series[|series| - 1].value.Num? && !series[|series| - 1].value.Bool? ==>
            r == NoTrend(key, |series|, NotApplicable))
    ensures var series := BuildFieldSeries(history, current, key);
      var windows := ResolveWindows(key, halfLife);
      (r.NumberTrend? ==> NumericTrendOf(series, current, key, windows, fixed, dayText) == Some(r))
      && (|series| >= 2 && series[|series| - 1].value.Num? ==>
            r == (if NumericTrendOf(series, current, key, windows, fixed, dayText).Some?
                  then NumericTrendOf(series, current, key, windows, fixed, dayText).value
                  else NoTrend(key, |series|, TooFewSamples)))
      && (r.BooleanTrend? ==> BooleanTrendOf(series, current, key, windows, fixed) == Some(r))
  {
    var series := BuildFieldSeries(history, current, key);
    if |series| < 2 then NoTrend(key, |series|, TooFewSamples)
    else
      var latestValue := series[|series| - 1].value;
      var windows := ResolveWindows(key, halfLife);
      if latestValue.Num? then
        var numeric := NumericTrendOf(series, current, key, windows, fixed, dayText);
        if numeric.Some? then numeric.value else NoTrend(key, |series|, TooFewSamples)
      else if latestValue.Bool? then
        BooleanTrendOf(series, current, key, windows, fixed).value
      else NoTrend(key, |series|, NotApplicable)
  }

  /** `buildFieldTrendMap` as a function of the keys: each key maps to its trend. */
  function TrendMap(history: seq<Entry>, current: DateKey, keys: seq<string>, halfLife: string -> real,
                    fixed: (real, nat) -> string, dayText: int -> string): (m: map<string, Trend>)
    ensures forall k :: k in m <==> k in keys
    ensures forall k :: k in m ==> m[k] == DeriveFieldTrend(history, current, k, halfLife, fixed, dayText)
  {
    if keys == [] then map[]
    else TrendMap(history, current, keys[..|keys| - 1], halfLife, fixed, dayText)
           [keys[|keys| - 1] := DeriveFieldTrend(history, current, keys[|keys| - 1], halfLife, fixed, dayText)]
  }

  /** `buildFieldTrendMap`: fills the map key by key. */
  method BuildFieldTrendMap(history: seq<Entry>, current: DateKey, keys: seq<string>, halfLife: string -> real,
                            fixed: (real, nat) -> string, dayText: int -> string) returns (m: map<string, Trend>)
    ensures m == TrendMap(history, current, keys, halfLife, fixed, dayText)
  {
    m := map[];
    for i := 0 to |keys|
      invariant m == TrendMap(history, current, keys[..i], halfLife, fixed, dayText)
    {
      TrendMapStep(history, current, keys, i, halfLife, fixed, dayText);
      m := m[keys[i] := DeriveFieldTrend(history, current, keys[i], halfLife, fixed, dayText)];
    }
    assert keys[..|keys|] == keys;
  }

  /** One more key adds its trend to the map of the keys before it. */
  lemma TrendMapStep(history: seq<Entry>, current: DateKey, keys: seq<string>, i: nat, halfLife: string -> real,
                     fixed: (real, nat) -> string, dayText: int -> string)
    requires i < |keys|
    ensures TrendMap(history, current, keys[..i + 1], halfLife, fixed, dayText)
      == TrendMap(history, current, keys[..i], halfLife, fixed, dayText)[keys[i] := DeriveFieldTrend(history, current, keys[i], halfLife, fixed, dayText)]
  {
    assert keys[..i + 1][..i] == keys[..i];
  }

  // ---------------------------------------------------------------- prompt text

  /** `actualDays || windowDays`: the span in days, or the window when the span is zero. */
  function ShownDays(actualDays: nat, windowDays: int): int
  {
    if actualDays != 0 then actualDays else windowDays
  }

  function DirectionWord(d: Direction): string
  {
    if d == Up then "上行" else if d == Down then "下行" else "持平"
  }

  /**
   * `summarizeTrendForPrompt`: the one-line trend handed to the AI step. A trend of kind
   * none always reads as too few samples, whatever its own text says.
   */
  function SummarizeTrendForPrompt(t: Trend, fixed: (real, nat) -> string, dayText: int -> string): (r: string)
    ensures t.NoTrend? ==> r == TooFewSamples
    ensures t.NumberTrend? ==>
      StartsWith(r, IntText(ShownDays(t.actualDays, t.windowDays)) + "D " + DirectionWord(t.direction) + " ")
      && Contains(r, "（基准 " + dayText(t.baselineDate) + "）")
    ensures t.BooleanTrend? ==> r == IntText(ShownDays(t.actualDays, t.windowDays)) + "D " + t.text
  {
    match t
    case NoTrend(_, _, _) => TooFewSamples
    case NumberTrend(_, _, _, _, _, _, _, _, _, _, _, _, _) =>
      var head := IntText(ShownDays(t.actualDays, t.windowDays)) + "D " + DirectionWord(t.direction) + " ";
      var move := if t.deltaPct.Some? then FormatSigned(t.deltaPct.value, 2, fixed) + "%" else FormatSigned(t.delta, 4, fixed);
      var tail := "（基准 " + dayText(t.baselineDate) + "）";
      assert (head + move + tail)[..|head|] == head;
      ContainsAt(head + move + tail, tail, |head + move|);
      head + move + tail
    case BooleanTrend(_, _, _, _, _, _, _, _, _, _, _, _, _) =>
      IntText(ShownDays(t.actualDays, t.windowDays)) + "D " + t.text
  }

  /**
   * For a derived trend, the prompt line says too few samples below two samples, and a
   * numeric trend opens with its real span in days, which is never zero.
   */
  lemma DerivedPromptSpan(history: seq<Entry>, current: DateKey, key: string, halfLife: string -> real,
                          fixed: (real, nat) -> string, dayText: int -> string)
    ensures var t := DeriveFieldTrend(history, current, key, halfLife, fixed, dayText);
      var line := SummarizeTrendForPrompt(t, fixed, dayText);
      (|BuildFieldSeries(history, current, key)| < 2 ==> line == TooFewSamples)
      && (t.NumberTrend? ==> (t.actualDays > 0
            && StartsWith(line, NatText(t.actualDays) + "D " + DirectionWord(t.direction) + " ")))
  {
    var t := DeriveFieldTrend(history, current, key, halfLife, fixed, dayText);
    var series := BuildFieldSeries(history, current, key);
    if t.NumberTrend? {
      var windows := ResolveWindows(key, halfLife);
      assert t == NumericTrendOf(series, current, key, windows, fixed, dayText).value;
      NumericTrendSpansDays(series, current, key, windows, fixed, dayText);
    }
  }
}
