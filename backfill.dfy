// The history backfill script (scripts/backfill_history.mjs): its command line, the sample
// dates it replays, the status it reports, and the loop that collects, checks and stores
// one sample date after another.

module Backfill {
  import opened Values
  import opened Text
  import opened Order
  import opened Dates
  import opened History
  import opened Inputs
  import opened InputObjects

  // ---------------------------------------------------------------- command line

  /**
   * The options as the token loop leaves them: numeric options are `Number(...)` results
   * (`None` is NaN); `output` and `statusOutput` are the raw path texts.
   */
  datatype RawArgs = RawArgs(days: Option<real>, step: Option<real>, horizon: Option<real>, asOf: string,
                             output: string, statusOutput: string, timeoutSec: Option<real>, resume: bool)

  /** The default paths, relative to the repository root. */
  const DefaultOutput := "src/data/history.seed.json"
  const DefaultStatusOutput := "run/backfill_status.json"

  /** The defaults; `today` is the host clock's UTC date key. */
  function DefaultArgs(today: string): RawArgs
  {
    RawArgs(Some(365.0), Some(1.0), Some(14.0), today, DefaultOutput, DefaultStatusOutput, Some(600.0), true)
  }

  /** `Number(argv[++i] || current)`: a missing or empty value keeps the current number. */
  function NumberArg(next: string, current: Option<real>): Option<real>
  {
    if next == "" then current else JsNumber(next)
  }

  /** `argv[++i] || current` for a text option. */
  function TextArg(next: string, current: string): string
  {
    if next == "" then current else next
  }

  /** The token after position `i`, or "" (undefined) past the end. */
  function NextToken(argv: seq<string>, i: nat): string
  {
    if i + 1 < |argv| then argv[i + 1] else ""
  }

  /** The token loop from position `i` on: an option with a value consumes two tokens. */
  function ScanArgs(argv: seq<string>, i: nat, a: RawArgs): RawArgs
    decreases |argv| - i
  {
    if i >= |argv| then a
    else
      var t := argv[i];
      var next := NextToken(argv, i);
      if t == "--days" then ScanArgs(argv, i + 2, a.(days := NumberArg(next, a.days)))
      else if t == "--step" then ScanArgs(argv, i + 2, a.(step := NumberArg(next, a.step)))
      else if t == "--horizon" then ScanArgs(argv, i + 2, a.(horizon := NumberArg(next, a.horizon)))
      else if t == "--as-of" then ScanArgs(argv, i + 2, a.(asOf := TextArg(next, a.asOf)))
      else if t == "--output" then ScanArgs(argv, i + 2, a.(output := TextArg(next, a.output)))
      else if t == "--status-output" then ScanArgs(argv, i + 2, a.(statusOutput := TextArg(next, a.statusOutput)))
      else if t == "--timeout" then ScanArgs(argv, i + 2, a.(timeoutSec := NumberArg(next, a.timeoutSec)))
      else if t == "--no-resume" then ScanArgs(argv, i + 1, a.(resume := false))
      else ScanArgs(argv, i + 1, a)
  }

  /** The token loop of `parseArgs`. */
  method ScanArgv(argv: seq<string>, today: string) returns (a: RawArgs)
    ensures a == ScanArgs(argv, 0, DefaultArgs(today))
  {
    a := DefaultArgs(today);
    var i := 0;
    while i < |argv|
      invariant ScanArgs(argv, i, a) == ScanArgs(argv, 0, DefaultArgs(today))
      decreases |argv| - i
    {
      var token := argv[i];
      var next := NextToken(argv, i);
      if token == "--days" {
        a := a.(days := NumberArg(next, a.days));
        i := i + 1;
      } else if token == "--step" {
        a := a.(step := NumberArg(next, a.step));
        i := i + 1;
      } else if token == "--horizon" {
        a := a.(horizon := NumberArg(next, a.horizon));
        i := i + 1;
      } else if token == "--as-of" {
        a := a.(asOf := TextArg(next, a.asOf));
        i := i + 1;
      } else if token == "--output" {
        a := a.(output := TextArg(next, a.output));
        i := i + 1;
      } else if token == "--status-output" {
        a := a.(statusOutput := TextArg(next, a.statusOutput));
        i := i + 1;
      } else if token == "--timeout" {
        a := a.(timeoutSec := NumberArg(next, a.timeoutSec));
        i := i + 1;
      } else if token == "--no-resume" {
        a := a.(resume := false);
      }
      i := i + 1;
    }
  }

  /** The options after the final clean-up. */
  datatype Args = Args(days: int, step: int, horizon: int, asOf: string, output: string, statusOutput: string,
                       timeoutSec: int, resume: bool)

  /** A positive number rounded down; anything else gives the fallback. */
  function PositiveFloor(x: Option<real>, fallback: int): (r: int)
    ensures x.Some? && x.value > 0.0 ==> r == x.value.Floor && r >= 0 && r as real <= x.value < r as real + 1.0
    ensures !(x.Some? && x.value > 0.0) ==> r == fallback
  {
    if x.Some? && x.value > 0.0 then x.value.Floor else fallback
  }

  /** The clean-up of `parseArgs` as written: a step below 1 floors to 0. */
  function CleanArgsAsWritten(a: RawArgs): Args
  {
    Args(PositiveFloor(a.days, 365), PositiveFloor(a.step, 7), PositiveFloor(a.horizon, 14), a.asOf, a.output,
         a.statusOutput, PositiveFloor(a.timeoutSec, 600), a.resume)
  }

  /** `--step 0.5` passes the `> 0` test and floors to a step of 0, on which the date loop never ends. */
  lemma HalfStepFloorsToZero(today: string)
    ensures JsNumber("0.5") == Some(0.5)
    ensures CleanArgsAsWritten(ScanArgs(["--step", "0.5"], 0, DefaultArgs(today))).step == 0
  {
    assert JsTrim("0.5") == "0.5";
    assert IndexOf("0.5", '.') == 1;
    assert "0.5"[..1] == "0" && "0.5"[2..] == "5";
  }

  /** A step that floors below 1 falls back to 7, so the date loop always advances. */
  function StepOption(x: Option<real>): (r: int)
    ensures r >= 1
    ensures x.Some? && x.value >= 1.0 ==> r == x.value.Floor
    ensures !(x.Some? && x.value >= 1.0) ==> r == 7
  {
    if x.Some? && x.value >= 1.0 then x.value.Floor else 7
  }

  /** The clean-up with the step fixed; every other option as written. */
  function CleanArgs(a: RawArgs): (r: Args)
    ensures r.step >= 1 && r.days >= 0 && r.horizon >= 0 && r.timeoutSec >= 0
    ensures r == CleanArgsAsWritten(a).(step := r.step)
    ensures CleanArgsAsWritten(a).step >= 1 ==> r == CleanArgsAsWritten(a)
  {
    CleanArgsAsWritten(a).(step := StepOption(a.step))
  }

  /**
   * `parseArgs` as written: scan the tokens from the defaults, then floor every positive
   * number (so a step in (0, 1) becomes 0, see `HalfStepFloorsToZero`).
   */
  method ParseArgs(argv: seq<string>, today: string) returns (args: Args)
    ensures args == CleanArgsAsWritten(ScanArgs(argv, 0, DefaultArgs(today)))
    ensures args.days >= 0 && args.step >= 0 && args.horizon >= 0 && args.timeoutSec >= 0
  {
    var raw := ScanArgv(argv, today);
    args := CleanArgsAsWritten(raw);
  }

  /** Without options every default applies. */
  lemma DefaultsApply(today: string)
    ensures CleanArgsAsWritten(ScanArgs([], 0, DefaultArgs(today))) == Args(365, 1, 14, today, DefaultOutput, DefaultStatusOutput, 600, true)
  {
  }

  // ---------------------------------------------------------------- sample dates

  function KeyOrder(k: DateKey): int { if k.Day? then k.n else 0 }

  /** Every key of `s` is `k`. */
  predicate AllAre(s: seq<DateKey>, k: DateKey)
  {
    forall i :: 0 <= i < |s| ==> s[i] == k
  }

  /** Day keys in strictly increasing order. */
  predicate StrictDays(s: seq<DateKey>)
  {
    forall i, j :: 0 <= i < j < |s| ==> s[i].Day? && s[j].Day? && s[i].n < s[j].n
  }

  /** Day keys, none later than day `hi`. */
  predicate DaysAtMost(s: seq<DateKey>, hi: int)
  {
    forall i :: 0 <= i < |s| ==> s[i].Day? && s[i].n <= hi
  }

  /** Day keys, none earlier than day `lo`. */
  predicate DaysAtLeast(s: seq<DateKey>, lo: int)
  {
    forall i :: 0 <= i < |s| ==> s[i].Day? && lo <= s[i].n
  }

  /** The loop of `buildBackfillDates`: one date per `step` days from `days + horizon` days back to `horizon` days back. */
  method OffsetDates(days: int, asOf: DateKey, horizon: int, step: int) returns (pushed: seq<DateKey>)
    requires step >= 1
    ensures asOf.Unparsed? ==> AllAre(pushed, asOf)
    ensures asOf.Day? ==> StrictDays(pushed) && DaysAtMost(pushed, asOf.n - horizon) && DaysAtLeast(pushed, asOf.n - (days + horizon))
    ensures days >= 0 <==> pushed != []
    ensures asOf.Day? && pushed != [] ==> pushed[0] == Day(asOf.n - (days + horizon))
  {
    pushed := [];
    var offset := days + horizon;
    while offset >= horizon
      invariant offset <= days + horizon
      invariant OffsetShape(pushed, offset, days, asOf, horizon)
      decreases offset - horizon + 1
    {
      OffsetStep(pushed, offset, days, asOf, horizon, step);
      pushed := pushed + [IsoDaysAgo(offset, asOf)];
      offset := offset - step;
    }
  }

  /** What the loop of `buildBackfillDates` keeps while `offset` counts down. */
  predicate OffsetShape(pushed: seq<DateKey>, offset: int, days: int, asOf: DateKey, horizon: int)
  {
    (asOf.Unparsed? ==> AllAre(pushed, asOf))
    && (asOf.Day? ==> DaysAtMost(pushed, asOf.n - horizon) && DaysAtLeast(pushed, asOf.n - (days + horizon))
                      && DaysAtMost(pushed, asOf.n - offset - 1) && StrictDays(pushed))
    && (offset == days + horizon <==> pushed == [])
    && (days < 0 ==> pushed == [])
    && (asOf.Day? && pushed != [] ==> pushed[0] == Day(asOf.n - (days + horizon)))
  }

  /** One turn of that loop keeps its shape. */
  lemma OffsetStep(pushed: seq<DateKey>, offset: int, days: int, asOf: DateKey, horizon: int, step: int)
    requires step >= 1 && horizon <= offset <= days + horizon
    requires OffsetShape(pushed, offset, days, asOf, horizon)
    ensures OffsetShape(pushed + [IsoDaysAgo(offset, asOf)], offset - step, days, asOf, horizon)
  {
    var r := pushed + [IsoDaysAgo(offset, asOf)];
    if asOf.Day? {
      PushDay(pushed, asOf.n, offset, horizon, days);
    } else {
      assert forall i :: 0 <= i < |pushed| ==> r[i] == pushed[i];
    }
    assert pushed != [] ==> r[0] == pushed[0];
  }

  /** One step of the loop on a parsed key: the pushed day is later than every earlier one and in range. */
  lemma PushDay(pushed: seq<DateKey>, n: int, offset: int, horizon: int, days: int)
    requires horizon <= offset <= days + horizon
    requires DaysAtMost(pushed, n - horizon) && DaysAtLeast(pushed, n - (days + horizon))
    requires DaysAtMost(pushed, n - offset - 1) && StrictDays(pushed)
    ensures var r := pushed + [Day(n - offset)];
      DaysAtMost(r, n - horizon) && DaysAtLeast(r, n - (days + horizon)) && DaysAtMost(r, n - offset) && StrictDays(r)
  {
    var r := pushed + [Day(n - offset)];
    assert forall i :: 0 <= i < |pushed| ==> r[i] == pushed[i];
  }

  /** Appending the latest matured day, when it is missing, keeps the days strictly increasing. */
  lemma AppendMatured(s: seq<DateKey>, hi: int, lo: int)
    requires StrictDays(s) && DaysAtMost(s, hi) && DaysAtLeast(s, lo) && Day(hi) !in s && lo <= hi
    ensures StrictDays(s + [Day(hi)]) && DaysAtMost(s + [Day(hi)], hi) && DaysAtLeast(s + [Day(hi)], lo)
  {
    var r := s + [Day(hi)];
    forall i, j | 0 <= i < j < |r|
      ensures r[i].Day? && r[j].Day? && r[i].n < r[j].n
    {
      assert r[i] == s[i];
      if j == |s| {
        assert s[i] != Day(hi);
      } else {
        assert r[j] == s[j];
      }
    }
    assert forall i :: 0 <= i < |s| ==> r[i] == s[i];
  }

  /** `dates.sort((a, b) => a.localeCompare(b))`; dates already in order stay as they are. */
  function SortDates(s: seq<DateKey>): (r: seq<DateKey>)
    ensures SortedBy(r, KeyOrder) && multiset(r) == multiset(s)
    ensures SortedBy(s, KeyOrder) ==> r == s
  {
    if SortedBy(s, KeyOrder) then SortBySorted(s, KeyOrder); SortBy(s, KeyOrder) else SortBy(s, KeyOrder)
  }

  /** A non-empty run of copies of `k` holds `k`. */
  lemma AllAreHolds(s: seq<DateKey>, k: DateKey)
    requires AllAre(s, k)
    ensures s != [] ==> k in s
  {
    if s != [] {
      assert s[0] == k;
    }
  }

  /** Copies of one unparseable key, with one more copy when there is none. */
  lemma SameDateSorted(s: seq<DateKey>, k: DateKey)
    requires k.Unparsed? && AllAre(s, k)
    ensures SortedBy(s, KeyOrder)
  {
  }

  /** Strictly increasing days are sorted by day. */
  lemma StrictDaysSorted(s: seq<DateKey>)
    requires StrictDays(s)
    ensures SortedBy(s, KeyOrder)
  {
  }

  /**
   * `buildBackfillDates`: the loop's dates plus the latest matured date (`horizon` days
   * before `asOf`), sorted. An unparseable `asOf` comes back unchanged from every shift.
   */
  method BuildBackfillDates(days: int, asOf: DateKey, horizon: int, step: int) returns (dates: seq<DateKey>)
    requires step >= 1
    ensures asOf.Day? ==> StrictDays(dates) && DaysAtMost(dates, asOf.n - horizon)
    ensures asOf.Day? && days >= 0 ==> DaysAtLeast(dates, asOf.n - (days + horizon)) && dates != [] && dates[0] == Day(asOf.n - (days + horizon))
    ensures asOf.Unparsed? || Day(asOf.n - horizon) in dates
    ensures asOf.Unparsed? ==> dates != [] && AllAre(dates, asOf)
  {
    var pushed := OffsetDates(days, asOf, horizon, step);
    var latestMatured := IsoDaysAgo(horizon, asOf);
    if latestMatured !in pushed {
      MaturedStep(pushed, days, asOf, horizon);
      pushed := pushed + [latestMatured];
    }
    assert latestMatured in pushed;
    PushedSorted(pushed, days, asOf, horizon);
    dates := SortDates(pushed);
  }

  /** The shape of the pushed dates (see `OffsetDates`). */
  predicate PushedShape(s: seq<DateKey>, days: int, asOf: DateKey, horizon: int)
  {
    (asOf.Unparsed? ==> AllAre(s, asOf))
    && (asOf.Day? ==> StrictDays(s) && DaysAtMost(s, asOf.n - horizon))
    && (asOf.Day? && days >= 0 ==> DaysAtLeast(s, asOf.n - (days + horizon)) && s != [] && s[0] == Day(asOf.n - (days + horizon)))
  }

  /** Appending the latest matured date when it is missing keeps the shape. */
  lemma MaturedStep(s: seq<DateKey>, days: int, asOf: DateKey, horizon: int)
    requires PushedShape(s, days, asOf, horizon) && (days >= 0 <==> s != [])
    requires IsoDaysAgo(horizon, asOf) !in s
    ensures PushedShape(s + [IsoDaysAgo(horizon, asOf)], days, asOf, horizon)
  {
    var latest := IsoDaysAgo(horizon, asOf);
    if asOf.Unparsed? {
      AllAreHolds(s, asOf);
      assert s == [];
      assert AllAre([latest], asOf);
      assert s + [latest] == [latest];
    } else {
      AppendMatured(s, asOf.n - horizon, if days >= 0 then asOf.n - (days + horizon) else asOf.n - horizon);
      assert s != [] ==> (s + [latest])[0] == s[0];
    }
  }

  /** Pushed dates of that shape are already in order. */
  lemma PushedSorted(s: seq<DateKey>, days: int, asOf: DateKey, horizon: int)
    requires PushedShape(s, days, asOf, horizon)
    ensures SortedBy(s, KeyOrder)
  {
    if asOf.Day? {
      StrictDaysSorted(s);
    } else {
      SameDateSorted(s, asOf);
    }
  }

  // ---------------------------------------------------------------- status file

  /** The status object `buildBackfillStatus` writes; each entry a JSON value. */
  datatype Status = Status(status: Value, phase: Value, asOfDate: Value, days: Value, step: Value, horizon: Value,
                           startedAt: Value, finishedAt: Value, total: Value, processed: Value, added: Value,
                           skipped: Value, failed: Value, remaining: Value, currentDate: Value, failures: Value,
                           message: Value, output: Value, updatedAt: Value)

  /** A number as it is; anything else gives the fallback. */
  function FiniteOr(v: Value, fallback: Value): (r: Value)
    ensures v.Num? ==> r == v
    ensures !v.Num? ==> r == fallback
  {
    if v.Num? then v else fallback
  }

  /**
   * `buildBackfillStatus(base)`: every entry of `base` with its default: texts and stamps to
   * "idle", null or "", option numbers to null, counters to 0, failures to []; `now` is the
   * clock reading stored as `updatedAt`.
   */
  function BuildBackfillStatus(base: Record, now: Value): (r: Status)
    ensures Truthy(r.status) && Truthy(r.phase)
    ensures r.total.Num? && r.processed.Num? && r.added.Num? && r.skipped.Num? && r.failed.Num? && r.remaining.Num?
    ensures r.failures.Arr? && (Lookup(base, "failures").Arr? ==> r.failures == base["failures"])
    ensures r.message.Str? || Truthy(r.message)
    ensures !Truthy(Lookup(base, "status")) ==> r.status == Str("idle")
    ensures !Truthy(Lookup(base, "phase")) ==> r.phase == Str("idle")
    ensures Lookup(base, "processed").Num? ==> r.processed == base["processed"]
    ensures !Lookup(base, "processed").Num? ==> r.processed == Num(0.0)
    ensures r.updatedAt == now
  {
    Status(Or(Lookup(base, "status"), Str("idle")), Or(Lookup(base, "phase"), Str("idle")),
      Or(Lookup(base, "asOfDate"), Null),
      FiniteOr(Lookup(base, "days"), Null), FiniteOr(Lookup(base, "step"), Null), FiniteOr(Lookup(base, "horizon"), Null),
      Or(Lookup(base, "startedAt"), Null), Or(Lookup(base, "finishedAt"), Null),
      FiniteOr(Lookup(base, "total"), Num(0.0)), FiniteOr(Lookup(base, "processed"), Num(0.0)),
      FiniteOr(Lookup(base, "added"), Num(0.0)), FiniteOr(Lookup(base, "skipped"), Num(0.0)),
      FiniteOr(Lookup(base, "failed"), Num(0.0)), FiniteOr(Lookup(base, "remaining"), Num(0.0)),
      Or(Lookup(base, "currentDate"), Null),
      if Lookup(base, "failures").Arr? then base["failures"] else Arr([]),
      Or(Lookup(base, "message"), Str("")), Or(Lookup(base, "output"), Null), now)
  }

  /** A failed sample date: the stage, the kind, the missing keys (validation only) and the message. */
  datatype Failure = Failure(date: int, stage: string, kind: string, missing: Option<seq<string>>, error: string)

  /** One status snapshot the loop writes: the counters, the current date and the last 200 failures. */
  datatype Progress = Progress(status: string, phase: string, total: nat, processed: nat, added: nat, skipped: nat,
                               failed: nat, remaining: int, currentDate: Option<int>, failures: seq<Failure>,
                               message: string)

  /** The counters of a snapshot add up and `remaining` is what is left of `total`. */
  predicate Consistent(p: Progress, total: nat)
  {
    p.total == total && p.processed == p.added + p.skipped + p.failed && p.processed <= total
    && p.remaining == total - p.processed && |p.failures| <= 200
  }

  function FailureValue(f: Failure): Value
  {
    Obj(map["date" := Num(f.date as real), "stage" := Str(f.stage), "kind" := Str(f.kind), "error" := Str(f.error)]
        + (if f.missing.Some? then map["missing" := Arr(StrValues(f.missing.value))] else map[]))
  }

  function StrValues(s: seq<string>): (r: seq<Value>)
    ensures |r| == |s| && forall i :: 0 <= i < |s| ==> r[i] == Str(s[i])
  {
    if s == [] then [] else [Str(s[0])] + StrValues(s[1..])
  }

  function FailureValues(s: seq<Failure>): (r: seq<Value>)
    ensures |r| == |s|
  {
    if s == [] then [] else [FailureValue(s[0])] + FailureValues(s[1..])
  }

  /**
   * The object passed to `writeBackfillStatus` for one snapshot; `run` holds the option
   * values (as-of key, days, step, horizon, start stamp, output path) common to all of them.
   */
  function ProgressBase(p: Progress, run: Record): Record
  {
    run + map["status" := Str(p.status), "phase" := Str(p.phase), "total" := Num(p.total as real),
              "processed" := Num(p.processed as real), "added" := Num(p.added as real),
              "skipped" := Num(p.skipped as real), "failed" := Num(p.failed as real),
              "remaining" := Num(p.remaining as real),
              "currentDate" := if p.currentDate.Some? then Num(p.currentDate.value as real) else Null,
              "failures" := Arr(FailureValues(p.failures)), "message" := Str(p.message)]
  }

  /** The status written for a snapshot carries its counters unchanged. */
  lemma StatusKeepsCounters(p: Progress, run: Record, now: Value)
    ensures var r := BuildBackfillStatus(ProgressBase(p, run), now);
      r.processed == Num(p.processed as real) && r.added == Num(p.added as real) && r.skipped == Num(p.skipped as real)
  {
    var b := ProgressBase(p, run);
    assert b["processed"] == Num(p.processed as real);
    assert b["added"] == Num(p.added as real);
    assert b["skipped"] == Num(p.skipped as real);
  }

  /** ... and its failure count, what remains, the total and the failure rows. */
  lemma StatusKeepsTotals(p: Progress, run: Record, now: Value)
    ensures var r := BuildBackfillStatus(ProgressBase(p, run), now);
      r.failed == Num(p.failed as real) && r.remaining == Num(p.remaining as real) && r.total == Num(p.total as real)
      && |r.failures.items| == |p.failures|
  {
    var b := ProgressBase(p, run);
    assert b["failed"] == Num(p.failed as real);
    assert b["remaining"] == Num(p.remaining as real);
    assert b["total"] == Num(p.total as real);
    assert b["failures"] == Arr(FailureValues(p.failures));
  }

  // ---------------------------------------------------------------- one sample date

  /** What `runCollectorForDate` yields: the payload, or the message of the error it throws. */
  datatype CollectResult = Collected(payload: Received) | Threw(message: string)

  /**
   * The parts of one collection that lie outside this model: the collector process, the
   * date key text of a day, the price seed, the clock, the half-life helpers and the
   * decision run (`deriveDriftSignal`, `latestRecordBefore` and `runPipeline`).
   */
  datatype DayContext = DayContext(
    collect: int -> CollectResult,
    dayText: int -> string,
    priceByDate: Option<map<string, Value>>,
    now: Value,
    gate: (Doc, int) -> Doc,
    pick: (seq<Entry>, int) -> Picker,
    classify: Classifier,
    run: (Doc, int, seq<Entry>, Option<Entry>) -> Record)

  /** The metadata of a bare copy of `payload.data`. */
  const BlankMeta := Meta(None, None, None, None, None, [], [], Null, Null)

  /**
   * The input for one date: normalise the payload's data, copy its metadata, coerce the
   * schema fields, fill the price from the seed, apply the half-life gate, backfill from
   * history and recompute `__missing`.
   */
  function PreparedInput(ctx: DayContext, p: Received, history: seq<Entry>, date: int): (r: Doc)
    ensures r.meta.missing == MissingFieldsOf(r.fields, Some(KeysOf(ScriptSchema)))
  {
    var d1 := HydrateMetadata(Doc(NormalizeForScripts(OrEmpty(p.data), history, Day(date)), BlankMeta), p);
    var d2 := d1.(fields := CoercedFields(ScriptSchema, d1.fields));
    var d3 := SeedFilled(d2, ctx.priceByDate, ctx.dayText(date), ctx.now).0;
    var d4 := ctx.gate(d3, date);
    var d5 := Backfilled(BackfillScript, ScriptSchema, ctx.pick(history, date), ctx.classify, d4).0;
    d5.(meta := d5.meta.(missing := MissingFieldsOf(d5.fields, Some(KeysOf(ScriptSchema)))))
  }

  /** The same steps, in place on one input object. */
  method PrepareInput(ctx: DayContext, p: Received, history: seq<Entry>, date: int) returns (doc: Doc)
    ensures doc == PreparedInput(ctx, p, history, date)
  {
    var input := new InputObject(Doc(NormalizeForScripts(OrEmpty(p.data), history, Day(date)), BlankMeta));
    input.HydrateFromPayload(p);
    input.CoerceInputTypes(ScriptSchema);
    var _ := input.FillEthSpotPriceFromSeed(ctx.priceByDate, ctx.dayText(date), ctx.now);
    var gated := ctx.gate(input.Current(), date);
    input.fields, input.meta := gated.fields, gated.meta;
    var _ := input.BackfillMissingFromHistory(BackfillScript, ScriptSchema, ctx.pick(history, date), ctx.classify);
    var _ := input.RefreshMissingFields(Some(KeysOf(ScriptSchema)));
    doc := input.Current();
  }

  const HalfLifeMark := "半衰期拦截"

  /** The failure row for an input that does not validate. */
  function ValidationFailure(date: int, doc: Doc, errors: seq<string>): (r: Failure)
    ensures r.date == date && r.stage == "validate" && r.missing.Some? && |r.missing.value| <= 12
    ensures r.kind == "half-life" <==> exists e :: e in doc.meta.errors && Contains(e, HalfLifeMark)
    ensures r.kind == "half-life" || r.kind == "missing"
  {
    var stale := exists e :: e in doc.meta.errors && Contains(e, HalfLifeMark);
    Failure(date, "validate", if stale then "half-life" else "missing", Some(Take(doc.meta.missing, 12)),
            "字段不完整: " + Join(Take(errors, 4), " | "))
  }

  /** The failure row for a collector that threw; an empty message reads "未知错误". */
  function CollectorFailure(date: int, message: string): (r: Failure)
    ensures r.date == date && r.stage == "collector" && r.kind == "upstream" && r.missing.None?
    ensures r.error == (if message == "" then "未知错误" else message)
  {
    Failure(date, "collector", "upstream", None, if message == "" then "未知错误" else message)
  }

  // ---------------------------------------------------------------- the collector's output file

  /** A file, by its directory and its name. */
  datatype FilePath = FilePath(dir: string, name: string)

  /** The one file that `main` of scripts/collector.py writes, relative to the root it runs in. */
  function CollectorOutput(root: string): FilePath
  {
    FilePath(root + "/src/data", "auto.json")
  }

  /**
   * The files a collector run leaves behind as shipped: its payload in `src/data/auto.json`
   * and nowhere else. The `--output` path it is given is never written.
   */
  function ShippedCollectorFiles(root: string, payload: Received): map<FilePath, Received>
  {
    map[CollectorOutput(root) := payload]
  }

  /**
   * The files a collector that honours `--output` would leave: its payload at that path,
   * where the caller reads it back.
   */
  function IntendedCollectorFiles(output: FilePath, payload: Received): (r: map<FilePath, Received>)
    ensures ReadOutput(r, output) == Collected(payload)
  {
    map[output := payload]
  }

  /** The temporary file that one attempt of `runCollectorForDate` passes as `--output`. */
  function HistOutputPath(tmpdir: string, dayText: string, ms: nat, attempt: nat): FilePath
  {
    FilePath(tmpdir, "eth-a-hist-" + dayText + "-" + NatText(ms) + "-" + NatText(attempt) + ".json")
  }

  /** Reading the output file back after the run: its payload, or the error for a missing file. */
  function ReadOutput(files: map<FilePath, Received>, path: FilePath): (r: CollectResult)
    ensures r.Collected? <==> path in files
    ensures r.Collected? ==> r.payload == files[path]
  {
    if path in files then Collected(files[path])
    else Threw("ENOENT: no such file or directory, open '" + path.dir + "/" + path.name + "'")
  }

  /**
   * As shipped, no attempt ever reads a payload: the collector writes `auto.json`, and the
   * temporary file the caller reads has a longer name, so it is a different file.
   */
  lemma ShippedOutputNeverRead(root: string, payload: Received, tmpdir: string, dayText: string, ms: nat, attempt: nat)
    ensures ReadOutput(ShippedCollectorFiles(root, payload), HistOutputPath(tmpdir, dayText, ms, attempt)).Threw?
  {
    var path := HistOutputPath(tmpdir, dayText, ms, attempt);
    assert |path.name| > |CollectorOutput(root).name|;
    assert path !in ShippedCollectorFiles(root, payload);
  }

  /**
   * The retry loop of `runCollectorForDate`: up to three attempts, the first payload read
   * back wins, and when all three fail the last attempt's error is thrown.
   */
  method CollectWithRetries(attempt: nat -> CollectResult) returns (r: CollectResult)
    ensures r.Collected? <==> attempt(0).Collected? || attempt(1).Collected? || attempt(2).Collected?
    ensures r.Collected? ==>
      r == (if attempt(0).Collected? then attempt(0) else if attempt(1).Collected? then attempt(1) else attempt(2))
    ensures r.Threw? ==> r == attempt(2)
  {
    var last: Option<CollectResult> := None;
    var i := 0;
    while i <= 2
      invariant 0 <= i <= 3
      invariant forall j :: 0 <= j < i ==> attempt(j).Threw?
      invariant i == 0 ==> last.None?
      invariant i > 0 ==> last == Some(attempt(i - 1))
    {
      var result := attempt(i);
      if result.Collected? {
        return result;
      }
      last := Some(result);
      i := i + 1;
    }
    r := if last.Some? then last.value else Threw("collector failed");
  }

  // ---------------------------------------------------------------- the sample loop

  /** The loop state: the history, the failure list, the counters and the snapshots written. */
  datatype RunState = RunState(history: seq<Entry>, failures: seq<Failure>, added: nat, skipped: nat, failed: nat,
                               processed: nat, log: seq<Progress>)

  function Snapshot(st: RunState, total: nat, phase: string, date: Option<int>, message: string): (p: Progress)
  {
    Progress("running", phase, total, st.processed, st.added, st.skipped, st.failed, MaxInt(0, total - st.processed),
             date, TakeLast(st.failures, 200), message)
  }

  /** Some record of `history` has that date. */
  predicate HasDate(history: seq<Entry>, date: int)
  {
    exists e :: e in history && e.date == date
  }

  /** Some failure row has that date. */
  predicate FailedOn(failures: seq<Failure>, date: int)
  {
    exists f :: f in failures && f.date == date
  }

  /**
   * After the dates `done`: the counters add up, the history is sorted and holds the
   * starting records, every record it gained is a valid input of a processed date that
   * the starting history had no record for, every processed date has a record or a failure
   * row, and every snapshot is consistent.
   */
  ghost predicate Good(st: RunState, start: seq<Entry>, done: seq<int>, total: nat)
  {
    st.processed == |done| == st.added + st.skipped + st.failed
    && |done| <= total && |st.failures| == st.failed
    && HistoryOk(st.history, start, done, st.added)
    && Covered(st.history, st.failures, done)
    && (forall p :: p in st.log ==> Consistent(p, total))
  }

  /** Sorted, holding the starting records, and gaining only valid records of processed dates new to it. */
  ghost predicate HistoryOk(history: seq<Entry>, start: seq<Entry>, done: seq<int>, added: nat)
  {
    SortedBy(history, DateOf)
    && multiset(start) <= multiset(history) && |history| == |start| + added
    && (forall e :: e in history && e !in start ==>
          e.date in done && ValidFields(ScriptSchema, e.input) && !HasDate(start, e.date))
  }

  /** Every processed date has a record or a failure row, and every failure row is of a processed date. */
  ghost predicate Covered(history: seq<Entry>, failures: seq<Failure>, done: seq<int>)
  {
    (forall d :: d in done ==> HasDate(history, d) || FailedOn(failures, d))
    && (forall f :: f in failures ==> f.date in done)
  }

  /** A history that holds every starting record still has each starting date. */
  lemma KeepsDates(start: seq<Entry>, history: seq<Entry>)
    requires multiset(start) <= multiset(history)
    ensures forall e :: e in start ==> e in history
  {
    forall e | e in start
      ensures e in history
    {
      assert e in multiset(start);
    }
  }

  /** A date already in the history: count it as skipped. */
  function SkipDate(st: RunState, total: nat, date: int): RunState
  {
    var next := st.(skipped := st.skipped + 1, processed := st.processed + 1);
    next.(log := st.log + [Snapshot(next, total, "collect", Some(date), "跳过已存在日期")])
  }

  /** A date that failed: keep the failure row and count it. */
  function FailDate(st: RunState, total: nat, f: Failure): RunState
  {
    var next := st.(failed := st.failed + 1, failures := st.failures + [f], processed := st.processed + 1);
    next.(log := st.log + [Snapshot(next, total, "compute", Some(f.date), "回填执行中")])
  }

  /** A date that produced a record: add it and sort the history again. */
  function AddDate(st: RunState, total: nat, entry: Entry): RunState
  {
    var next := st.(history := SortBy(st.history + [entry], DateOf), added := st.added + 1, processed := st.processed + 1);
    next.(log := st.log + [Snapshot(next, total, "compute", Some(entry.date), "回填执行中")])
  }

  lemma SkipKeepsGood(st: RunState, start: seq<Entry>, done: seq<int>, total: nat, date: int)
    requires Good(st, start, done, total) && |done| < total && HasDate(st.history, date)
    ensures Good(SkipDate(st, total, date), start, done + [date], total)
  {
  }

  lemma FailKeepsGood(st: RunState, start: seq<Entry>, done: seq<int>, total: nat, f: Failure)
    requires Good(st, start, done, total) && |done| < total
    ensures Good(FailDate(st, total, f), start, done + [f.date], total)
  {
    var next := FailDate(st, total, f);
    assert f in next.failures;
    assert forall d :: d in done ==> FailedOn(st.failures, d) ==> FailedOn(next.failures, d);
  }

  lemma AddKeepsGood(st: RunState, start: seq<Entry>, done: seq<int>, total: nat, entry: Entry)
    requires Good(st, start, done, total) && |done| < total
    requires !HasDate(st.history, entry.date) && ValidFields(ScriptSchema, entry.input)
    ensures Good(AddDate(st, total, entry), start, done + [entry.date], total)
  {
    var next := AddDate(st, total, entry);
    var sorted := SortBy(st.history + [entry], DateOf);
    assert next.history == sorted && next.failures == st.failures;
    AddHistoryOk(st.history, start, done, st.added, entry);
    AddCovered(st.history, st.failures, done, entry);
    var snap := Snapshot(next, total, "compute", Some(entry.date), "回填执行中");
    assert Consistent(snap, total);
    assert next.log == st.log + [snap];
    assert forall p :: p in next.log ==> p in st.log || p == snap;
  }

  lemma AddHistoryOk(history: seq<Entry>, start: seq<Entry>, done: seq<int>, added: nat, entry: Entry)
    requires HistoryOk(history, start, done, added)
    requires !HasDate(history, entry.date) && ValidFields(ScriptSchema, entry.input)
    ensures HistoryOk(SortBy(history + [entry], DateOf), start, done + [entry.date], added + 1)
  {
    KeepsDates(start, history);
    var grown := history + [entry];
    var sorted := SortBy(grown, DateOf);
    assert multiset(sorted) == multiset(history) + multiset{entry};
    SameMembers(sorted, grown);
    assert !HasDate(start, entry.date);
    forall e | e in sorted && e !in start
      ensures e.date in done + [entry.date] && ValidFields(ScriptSchema, e.input) && !HasDate(start, e.date)
    {
      assert e in grown;
    }
  }

  lemma AddCovered(history: seq<Entry>, failures: seq<Failure>, done: seq<int>, entry: Entry)
    requires Covered(history, failures, done)
    ensures Covered(SortBy(history + [entry], DateOf), failures, done + [entry.date])
  {
    var grown := history + [entry];
    var sorted := SortBy(grown, DateOf);
    SameMembers(sorted, grown);
    forall d | d in done + [entry.date]
      ensures HasDate(sorted, d) || FailedOn(failures, d)
    {
      if d == entry.date {
        assert entry in sorted;
      } else if HasDate(history, d) {
        var e :| e in history && e.date == d;
        assert e in sorted;
      }
    }
  }

  /** One iteration of the loop for `date`. */
  method ProcessDate(st: RunState, start: seq<Entry>, done: seq<int>, total: nat, date: int, ctx: DayContext)
    returns (next: RunState)
    requires Good(st, start, done, total) && |done| < total
    ensures Good(next, start, done + [date], total)
    ensures |next.log| == |st.log| + 1
    ensures ctx.collect(date).Threw? ==> next.history == st.history && next.added == st.added
  {
    if HasDate(st.history, date) {
      // `history.some((item) => item.date === date)`: skip it.
      SkipKeepsGood(st, start, done, total, date);
      return SkipDate(st, total, date);
    }
    match ctx.collect(date)
    case Threw(message) =>
      FailKeepsGood(st, start, done, total, CollectorFailure(date, message));
      next := FailDate(st, total, CollectorFailure(date, message));
    case Collected(payload) =>
      var doc := PrepareInput(ctx, payload, st.history, date);
      var errors := ValidateInput(Chinese, ScriptSchema, doc.fields);
      if errors != [] {
        FailKeepsGood(st, start, done, total, ValidationFailure(date, doc, errors));
        next := FailDate(st, total, ValidationFailure(date, doc, errors));
      } else {
        var output := ctx.run(doc, date, st.history, LatestRecordBefore(st.history, date));
        AddKeepsGood(st, start, done, total, Entry(date, doc.fields, output));
        next := AddDate(st, total, Entry(date, doc.fields, output));
      }
  }

  /**
   * The loop of `main` over the sample dates, from the stored history (when resuming)
   * sorted by date. Returns the final history, the failure rows and the snapshots:
   * the one written at the start, one per date and the final one.
   */
  method RunBackfill(dates: seq<int>, stored: seq<Entry>, resume: bool, ctx: DayContext)
    returns (history: seq<Entry>, failures: seq<Failure>, log: seq<Progress>)
    ensures SortedBy(history, DateOf)
    ensures multiset(if resume then stored else []) <= multiset(history)
    ensures forall e :: e in history && e !in (if resume then stored else []) ==>
      e.date in dates && ValidFields(ScriptSchema, e.input) && !HasDate(if resume then stored else [], e.date)
    ensures forall d :: d in dates ==> HasDate(history, d) || FailedOn(failures, d)
    ensures forall f :: f in failures ==> f.date in dates
    ensures |log| == |dates| + 2
    ensures forall p :: p in log ==> Consistent(p, |dates|)
    ensures var last := log[|log| - 1];
      last.processed == |dates| && last.failed == |failures| && last.added == |history| - |if resume then stored else []|
      && last.phase == "done" && last.status == (if failures == [] then "ok" else "done")
    ensures CollectorAlwaysThrows(ctx, dates) ==>
      history == SortBy(if resume then stored else [], DateOf)
      && forall d :: d in dates && !HasDate(if resume then stored else [], d) ==> FailedOn(failures, d)
  {
    var start := if resume then stored else [];
    var st := RunState(SortBy(start, DateOf), [], 0, 0, 0, 0, []);
    st := st.(log := [Snapshot(st, |dates|, "collect", None, "回填任务已启动")]);
    GoodStart(start, |dates|, st);
    var i := 0;
    while i < |dates|
      invariant 0 <= i <= |dates|
      invariant Good(st, start, dates[..i], |dates|)
      invariant |st.log| == i + 1
      invariant CollectorAlwaysThrows(ctx, dates) ==> st.history == SortBy(start, DateOf)
    {
      assert dates[..i + 1] == dates[..i] + [dates[i]];
      st := ProcessDate(st, start, dates[..i], |dates|, dates[i], ctx);
      i := i + 1;
    }
    assert dates[..i] == dates;
    var message := "回填完成：新增 " + NatText(st.added) + "，跳过 " + NatText(st.skipped) + "，失败 " + NatText(st.failed);
    var final := Progress(if st.failed > 0 then "done" else "ok", "done", |dates|, st.processed, st.added, st.skipped,
                          st.failed, MaxInt(0, |dates| - st.processed), None, TakeLast(st.failures, 200), message);
    GoodEnd(st, start, dates, final);
    history, failures, log := st.history, st.failures, st.log + [final];
    if CollectorAlwaysThrows(ctx, dates) {
      SortedKeepsDates(start);
    }
  }

  /** Every collection of the sample dates throws, as it does with the shipped collector. */
  predicate CollectorAlwaysThrows(ctx: DayContext, dates: seq<int>)
  {
    forall d :: d in dates ==> ctx.collect(d).Threw?
  }

  /** Sorting a history keeps the dates it has records for. */
  lemma SortedKeepsDates(start: seq<Entry>)
    ensures forall d :: HasDate(SortBy(start, DateOf), d) ==> HasDate(start, d)
  {
    SameMembers(SortBy(start, DateOf), start);
  }

  /** The state before the first date. */
  lemma GoodStart(start: seq<Entry>, total: nat, st: RunState)
    requires st.history == SortBy(start, DateOf) && st.failures == [] && st.added == st.skipped == st.failed == st.processed == 0
    requires |st.log| == 1 && Consistent(st.log[0], total)
    ensures Good(st, start, [], total)
  {
    var h := st.history;
    assert SortedBy(h, DateOf) && multiset(h) == multiset(start) && |h| == |start|;
    SameMembers(h, start);
    assert HistoryOk(h, start, [], 0);
    assert Covered(h, st.failures, []);
    assert st.log == [st.log[0]];
  }

  /** The state after the last date, with the final snapshot. */
  lemma GoodEnd(st: RunState, start: seq<Entry>, dates: seq<int>, final: Progress)
    requires Good(st, start, dates, |dates|)
    requires final.total == |dates| && final.processed == st.processed && final.added == st.added
    requires final.skipped == st.skipped && final.failed == st.failed && final.remaining == MaxInt(0, |dates| - st.processed)
    requires |final.failures| <= 200
    ensures SortedBy(st.history, DateOf) && multiset(start) <= multiset(st.history)
    ensures forall e :: e in st.history && e !in start ==> e.date in dates && ValidFields(ScriptSchema, e.input) && !HasDate(start, e.date)
    ensures forall d :: d in dates ==> HasDate(st.history, d) || FailedOn(st.failures, d)
    ensures forall f :: f in st.failures ==> f.date in dates
    ensures forall p :: p in st.log + [final] ==> Consistent(p, |dates|)
    ensures final.processed == |dates| && final.failed == |st.failures| && final.added == |st.history| - |start|
  {
  }
}
