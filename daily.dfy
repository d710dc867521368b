// The daily auto-run script (scripts/daily_autorun.mjs): its command line, the status file
// it writes, the offline gate explanation, and one run that collects today's input,
// checks it, runs the decision and merges the new record into the stored history.

module Daily {
  import opened Values
  import opened Text
  import opened Order
  import opened Dates
  import opened History
  import opened Inputs
  import opened InputObjects
  import opened Backfill

  // ---------------------------------------------------------------- command line

  /** The options as the token loop leaves them; `timeoutSec` is a `Number(...)` result (`None` is NaN). */
  datatype RawDailyArgs = RawDailyArgs(date: string, timeoutSec: Option<real>)

  /** The defaults; `today` is the host clock's local date key. */
  function DefaultDailyArgs(today: string): RawDailyArgs
  {
    RawDailyArgs(today, Some(600.0))
  }

  /** The token loop from position `i` on: `--date` and `--timeout` consume the next token. */
  function ScanDaily(argv: seq<string>, i: nat, a: RawDailyArgs): RawDailyArgs
    decreases |argv| - i
  {
    if i >= |argv| then a
    else
      var next := NextToken(argv, i);
      if argv[i] == "--date" then ScanDaily(argv, i + 2, a.(date := TextArg(next, a.date)))
      else if argv[i] == "--timeout" then ScanDaily(argv, i + 2, a.(timeoutSec := NumberArg(next, a.timeoutSec)))
      else ScanDaily(argv, i + 1, a)
  }

  /** The token loop of `parseArgs`. */
  method ScanDailyArgv(argv: seq<string>, today: string) returns (a: RawDailyArgs)
    ensures a == ScanDaily(argv, 0, DefaultDailyArgs(today))
  {
    a := DefaultDailyArgs(today);
    var i := 0;
    while i < |argv|
      invariant ScanDaily(argv, i, a) == ScanDaily(argv, 0, DefaultDailyArgs(today))
      decreases |argv| - i
    {
      var token := argv[i];
      var next := NextToken(argv, i);
      if token == "--date" {
        a := a.(date := TextArg(next, a.date));
        i := i + 1;
      } else if token == "--timeout" {
        a := a.(timeoutSec := NumberArg(next, a.timeoutSec));
        i := i + 1;
      }
      i := i + 1;
    }
  }

  /** The options after the final check. */
  datatype DailyArgs = DailyArgs(date: string, timeoutSec: int)

  /**
   * The end of `parseArgs`: a date without the YYYY-MM-DD shape throws; a timeout that is
   * not a positive number becomes 600, any other is floored (so one below a second gives 0).
   */
  function CleanDailyArgs(a: RawDailyArgs): (r: Outcome<DailyArgs>)
    ensures r.Ok? <==> IsIsoShape(a.date)
    ensures r.Raised? ==> r.message == "invalid --date: " + a.date
    ensures r.Ok? ==> r.value.date == a.date && r.value.timeoutSec >= 0
    ensures r.Ok? && a.timeoutSec.Some? && a.timeoutSec.value > 0.0 ==>
      r.value.timeoutSec as real <= a.timeoutSec.value < r.value.timeoutSec as real + 1.0
    ensures r.Ok? && !(a.timeoutSec.Some? && a.timeoutSec.value > 0.0) ==> r.value.timeoutSec == 600
  {
    if !IsIsoShape(a.date) then Raised("invalid --date: " + a.date)
    else Ok(DailyArgs(a.date, PositiveFloor(a.timeoutSec, 600)))
  }

  /** `parseArgs`: scan the tokens, then check the date and clean the timeout. */
  method ParseDailyArgs(argv: seq<string>, today: string) returns (r: Outcome<DailyArgs>)
    ensures r == CleanDailyArgs(ScanDaily(argv, 0, DefaultDailyArgs(today)))
  {
    var raw := ScanDailyArgv(argv, today);
    r := CleanDailyArgs(raw);
  }

  /** Without a `--date` token the scanned date is the one the scan started with. */
  lemma {:induction false} ScanKeepsDate(argv: seq<string>, i: nat, a: RawDailyArgs)
    requires forall k :: i <= k < |argv| ==> argv[k] != "--date"
    ensures ScanDaily(argv, i, a).date == a.date
    decreases |argv| - i
  {
    if i < |argv| {
      var next := NextToken(argv, i);
      if argv[i] == "--timeout" {
        ScanKeepsDate(argv, i + 2, a.(timeoutSec := NumberArg(next, a.timeoutSec)));
      } else {
        ScanKeepsDate(argv, i + 1, a);
      }
    }
  }

  /** Without a `--timeout` token the scanned timeout is the one the scan started with. */
  lemma {:induction false} ScanKeepsTimeout(argv: seq<string>, i: nat, a: RawDailyArgs)
    requires forall k :: i <= k < |argv| ==> argv[k] != "--timeout"
    ensures ScanDaily(argv, i, a).timeoutSec == a.timeoutSec
    decreases |argv| - i
  {
    if i < |argv| {
      var next := NextToken(argv, i);
      if argv[i] == "--date" {
        ScanKeepsTimeout(argv, i + 2, a.(date := TextArg(next, a.date)));
      } else {
        ScanKeepsTimeout(argv, i + 1, a);
      }
    }
  }

  /** With no options at all the run is for today, with the 600-second timeout, if today's key has the date shape. */
  lemma DefaultDailyRun(argv: seq<string>, today: string)
    requires forall k :: 0 <= k < |argv| ==> argv[k] != "--date" && argv[k] != "--timeout"
    ensures CleanDailyArgs(ScanDaily(argv, 0, DefaultDailyArgs(today))) ==
      (if IsIsoShape(today) then Ok(DailyArgs(today, 600)) else Raised("invalid --date: " + today))
  {
    ScanKeepsDate(argv, 0, DefaultDailyArgs(today));
    ScanKeepsTimeout(argv, 0, DefaultDailyArgs(today));
  }

  /** A leading `--date d` with a non-empty `d` and no later `--date` names the run's date. */
  lemma LeadingDateOption(argv: seq<string>, today: string)
    requires |argv| >= 2 && argv[0] == "--date" && argv[1] != ""
    requires forall k :: 2 <= k < |argv| ==> argv[k] != "--date"
    ensures ScanDaily(argv, 0, DefaultDailyArgs(today)).date == argv[1]
    ensures CleanDailyArgs(ScanDaily(argv, 0, DefaultDailyArgs(today))).Ok? <==> IsIsoShape(argv[1])
  {
    ScanKeepsDate(argv, 2, DefaultDailyArgs(today).(date := argv[1]));
  }

  // ---------------------------------------------------------------- status file

  /** The status file `run/daily_status.json`. */
  datatype StatusPayload = StatusPayload(date: Value, startedAt: Value, finishedAt: Value, status: Value,
                                         errors: seq<Value>, autoGeneratedAt: Value, runId: Value, aiMode: Value)

  /** The field when it holds a truthy value, null otherwise. */
  function OrNull(base: Record, key: string): (r: Value)
    ensures Truthy(Lookup(base, key)) ==> r == base[key]
    ensures !Truthy(Lookup(base, key)) ==> r == Null
  {
    Or(Lookup(base, key), Null)
  }

  /**
   * `buildStatusPayload`: the stamps and the run id of `base` when truthy, else null; its
   * status and AI mode when truthy, else "unknown"; its errors when an array, else none.
   */
  function BuildStatusPayload(base: Record): (r: StatusPayload)
    ensures r.date == OrNull(base, "date") && r.startedAt == OrNull(base, "startedAt")
    ensures r.finishedAt == OrNull(base, "finishedAt") && r.autoGeneratedAt == OrNull(base, "autoGeneratedAt")
    ensures r.runId == OrNull(base, "runId")
    ensures Truthy(Lookup(base, "status")) ==> r.status == base["status"]
    ensures !Truthy(Lookup(base, "status")) ==> r.status == Str("unknown")
    ensures Truthy(Lookup(base, "aiMode")) ==> r.aiMode == base["aiMode"]
    ensures !Truthy(Lookup(base, "aiMode")) ==> r.aiMode == Str("unknown")
    ensures "errors" in base && base["errors"].Arr? ==> r.errors == base["errors"].items
    ensures !("errors" in base && base["errors"].Arr?) ==> r.errors == []
  {
    StatusPayload(OrNull(base, "date"), OrNull(base, "startedAt"), OrNull(base, "finishedAt"),
      Or(Lookup(base, "status"), Str("unknown")),
      if "errors" in base && base["errors"].Arr? then base["errors"].items else [],
      OrNull(base, "autoGeneratedAt"), OrNull(base, "runId"), Or(Lookup(base, "aiMode"), Str("unknown")))
  }

  /** The payload as the JSON object that is written. */
  function StatusRecord(s: StatusPayload): Record
  {
    map["date" := s.date, "startedAt" := s.startedAt, "finishedAt" := s.finishedAt, "status" := s.status,
        "errors" := Arr(s.errors), "autoGeneratedAt" := s.autoGeneratedAt, "runId" := s.runId, "aiMode" := s.aiMode]
  }

  /** A payload whose optional parts are truthy or null and whose status and AI mode are truthy. */
  predicate NormalStatus(s: StatusPayload)
  {
    (Truthy(s.date) || s.date == Null) && (Truthy(s.startedAt) || s.startedAt == Null)
    && (Truthy(s.finishedAt) || s.finishedAt == Null) && (Truthy(s.autoGeneratedAt) || s.autoGeneratedAt == Null)
    && (Truthy(s.runId) || s.runId == Null) && Truthy(s.status) && Truthy(s.aiMode)
  }

  /** Every built payload is normal, and reading a normal payload back rebuilds it unchanged. */
  lemma StatusRoundTrip(base: Record, s: StatusPayload)
    ensures NormalStatus(BuildStatusPayload(base))
    ensures NormalStatus(s) ==> BuildStatusPayload(StatusRecord(s)) == s
  {
    var m := StatusRecord(s);
    assert m["date"] == s.date && m["startedAt"] == s.startedAt && m["finishedAt"] == s.finishedAt;
    assert m["status"] == s.status && m["errors"] == Arr(s.errors) && m["autoGeneratedAt"] == s.autoGeneratedAt;
    assert m["runId"] == s.runId && m["aiMode"] == s.aiMode;
  }

  // ---------------------------------------------------------------- offline gate text

  /** What the offline explanation reads of a gate: its note, its input entries (value text) in order, and its rules. */
  datatype GateView = GateView(note: string, inputs: seq<(string, string)>, rules: seq<string>)

  function EntryTexts(inputs: seq<(string, string)>): (r: seq<string>)
    ensures |r| == |inputs|
    ensures forall i :: 0 <= i < |r| ==> r[i] == inputs[i].0 + "=" + inputs[i].1
  {
    if inputs == [] then [] else [inputs[0].0 + "=" + inputs[0].1] + EntryTexts(inputs[1..])
  }

  function NoteLine(g: GateView): string
  {
    "【结论】：" + (if g.note == "" then "暂无结论" else g.note)
  }

  function EvidenceLine(g: GateView): string
  {
    var entries := Take(g.inputs, 2);
    var evidence := if entries == [] then "当前无可用输入" else Join(EntryTexts(entries), " / ");
    var rules := Join(Take(g.rules, 2), " / ");
    "【依据】：" + evidence + "；规则：" + (if rules == "" then "无" else rules)
  }

  const ActionLine := "【动作】：按当前闸门状态执行仓位与对冲，不追涨不抄底。"
  const CounterLine := "【反证】：若关键指标连续两次反向变化，则重新评估。"
  const TimelinessLine := "【时效】：使用本地离线解释，需在下次自动运行后复核。"

  /** `buildGateFallbackText`: conclusion, evidence from the first two inputs and rules, and three fixed lines. */
  function BuildGateFallbackText(g: GateView): (r: string)
    ensures StartsWith(r, NoteLine(g))
  {
    var lines := [NoteLine(g), EvidenceLine(g), ActionLine, CounterLine, TimelinessLine];
    assert Join(lines, "\n") == NoteLine(g) + ("\n" + Join(lines[1..], "\n"));
    Join(lines, "\n")
  }

  /** No line break in the note, the input entries or the rules. */
  predicate OneLineGate(g: GateView)
  {
    '\n' !in g.note && (forall i :: 0 <= i < |g.inputs| ==> '\n' !in g.inputs[i].0 && '\n' !in g.inputs[i].1)
    && forall i :: 0 <= i < |g.rules| ==> '\n' !in g.rules[i]
  }

  /** The evidence line of a gate without line breaks has none either. */
  lemma EvidenceOneLine(g: GateView)
    requires OneLineGate(g)
    ensures '\n' !in EvidenceLine(g)
  {
    var entries := Take(g.inputs, 2);
    var texts := EntryTexts(entries);
    forall i | 0 <= i < |texts|
      ensures '\n' !in texts[i]
    {
      assert entries[i] == g.inputs[i];
      assert texts[i] == g.inputs[i].0 + "=" + g.inputs[i].1;
    }
    JoinAvoids(texts, " / ", '\n');
    JoinAvoids(Take(g.rules, 2), " / ", '\n');
  }

  lemma NoteOneLine(g: GateView)
    requires '\n' !in g.note
    ensures '\n' !in NoteLine(g)
  {
  }

  lemma FixedLinesOneLine()
    ensures '\n' !in ActionLine && '\n' !in CounterLine && '\n' !in TimelinessLine
  {
    ActionOneLine();
    CounterOneLine();
    TimelinessOneLine();
  }

  lemma ActionOneLine() ensures '\n' !in ActionLine {}
  lemma CounterOneLine() ensures '\n' !in CounterLine {}
  lemma TimelinessOneLine() ensures '\n' !in TimelinessLine {}

  /** For a gate without line breaks the text is exactly five lines, the conclusion first. */
  lemma GateTextFiveLines(g: GateView)
    requires OneLineGate(g)
    ensures |Split(BuildGateFallbackText(g), '\n')| == 5
    ensures Split(BuildGateFallbackText(g), '\n')[0] == NoteLine(g)
    ensures Split(BuildGateFallbackText(g), '\n')[2..] == [ActionLine, CounterLine, TimelinessLine]
  {
    var lines := [NoteLine(g), EvidenceLine(g), ActionLine, CounterLine, TimelinessLine];
    EvidenceOneLine(g);
    NoteOneLine(g);
    FixedLinesOneLine();
    JoinSplit(lines, '\n');
  }

  /** Only the first two input entries and the first two rules affect the text. */
  lemma GateTextUsesTwo(g: GateView)
    ensures BuildGateFallbackText(g) == BuildGateFallbackText(g.(inputs := Take(g.inputs, 2), rules := Take(g.rules, 2)))
  {
    assert Take(Take(g.inputs, 2), 2) == Take(g.inputs, 2);
    assert Take(Take(g.rules, 2), 2) == Take(g.rules, 2);
  }

  // ---------------------------------------------------------------- one run

  /**
   * The parts of a run that lie outside this model: the collector process (already run for
   * the date), the half-life helpers, the decision run (`deriveDriftSignal` and
   * `runPipeline`), the warnings of the AI step and the clock readings.
   */
  datatype DailyContext = DailyContext(
    collect: CollectResult,
    gate: (Doc, int) -> Doc,
    pick: (seq<Entry>, int) -> Picker,
    classify: Classifier,
    run: (Doc, int, seq<Entry>, Option<Entry>) -> Record,
    warnings: seq<string>,
    startedAt: Value, finishedAt: Value, runId: Value)

  /**
   * The input for the run: the payload over the null template, the date key written in,
   * the schema fields coerced, the half-life gate applied, the gaps backfilled from history
   * and `__missing` recomputed.
   */
  function DailyInput(ctx: DailyContext, p: Received, history: seq<Entry>, date: string, day: int): (r: Doc)
    ensures r.meta.missing == MissingFieldsOf(r.fields, Some(KeysOf(ScriptSchema)))
  {
    var d0 := BuildCombinedInput(Some(p), Some(NullTemplate(ScriptSchema))).value;
    var d1 := d0.(fields := d0.fields["date" := Str(date)]);
    var d2 := d1.(fields := CoercedFields(ScriptSchema, d1.fields));
    var d3 := ctx.gate(d2, day);
    var d4 := Backfilled(DailyScript, ScriptSchema, ctx.pick(history, day), ctx.classify, d3).0;
    d4.(meta := d4.meta.(missing := MissingFieldsOf(d4.fields, Some(KeysOf(ScriptSchema)))))
  }

  /** The same steps, in place on one input object. */
  method PrepareDailyInput(ctx: DailyContext, p: Received, history: seq<Entry>, date: string, day: int) returns (doc: Doc)
    ensures doc == DailyInput(ctx, p, history, date, day)
  {
    var input := new InputObject(BuildCombinedInput(Some(p), Some(NullTemplate(ScriptSchema))).value);
    input.fields := input.fields["date" := Str(date)];
    input.CoerceInputTypes(ScriptSchema);
    var gated := ctx.gate(input.Current(), day);
    input.fields, input.meta := gated.fields, gated.meta;
    var _ := input.BackfillMissingFromHistory(DailyScript, ScriptSchema, ctx.pick(history, day), ctx.classify);
    var _ := input.RefreshMissingFields(Some(KeysOf(ScriptSchema)));
    doc := input.Current();
  }

  /** The message of the error a failed validation throws: at most six reasons. */
  function AbortMessage(errors: seq<string>): string
  {
    "daily run aborted: " + Join(Take(errors, 6), " | ")
  }

  /** The abort message names the first six fields (or fewer) that did not validate. */
  lemma AbortNamesInvalidKeys(fields: Record, i: nat)
    requires i < 6 && i < |InvalidKeys(ScriptSchema, fields)|
    ensures Contains(AbortMessage(ValidateInput(English, ScriptSchema, fields)), InvalidKeys(ScriptSchema, fields)[i])
  {
    var errors := ValidateInput(English, ScriptSchema, fields);
    var key := InvalidKeys(ScriptSchema, fields)[i];
    assert Take(errors, 6)[i] == errors[i];
    JoinContains(Take(errors, 6), " | ", i, key);
    ContainsInConcat("daily run aborted: ", Join(Take(errors, 6), " | "), key);
  }

  /** Normalisation never touches an input that passed validation: both fields it derives are schema fields. */
  lemma NormalizeKeepsValid(fields: Record, history: seq<Entry>, date: DateKey)
    requires ValidFields(ScriptSchema, fields)
    ensures NormalizeForScripts(fields, history, date) == fields
  {
    assert ScriptSchema[7].0 == "prevEtfExtremeOutflow" && ScriptSchema[20].0 == "exchBalanceTrend";
    assert FieldValid(fields, ScriptSchema[7].0, ScriptSchema[7].1);
    assert FieldValid(fields, ScriptSchema[20].0, ScriptSchema[20].1);
  }

  /**
   * The outcome of the steps between the collector and the history write: the collector's
   * error, the validation abort, or the new record (its normalised input and the decision).
   */
  function DailyRecord(ctx: DailyContext, history: seq<Entry>, date: string, day: int): (r: Outcome<Entry>)
    ensures ctx.collect.Threw? ==> r == Raised(ctx.collect.message)
    ensures ctx.collect.Collected? ==>
      var doc := DailyInput(ctx, ctx.collect.payload, history, date, day);
      (r.Ok? <==> ValidFields(ScriptSchema, doc.fields))
      && (r.Raised? ==> r.message == AbortMessage(ValidateInput(English, ScriptSchema, doc.fields)))
      && (r.Ok? ==> r.value.date == day && r.value.input == doc.fields)
  {
    match ctx.collect
    case Threw(message) => Raised(message)
    case Collected(p) =>
      var doc := DailyInput(ctx, p, history, date, day);
      var errors := ValidateInput(English, ScriptSchema, doc.fields);
      if errors != [] then Raised(AbortMessage(errors))
      else
        var normalized := NormalizeForScripts(doc.fields, history, Day(day));
        NormalizeKeepsValid(doc.fields, history, Day(day));
        Ok(Entry(day, normalized, ctx.run(Doc(normalized, doc.meta), day, history, LatestRecordBefore(history, day))))
  }

  /** The temporary file that `runCollectorForDate` passes as `--output`. */
  function DailyOutputPath(tmpdir: string, date: string, ms: nat): FilePath
  {
    FilePath(tmpdir, "eth-a-daily-" + date + "-" + NatText(ms) + ".json")
  }

  /**
   * `readJson(outputPath, null)` after the run, then the empty-payload test: the payload
   * written at that path, or the error "collector returned empty payload".
   */
  function ReadDailyOutput(files: map<FilePath, Received>, path: FilePath): (r: CollectResult)
    ensures r.Collected? <==> path in files
    ensures r.Collected? ==> r.payload == files[path]
    ensures r.Threw? ==> r.message == EmptyPayload
  {
    if path in files then Collected(files[path]) else Threw(EmptyPayload)
  }

  const EmptyPayload := "collector returned empty payload"

  /**
   * As shipped, the run always fails before validation: the collector writes only
   * `src/data/auto.json`, the temporary file is never written, and the run raises
   * "collector returned empty payload"; `RunDaily` then writes no history.
   */
  lemma ShippedDailyFails(root: string, payload: Received, tmpdir: string, ms: nat, ctx: DailyContext,
                          history: seq<Entry>, date: string, day: int)
    requires ctx.collect == ReadDailyOutput(ShippedCollectorFiles(root, payload), DailyOutputPath(tmpdir, date, ms))
    ensures DailyRecord(ctx, history, date, day) == Raised(EmptyPayload)
  {
    var path := DailyOutputPath(tmpdir, date, ms);
    assert |path.name| > |CollectorOutput(root).name|;
    assert path !in ShippedCollectorFiles(root, payload);
  }

  /** A collector that writes its `--output` file gives the run its payload. */
  lemma IntendedDailyReads(payload: Received, tmpdir: string, date: string, ms: nat)
    ensures var path := DailyOutputPath(tmpdir, date, ms);
      ReadDailyOutput(IntendedCollectorFiles(path, payload), path) == Collected(payload)
  {
  }

  /** The status written before the collector runs. */
  function StartStatus(date: string, ctx: DailyContext): StatusPayload
  {
    BuildStatusPayload(map["date" := Str(date), "startedAt" := ctx.startedAt, "status" := Str("running"),
                           "errors" := Arr([]), "runId" := ctx.runId])
  }

  /** The `catch` branch: status "fail", the error's message (or a stock one) appended, AI mode unknown. */
  function FailedStatus(s: StatusPayload, message: string, finishedAt: Value): StatusPayload
  {
    s.(status := Str("fail"), errors := s.errors + [Str(if message == "" then "daily autorun failed" else message)],
       finishedAt := finishedAt, aiMode := Str("unknown"))
  }

  /** The success branch: "warn" and "partial" when the AI step warned, else "ok" and "online". */
  function FinishedStatus(s: StatusPayload, warnings: seq<string>, generatedAt: Value, finishedAt: Value): StatusPayload
  {
    s.(status := Str(if warnings != [] then "warn" else "ok"), errors := s.errors + StrValues(warnings),
       autoGeneratedAt := Or(generatedAt, Null), aiMode := Str(if warnings != [] then "partial" else "online"),
       finishedAt := finishedAt)
  }

  /**
   * `main` after the lock: write the running status, sort the stored history, build and
   * check the input, run the decision, merge the record into the history (the history file
   * is written only then) and finish the status. Returns the written history, if any, and
   * the final status.
   */
  method RunDaily(date: string, day: int, stored: seq<Entry>, ctx: DailyContext)
    returns (written: Option<seq<Entry>>, status: StatusPayload)
    ensures var outcome := DailyRecord(ctx, SortBy(stored, DateOf), date, day);
      (written.Some? <==> outcome.Ok?)
      && (outcome.Raised? ==> status == FailedStatus(StartStatus(date, ctx), outcome.message, ctx.finishedAt))
      && (outcome.Ok? ==>
            written.value == MergeHistory(SortBy(stored, DateOf), outcome.value)
            && status == FinishedStatus(StartStatus(date, ctx), ctx.warnings, ctx.collect.payload.generatedAt, ctx.finishedAt))
  {
    status := BuildStatusPayload(map["date" := Str(date), "startedAt" := ctx.startedAt, "status" := Str("running"),
                                     "errors" := Arr([]), "runId" := ctx.runId]);
    var history := SortBy(stored, DateOf);
    match ctx.collect
    case Threw(message) =>
      written := None;
      status := status.(status := Str("fail"), errors := status.errors + [Str(if message == "" then "daily autorun failed" else message)],
                        finishedAt := ctx.finishedAt, aiMode := Str("unknown"));
    case Collected(payload) =>
      var doc := PrepareDailyInput(ctx, payload, history, date, day);
      var errors := ValidateInput(English, ScriptSchema, doc.fields);
      if errors != [] {
        written := None;
        status := status.(status := Str("fail"), errors := status.errors + [Str(AbortMessage(errors))],
                          finishedAt := ctx.finishedAt, aiMode := Str("unknown"));
        return;
      }
      var normalized := NormalizeForScripts(doc.fields, history, Day(day));
      var output := ctx.run(Doc(normalized, doc.meta), day, history, LatestRecordBefore(history, day));
      var record := Entry(day, normalized, output);
      written := Some(MergeHistory(history, record));
      var warned := ctx.warnings != [];
      status := status.(status := Str(if warned then "warn" else "ok"), errors := status.errors + StrValues(ctx.warnings),
                        autoGeneratedAt := Or(payload.generatedAt, Null), aiMode := Str(if warned then "partial" else "online"),
                        finishedAt := ctx.finishedAt);
  }

  /**
   * What a run guarantees: it fails exactly when the collector threw or the input did not
   * validate, recording one message; otherwise the written history is sorted by date, holds
   * the new record (dated today, with a valid input) as the only record of its date, keeps
   * every stored record of another date and nothing else, and the status lists the warnings.
   */
  lemma DailyRunOutcome(date: string, day: int, stored: seq<Entry>, ctx: DailyContext)
    requires IsIsoShape(date)
    ensures var outcome := DailyRecord(ctx, SortBy(stored, DateOf), date, day);
      var s := FailedStatus(StartStatus(date, ctx), if outcome.Raised? then outcome.message else "", ctx.finishedAt);
      outcome.Raised? ==> s.status == Str("fail") && |s.errors| == 1 && s.date == Str(date) && s.aiMode == Str("unknown")
    ensures var outcome := DailyRecord(ctx, SortBy(stored, DateOf), date, day);
      outcome.Ok? ==>
        var merged := MergeHistory(SortBy(stored, DateOf), outcome.value);
        SortedBy(merged, DateOf) && outcome.value in merged && outcome.value.date == day
        && ValidFields(ScriptSchema, outcome.value.input)
        && (forall e :: e in merged && e.date == day ==> e == outcome.value)
        && (forall e :: e in stored && e.date != day ==> e in merged)
        && (forall e :: e in merged ==> e == outcome.value || e in stored)
  {
    var history := SortBy(stored, DateOf);
    SameMembers(history, stored);
    var start := StartStatus(date, ctx);
    var base := map["date" := Str(date), "startedAt" := ctx.startedAt, "status" := Str("running"),
                    "errors" := Arr([]), "runId" := ctx.runId];
    assert base["date"] == Str(date) && base["errors"] == Arr([]);
    assert start.date == Str(date) && start.errors == [];
    var outcome := DailyRecord(ctx, history, date, day);
    if outcome.Ok? {
      MergeHistoryContents(history, outcome.value);
    }
  }
}
