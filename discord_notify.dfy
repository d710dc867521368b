// The Discord notifier (scripts/discord_notify.mjs): its command line, the excerpt of
// the iteration report, the message it posts, and the status file that keeps it from
// posting the same daily report or the same alert twice.

module DiscordNotify {
  import opened Values
  import opened Text
  import opened Dates
  import opened Summary
  import opened DeepLink
  import Backfill

  // ---------------------------------------------------------------- command line

  /** The options; `kind` is `--type`. */
  datatype NotifyArgs = NotifyArgs(kind: string, date: string, baseUrl: string, force: bool,
                                   key: string, title: string, reason: string)

  const DefaultBaseUrl := "https://etha.mytagclash001.help"

  /** The defaults: `today` is the host's local date key, `envUrl` the `DASHBOARD_PUBLIC_URL` variable. */
  function DefaultNotifyArgs(today: string, envUrl: string): NotifyArgs
  {
    NotifyArgs("daily", today, Backfill.TextArg(envUrl, DefaultBaseUrl), false, "", "", "")
  }

  /** The token loop from position `i` on: an option with a value consumes two tokens. */
  function ScanNotifyArgs(argv: seq<string>, i: nat, a: NotifyArgs): NotifyArgs
    decreases |argv| - i
  {
    if i >= |argv| then a
    else
      var t := argv[i];
      var next := Backfill.NextToken(argv, i);
      if t == "--type" then ScanNotifyArgs(argv, i + 2, a.(kind := Backfill.TextArg(next, a.kind)))
      else if t == "--date" then ScanNotifyArgs(argv, i + 2, a.(date := Backfill.TextArg(next, a.date)))
      else if t == "--base-url" then ScanNotifyArgs(argv, i + 2, a.(baseUrl := Backfill.TextArg(next, a.baseUrl)))
      else if t == "--force" then ScanNotifyArgs(argv, i + 1, a.(force := true))
      else if t == "--key" then ScanNotifyArgs(argv, i + 2, a.(key := Backfill.TextArg(next, a.key)))
      else if t == "--title" then ScanNotifyArgs(argv, i + 2, a.(title := Backfill.TextArg(next, a.title)))
      else if t == "--reason" then ScanNotifyArgs(argv, i + 2, a.(reason := Backfill.TextArg(next, a.reason)))
      else ScanNotifyArgs(argv, i + 1, a)
  }

  /** The checks after the token loop: the type is daily or alert, the date has the YYYY-MM-DD shape. */
  function CheckNotifyArgs(a: NotifyArgs): (r: Outcome<NotifyArgs>)
    ensures r.Ok? <==> (a.kind == "daily" || a.kind == "alert") && IsIsoShape(a.date)
    ensures r.Ok? ==> r.value == a
    ensures a.kind != "daily" && a.kind != "alert" ==> r == Raised("invalid --type: " + a.kind)
    ensures (a.kind == "daily" || a.kind == "alert") && !IsIsoShape(a.date) ==> r == Raised("invalid --date: " + a.date)
  {
    if !(a.kind == "daily" || a.kind == "alert") then Raised("invalid --type: " + a.kind)
    else if !IsIsoShape(a.date) then Raised("invalid --date: " + a.date)
    else Ok(a)
  }

  /** `parseArgs`: the token loop over `argv`, then the checks. */
  method ParseArgs(argv: seq<string>, today: string, envUrl: string) returns (r: Outcome<NotifyArgs>)
    ensures r == CheckNotifyArgs(ScanNotifyArgs(argv, 0, DefaultNotifyArgs(today, envUrl)))
    ensures r.Ok? ==> (r.value.kind == "daily" || r.value.kind == "alert") && IsIsoShape(r.value.date)
  {
    var a := DefaultNotifyArgs(today, envUrl);
    var i := 0;
    while i < |argv|
      invariant ScanNotifyArgs(argv, i, a) == ScanNotifyArgs(argv, 0, DefaultNotifyArgs(today, envUrl))
      decreases |argv| - i
    {
      var token := argv[i];
      var next := Backfill.NextToken(argv, i);
      if token == "--type" {
        a := a.(kind := Backfill.TextArg(next, a.kind));
        i := i + 1;
      } else if token == "--date" {
        a := a.(date := Backfill.TextArg(next, a.date));
        i := i + 1;
      } else if token == "--base-url" {
        a := a.(baseUrl := Backfill.TextArg(next, a.baseUrl));
        i := i + 1;
      } else if token == "--force" {
        a := a.(force := true);
      } else if token == "--key" {
        a := a.(key := Backfill.TextArg(next, a.key));
        i := i + 1;
      } else if token == "--title" {
        a := a.(title := Backfill.TextArg(next, a.title));
        i := i + 1;
      } else if token == "--reason" {
        a := a.(reason := Backfill.TextArg(next, a.reason));
        i := i + 1;
      }
      i := i + 1;
    }
    r := CheckNotifyArgs(a);
  }

  /** A type and a date given on the command line replace the defaults; a later `--force` sets the flag. */
  lemma ExplicitArgs(kind: string, date: string, today: string, envUrl: string)
    requires kind != "" && date != ""
    ensures ScanNotifyArgs(["--type", kind, "--date", date, "--force"], 0, DefaultNotifyArgs(today, envUrl))
      == DefaultNotifyArgs(today, envUrl).(kind := kind, date := date, force := true)
  {
    var argv := ["--type", kind, "--date", date, "--force"];
    var d := DefaultNotifyArgs(today, envUrl);
    assert Backfill.NextToken(argv, 0) == kind && Backfill.NextToken(argv, 2) == date;
    calc {
      ScanNotifyArgs(argv, 0, d);
      ScanNotifyArgs(argv, 2, d.(kind := kind));
      ScanNotifyArgs(argv, 4, d.(kind := kind, date := date));
      ScanNotifyArgs(argv, 5, d.(kind := kind, date := date, force := true));
    }
  }

  // ---------------------------------------------------------------- excerpt

  /** The report's lines, each without trailing whitespace (the '\r' before a '\n' is whitespace too). */
  function CleanLines(text: string): (r: seq<string>)
    ensures |r| == |Split(text, '\n')|
  {
    var parts := Split(text, '\n');
    seq(|parts|, i requires 0 <= i < |parts| => TrimEnd(parts[i], JavaScript))
  }

  /** A line holding nothing but white space. */
  predicate Blank(line: string)
  {
    JsTrim(line) == ""
  }

  /** The non-blank lines, in order. */
  function NonBlank(lines: seq<string>): (r: seq<string>)
    ensures |r| <= |lines|
  {
    if lines == [] then []
    else
      var front := NonBlank(lines[..|lines| - 1]);
      var last := lines[|lines| - 1];
      if Blank(last) then front else front + [last]
  }

  /** The loop stops once `maxLines` lines are picked, but only after picking one. */
  function LineCap(maxLines: int): (n: nat)
    ensures n >= 1 && (maxLines >= 1 ==> n == maxLines)
  {
    if maxLines >= 1 then maxLines else 1
  }

  /** The excerpt: the first non-blank lines, up to the cap, joined by newlines. */
  function Excerpt(text: string, maxLines: int): string
  {
    if text == "" then "" else Join(Take(NonBlank(CleanLines(text)), LineCap(maxLines)), "\n")
  }

  /** `excerptMarkdown`: picks lines one by one and stops at the cap. */
  method ExcerptMarkdown(text: string, maxLines: int) returns (r: string)
    ensures r == Excerpt(text, maxLines)
  {
    if text == "" {
      return "";
    }
    var lines := CleanLines(text);
    var picked: seq<string> := [];
    var i := 0;
    while i < |lines|
      invariant 0 <= i <= |lines|
      invariant picked == NonBlank(lines[..i])
      invariant |picked| < LineCap(maxLines)
      decreases |lines| - i
    {
      assert lines[..i + 1][..i] == lines[..i];
      if !Blank(lines[i]) {
        picked := picked + [lines[i]];
        if |picked| >= maxLines {
          NonBlankPrefix(lines, i + 1);
          assert |picked| == LineCap(maxLines);
          return Join(picked, "\n");
        }
      }
      i := i + 1;
    }
    assert lines[..|lines|] == lines;
    r := Join(picked, "\n");
  }

  /** The non-blank lines of a prefix are a prefix of the non-blank lines. */
  lemma {:induction false} NonBlankPrefix(lines: seq<string>, k: nat)
    requires k <= |lines|
    ensures var p := NonBlank(lines[..k]); |p| <= |NonBlank(lines)| && NonBlank(lines)[..|p|] == p
    ensures Take(NonBlank(lines), |NonBlank(lines[..k])|) == NonBlank(lines[..k])
    decreases |lines|
  {
    if k < |lines| {
      var front := lines[..|lines| - 1];
      assert front[..k] == lines[..k];
      NonBlankPrefix(front, k);
    } else {
      assert lines[..k] == lines;
    }
  }

  /** Every line NonBlank keeps is a non-blank line of the input, in the input's order. */
  lemma {:induction false} NonBlankSound(lines: seq<string>)
    ensures forall l :: l in NonBlank(lines) ==> l in lines && !Blank(l)
    ensures Sub(NonBlank(lines), lines)
    decreases |lines|
  {
    if lines != [] {
      var n := |lines| - 1;
      NonBlankSound(lines[..n]);
      assert lines[..n + 1] == lines;
      SubStep(NonBlank(lines[..n]), lines, n, !Blank(lines[n]));
    }
  }

  /** A cleaned line has no newline and no trailing whitespace. */
  lemma CleanLinesPlain(text: string)
    ensures forall l :: l in CleanLines(text) ==> '\n' !in l && TrimEnd(l, JavaScript) == l
  {
    var parts := Split(text, '\n');
    forall l | l in CleanLines(text) ensures '\n' !in l && TrimEnd(l, JavaScript) == l {
      var i :| 0 <= i < |parts| && l == TrimEnd(parts[i], JavaScript);
      TrimEndDrops(parts[i], JavaScript);
      assert forall c :: c in l ==> c in parts[i];
    }
  }

  /**
   * The excerpt's lines are at most `max(1, maxLines)` non-blank, right-trimmed lines of
   * the report, in the report's order, and splitting the excerpt at newlines gives them back.
   */
  lemma ExcerptShape(text: string, maxLines: int)
    ensures var picked := Take(NonBlank(CleanLines(text)), LineCap(maxLines));
      && |picked| <= LineCap(maxLines)
      && (forall l :: l in picked ==> !Blank(l) && TrimEnd(l, JavaScript) == l && l in CleanLines(text))
      && Sub(picked, CleanLines(text))
      && (text != "" && picked != [] ==> Split(Excerpt(text, maxLines), '\n') == picked)
  {
    var lines := CleanLines(text);
    var all := NonBlank(lines);
    var picked := Take(all, LineCap(maxLines));
    NonBlankSound(lines);
    CleanLinesPlain(text);
    assert forall l :: l in picked ==> l in all;
    TakeSub(all, LineCap(maxLines));
    SubTrans(picked, all, lines);
    if text != "" && picked != [] {
      forall i | 0 <= i < |picked| ensures '\n' !in picked[i] {
        assert picked[i] in all;
      }
      JoinSplit(picked, '\n');
    }
  }

  /** A prefix is a subsequence. */
  lemma {:induction false} TakeSub<T>(s: seq<T>, n: nat)
    ensures Sub(Take(s, n), s)
    decreases |s|
  {
    var t := Take(s, n);
    if t != [] {
      TakeSub(s[1..], n - 1);
      assert Take(s[1..], n - 1) == t[1..];
    }
  }

  /** Subsequence is transitive. */
  lemma {:induction false} SubTrans<T>(a: seq<T>, b: seq<T>, c: seq<T>)
    requires Sub(a, b) && Sub(b, c)
    ensures Sub(a, c)
    decreases |c|
  {
    if a != [] && b != [] && c != [] {
      if b[0] == c[0] {
        if a[0] == b[0] {
          SubTrans(a[1..], b[1..], c[1..]);
        } else {
          SubTrans(a, b[1..], c[1..]);
        }
      } else {
        SubTrans(a, b, c[1..]);
        if a[0] == c[0] {
          SubTail(a, c[1..]);
        }
      }
    }
  }

  // ---------------------------------------------------------------- message

  /** What `buildDiscordMessage` is given; `kind` is `type`, `date` the requested date ("" when absent). */
  datatype MessageInput = MessageInput(kind: string, baseUrl: string, date: string, record: Value,
                                       perfSummary: Value, dailyStatus: Value, iterationExcerpt: string,
                                       alertTitle: string, alertReason: string)

  /** The formatting the message needs from its host: `toFixed`, `String()`, `toPlainText`, and today's local date key. */
  datatype Host = Host(fixed: (real, nat) -> string, show: Value -> string, plain: string -> string, today: string)

  /** The date to report: the one passed, else the record's, else today's. */
  function ResolvedDate(m: MessageInput, host: Host): string
  {
    if m.date != "" then m.date
    else if Truthy(Prop(m.record, "date")) then Shown(Prop(m.record, "date"), host.show)
    else host.today
  }

  /** `record?.output || {}`: reading a property of anything but an object gives undefined, as of `{}`. */
  function OutputOf(record: Value): Record
  {
    var o := Prop(record, "output");
    if o.Obj? then o.fields else map[]
  }

  /** The field of the output, or undefined. */
  function Field(output: Record, key: string): Value
  {
    if key in output then output[key] else Null
  }

  /** A number to two decimals; anything else is shown as `--`. */
  function Fixed2(v: Value, fixed: (real, nat) -> string): string
  {
    if v.Num? then fixed(v.n, 2) else "--"
  }

  /** `fmtPct`: a number as a percentage with one decimal, anything else "--". */
  function FmtPct(v: Value, fixed: (real, nat) -> string): (r: string)
    ensures v.Num? ==> EndsWith(r, "%") && r == fixed(v.n * 100.0, 1) + "%"
    ensures !v.Num? ==> r == "--"
  {
    if v.Num? then
      var t := fixed(v.n * 100.0, 1) + "%";
      assert t[|t| - 1..] == "%";
      t
    else "--"
  }

  /** `fmtLevel`: the three drift levels in capitals, whatever their case; anything else "--". */
  function FmtLevel(level: Value, show: Value -> string): (r: string)
    ensures r in {"OK", "WARN", "DANGER", "--"}
    ensures var raw := Lower(if Truthy(level) then Shown(level, show) else "");
      (r == "OK" <==> raw == "ok") && (r == "WARN" <==> raw == "warn") && (r == "DANGER" <==> raw == "danger")
  {
    var raw := Lower(if Truthy(level) then Shown(level, show) else "");
    if raw == "ok" then "OK"
    else if raw == "warn" then "WARN"
    else if raw == "danger" then "DANGER"
    else "--"
  }

  /** One figure of the performance summary for a section and a horizon, when present. */
  function PerfAt(perf: Value, section: string, horizon: string, name: string): Value
  {
    Prop(Prop(Prop(perf, section), horizon), name)
  }

  /** The drift level, or `--` when it is missing or empty. */
  function DriftLevel(perf: Value, horizon: string): Value
  {
    var l := PerfAt(perf, "drift", horizon, "level");
    if Truthy(l) then l else Str("--")
  }

  /** One reason's plain text (`toPlainText(item?.text || "")`). */
  function ReasonText(item: Value, host: Host): string
  {
    var t := Prop(item, "text");
    host.plain(if Truthy(t) then Shown(t, host.show) else "")
  }

  /** The plain texts of the first three reasons, the empty ones dropped. */
  function ReasonTexts(items: seq<Value>, host: Host): (r: seq<string>)
    ensures |r| <= |items|
    ensures forall s :: s in r ==> s != ""
    ensures forall s :: s in r <==> s != "" && exists i :: 0 <= i < |items| && s == ReasonText(items[i], host)
  {
    if items == [] then []
    else
      var front := ReasonTexts(items[..|items| - 1], host);
      var t := ReasonText(items[|items| - 1], host);
      assert forall i :: 0 <= i < |items| - 1 ==> items[..|items| - 1][i] == items[i];
      if t == "" then front else front + [t]
  }

  /** The base address without one trailing '/'. */
  function StripSlash(url: string): (r: string)
    ensures EndsWith(url, "/") ==> url == r + "/"
    ensures !EndsWith(url, "/") ==> r == url
  {
    if EndsWith(url, "/") then
      assert url == url[..|url| - 1] + url[|url| - 1..];
      url[..|url| - 1]
    else url
  }

  const LinkSection := "evalPanelSection"
  const ExplainTab := "explain"

  /** The query of the link: that date on the explanation tab. */
  function LinkQuery(date: string): string
  {
    "?date=" + date + "&tab=" + ExplainTab
  }

  /** The link to that day's explanation tab. */
  function DeepLinkText(baseUrl: string, date: string): string
  {
    StripSlash(baseUrl) + LinkQuery(date) + "#" + LinkSection
  }

  /** The page reads the link's query and hash back as that day on the explanation tab. */
  lemma DeepLinkReadsBack(date: string)
    requires IsIsoShape(date)
    ensures ParseDeepLink(Str(LinkQuery(date)), Str("#" + LinkSection)) == Link(Some(date), Some(ExplainTab), "#" + LinkSection)
  {
    assert ExplainTab in AllowedTabs;
    LinkRoundTrip(date, ExplainTab, LinkSection);
  }

  /** The first line: the report type, the date, then the tier (daily) or the alert title. */
  function Header(kind: string, date: string, state: string, title: string): (h: string)
    ensures kind == "alert" ==> StartsWith(h, "ETH-A 报警 · " + date)
    ensures kind == "alert" && title != "" ==> EndsWith(h, " · " + title)
    ensures kind == "alert" && title == "" ==> h == "ETH-A 报警 · " + date
    ensures kind != "alert" ==> StartsWith(h, "ETH-A 日报 · " + date) && EndsWith(h, " · " + state)
  {
    if kind == "alert" then
      var p := "ETH-A 报警 · " + date;
      var h := if title != "" then p + (" · " + title) else p;
      assert h[..|p|] == p;
      assert title != "" ==> h[|h| - |" · " + title|..] == " · " + title;
      h
    else
      var p := "ETH-A 日报 · " + date;
      var h := p + (" · " + state);
      assert h[..|p|] == p && h[|h| - |" · " + state|..] == " · " + state;
      h
  }

  /** The state letter of the output, or `--` when there is none. */
  function StateOf(output: Record, show: Value -> string): string
  {
    if Truthy(Field(output, "state")) then Shown(Field(output, "state"), show) else "--"
  }

  /** The bold header line and, for an alert given a reason, the reason line. */
  function HeadLines(m: MessageInput, host: Host): (r: seq<string>)
    ensures var withReason := m.kind == "alert" && m.alertReason != "";
      |r| == (if withReason then 2 else 1)
      && r[0] == "**" + Header(m.kind, ResolvedDate(m, host), StateOf(OutputOf(m.record), host.show), m.alertTitle) + "**"
      && (withReason ==> r[1] == "原因：" + m.alertReason)
  {
    PushIf(["**" + Header(m.kind, ResolvedDate(m, host), StateOf(OutputOf(m.record), host.show), m.alertTitle) + "**"],
           "原因：" + m.alertReason, m.kind == "alert" && m.alertReason != "")
  }

  /** The advice line: the plain text of the action summary's detail (it has no `humanAdvice`, and the detail is never empty). */
  function ActionLine(output: Record, host: Host): (r: string)
    ensures StartsWith(r, "动作：")
  {
    var t := "动作：" + host.plain(BuildActionSummary(output, host.fixed, host.show).detail);
    assert t[..|"动作："|] == "动作：";
    t
  }

  /** β and its cap, the confidence, the hedge flag and whether the day's run may be executed. */
  function BetaLine(output: Record, dailyStatus: Value, host: Host): string
  {
    var exec := if Truthy(Prop(dailyStatus, "status")) then Upper(Shown(Prop(dailyStatus, "status"), host.show)) else "--";
    "β/β_cap：" + Fixed2(Field(output, "beta"), host.fixed) + "/" + Fixed2(Field(output, "betaCap"), host.fixed)
    + " · 置信度：" + Fixed2(Field(output, "confidence"), host.fixed)
    + " · 对冲：" + (if Truthy(Field(output, "hedge")) then "ON" else "OFF") + " · 可执行：" + exec
  }

  /** The matured and total sample counts, and the 7- and 14-day hit rates with their drift levels. */
  function PerfLine(perf: Value, host: Host): string
  {
    "成熟度：" + Shown(Prop(Prop(perf, "maturity"), "matured"), host.show) + "/" + Shown(Prop(Prop(perf, "maturity"), "total"), host.show)
    + " · 7D 命中：" + FmtPct(PerfAt(perf, "byHorizon", "7", "accuracy"), host.fixed)
    + "（漂移 " + FmtLevel(DriftLevel(perf, "7"), host.show) + "）"
    + " · 14D 命中：" + FmtPct(PerfAt(perf, "byHorizon", "14", "accuracy"), host.fixed)
    + "（漂移 " + FmtLevel(DriftLevel(perf, "14"), host.show) + "）"
  }

  /** The performance line, when both sample counts are known (`?? null`). */
  function PerfLines(perf: Value, host: Host): seq<string>
  {
    if Prop(Prop(perf, "maturity"), "matured") != Null && Prop(Prop(perf, "maturity"), "total") != Null
    then [PerfLine(perf, host)] else []
  }

  /** The drivers line, when a top reason has text. */
  function DriverLines(output: Record, host: Host): seq<string>
  {
    var reasons := ReasonTexts(Take(Items(Field(output, "reasonsTop3")), 3), host);
    if reasons != [] then ["Top3 驱动：" + Join(reasons, " / ")] else []
  }

  /** The report's lines, in the order `buildDiscordMessage` pushes them. */
  function MessageLines(m: MessageInput, host: Host): seq<string>
  {
    var output := OutputOf(m.record);
    HeadLines(m, host) + [ActionLine(output, host), BetaLine(output, m.dailyStatus, host)]
    + PerfLines(m.perfSummary, host) + DriverLines(output, host)
    + (if m.iterationExcerpt != "" then ExcerptBlock(m.iterationExcerpt) else [])
    + ["", DeepLinkText(m.baseUrl, ResolvedDate(m, host))]
  }

  /** The fenced excerpt, cut to 900 characters. */
  function ExcerptBlock(excerpt: string): (r: seq<string>)
    ensures |r| == 5 && |r[3]| <= 900 && r[3] == Take(excerpt, 900)
    ensures r[..3] == ["", "迭代建议（节选）：", "```"] && r[4] == "```"
  {
    ["", "迭代建议（节选）：", "```", Take(excerpt, 900), "```"]
  }

  /** Every header starts with the dashboard's name. */
  lemma HeaderBrand(kind: string, date: string, state: string, title: string)
    ensures var first := "**" + Header(kind, date, state, title) + "**";
      StartsWith(first, "**ETH-A ") && EndsWith(first, "**")
  {
    var h := Header(kind, date, state, title);
    assert StartsWith(h, "ETH-A ");
    var first := "**" + h + "**";
    assert first[..|"**ETH-A "|] == "**" + h[..|"ETH-A "|];
    assert first[|first| - 2..] == "**";
  }

  /** The message's layout: header first, an optional reason, the action, the β line, then the optional parts, a blank line and the link. */
  lemma MessageLayout(m: MessageInput, host: Host)
    ensures var r := MessageLines(m, host);
      var withReason := m.kind == "alert" && m.alertReason != "";
      |r| >= 5
      && StartsWith(r[0], "**ETH-A ") && EndsWith(r[0], "**")
      && (withReason ==> r[1] == "原因：" + m.alertReason)
      && StartsWith(r[if withReason then 2 else 1], "动作：")
      && r[|r| - 2] == "" && r[|r| - 1] == DeepLinkText(m.baseUrl, ResolvedDate(m, host))
      && (m.iterationExcerpt != "" ==> |r| >= 7 && r[|r| - 7..|r| - 2] == ExcerptBlock(m.iterationExcerpt))
  {
    var output := OutputOf(m.record);
    var head := HeadLines(m, host);
    var mid := [ActionLine(output, host), BetaLine(output, m.dailyStatus, host)];
    var hm := head + mid;
    var front := hm + PerfLines(m.perfSummary, host) + DriverLines(output, host);
    var block := if m.iterationExcerpt != "" then ExcerptBlock(m.iterationExcerpt) else [];
    var tail := ["", DeepLinkText(m.baseUrl, ResolvedDate(m, host))];
    var r := MessageLines(m, host);
    assert r == front + block + tail;
    HeaderBrand(m.kind, ResolvedDate(m, host), StateOf(output, host.show), m.alertTitle);
    assert r[0] == front[0] == hm[0] == head[0];
    assert r[|head|] == front[|head|] == hm[|head|] == mid[0];
    if m.kind == "alert" && m.alertReason != "" {
      assert r[1] == front[1] == hm[1] == head[1];
    }
    assert r[|r| - 2..] == tail;
    if m.iterationExcerpt != "" {
      assert r[|r| - 7..|r| - 2] == block;
    }
  }

  /** `buildDiscordMessage`: the lines joined by newlines and cut to 1990 characters. */
  function BuildDiscordMessage(m: MessageInput, host: Host): (content: string)
    ensures |content| <= 1990
    ensures var full := Join(MessageLines(m, host), "\n");
      StartsWith(full, content) && (|full| <= 1990 ==> content == full)
  {
    Take(Join(MessageLines(m, host), "\n"), 1990)
  }

  /** A daily report names its tier in the header; an alert names its title. */
  lemma HeaderNames(m: MessageInput, host: Host)
    ensures var r := MessageLines(m, host);
      var state := StateOf(OutputOf(m.record), host.show);
      (m.kind != "alert" ==> EndsWith(r[0], " · " + state + "**"))
      && (m.kind == "alert" && m.alertTitle != "" ==> EndsWith(r[0], " · " + m.alertTitle + "**"))
  {
    var r := MessageLines(m, host);
    var state := StateOf(OutputOf(m.record), host.show);
    var h := Header(m.kind, ResolvedDate(m, host), state, m.alertTitle);
    assert r[0] == HeadLines(m, host)[0] == "**" + h + "**";
    if m.kind != "alert" {
      EndsWithAppend(h, " · " + state, "**");
    } else if m.alertTitle != "" {
      EndsWithAppend(h, " · " + m.alertTitle, "**");
    }
  }

  lemma EndsWithAppend(s: string, suffix: string, tail: string)
    requires EndsWith(s, suffix)
    ensures EndsWith("**" + s + tail, suffix + tail)
  {
    var t := "**" + s + tail;
    assert t[|t| - |suffix + tail|..] == s[|s| - |suffix|..] + tail;
  }

  /** A message short enough to post whole ends with the link to that day's explanation tab. */
  lemma MessageEndsWithLink(m: MessageInput, host: Host)
    requires |Join(MessageLines(m, host), "\n")| <= 1990
    ensures EndsWith(BuildDiscordMessage(m, host), "\n" + DeepLinkText(m.baseUrl, ResolvedDate(m, host)))
  {
    var r := MessageLines(m, host);
    MessageLayout(m, host);
    JoinLast(r, "\n");
  }

  /** A join of two or more parts ends with the separator and the last part. */
  lemma {:induction false} JoinLast(parts: seq<string>, sep: string)
    requires |parts| >= 2
    ensures EndsWith(Join(parts, sep), sep + parts[|parts| - 1])
    decreases |parts|
  {
    var j := Join(parts, sep);
    var tail := Join(parts[1..], sep);
    var suffix := sep + parts[|parts| - 1];
    if |parts| == 2 {
      assert j == parts[0] + suffix;
    } else {
      JoinLast(parts[1..], sep);
      assert parts[1..][|parts| - 2] == parts[|parts| - 1];
      assert j == (parts[0] + sep) + tail;
    }
    assert j[|j| - |suffix|..] == suffix;
  }

  // ---------------------------------------------------------------- send status

  /** `typeof v === "object"` for a truthy value. */
  predicate IsObject(v: Value)
  {
    v.Obj? || v.Arr?
  }

  /** The keys already sent for a date's alerts; a missing or malformed bucket has none. */
  function SentKeys(status: Value, date: string): seq<Value>
  {
    Items(Prop(Prop(Prop(status, "alerts"), date), "sentKeys"))
  }

  /** Whether a send is skipped: never when forced; a daily report already sent for that date with that hash; an alert whose key was already sent that day. */
  function ShouldSkipSend(status: Value, kind: string, date: string, key: string, hash: string, force: bool): (r: bool)
    ensures force ==> !r
    ensures !IsObject(status) ==> !r
    ensures !force && kind == "daily" ==>
      (r <==> IsObject(status) && Prop(Prop(status, "daily"), "date") == Str(date) && Prop(Prop(status, "daily"), "hash") == Str(hash))
    ensures !force && kind != "daily" ==> (r <==> key != "" && Str(key) in SentKeys(status, date))
  {
    if force then false
    else if !IsObject(status) then false
    else if kind == "daily" then
      Prop(Prop(status, "daily"), "date") == Str(date) && Prop(Prop(status, "daily"), "hash") == Str(hash)
    else
      var bucket := Prop(Prop(status, "alerts"), date);
      if !IsObject(bucket) then false
      else key != "" && Str(key) in Items(Prop(bucket, "sentKeys"))
  }

  /** The fields of an object, or none. */
  function FieldsOf(v: Value): Record
  {
    if v.Obj? then v.fields else map[]
  }

  /** Records a non-empty key as sent, once. */
  function AddKey(sent: seq<Value>, key: string): (r: seq<Value>)
    ensures forall v :: v in r <==> v in sent || (key != "" && v == Str(key))
    ensures Distinct(sent) ==> Distinct(r)
    ensures key != "" ==> multiset(r)[Str(key)] == 1 || multiset(sent)[Str(key)] > 1
  {
    if key != "" && Str(key) !in sent then
      assert multiset(sent)[Str(key)] == 0;
      sent + [Str(key)]
    else
      assert key != "" ==> multiset(sent)[Str(key)] >= 1;
      sent
  }

  /** `alerts[date] = { sentAt, sentKeys }`: that date's bucket with the key added, the other dates as they were. */
  function RecordAlert(alerts: Record, date: string, key: string, now: string): (r: Record)
    ensures date in r && r[date] == Obj(map["sentAt" := Str(now), "sentKeys" := Arr(AddKey(SentKeys(Obj(map["alerts" := Obj(alerts)]), date), key))])
    ensures forall d :: d != date ==> (d in r <==> d in alerts) && (d in r ==> r[d] == alerts[d])
  {
    var bucket := if date in alerts && alerts[date].Obj? then alerts[date] else Obj(map["sentKeys" := Arr([])]);
    assert Items(Prop(bucket, "sentKeys")) == SentKeys(Obj(map["alerts" := Obj(alerts)]), date);
    alerts[date := Obj(map["sentAt" := Str(now), "sentKeys" := Arr(AddKey(Items(Prop(bucket, "sentKeys")), key))])]
  }

  /** Only an object's `alerts` object holds buckets. */
  lemma SentKeysOfAlerts(status: Value, date: string)
    ensures SentKeys(Obj(map["alerts" := Obj(FieldsOf(Prop(status, "alerts")))]), date) == SentKeys(status, date)
  {
  }

  /**
   * `updateSendStatus`: a copy of the status stamped `now`; a daily send records the date
   * and hash, an alert adds its key to that date's bucket.
   */
  function UpdateSendStatus(status: Value, kind: string, date: string, key: string, hash: string, now: string): (r: Value)
    ensures r.Obj? && "generatedAt" in r.fields && r.fields["generatedAt"] == Str(now)
    ensures forall k ::
      k in FieldsOf(status) && k != "generatedAt" && k != (if kind == "daily" then "daily" else "alerts")
      ==> k in r.fields && r.fields[k] == FieldsOf(status)[k]
    ensures kind == "daily" ==> Prop(r, "daily") == Obj(map["date" := Str(date), "sentAt" := Str(now), "hash" := Str(hash)])
    ensures kind != "daily" ==> Prop(r, "alerts") == Obj(RecordAlert(FieldsOf(Prop(status, "alerts")), date, key, now))
  {
    var next := FieldsOf(status)["generatedAt" := Str(now)];
    if kind == "daily" then
      Obj(next["daily" := Obj(map["date" := Str(date), "sentAt" := Str(now), "hash" := Str(hash)])])
    else
      Obj(next["alerts" := Obj(RecordAlert(FieldsOf(Prop(status, "alerts")), date, key, now))])
  }

  /** An alert send adds its key once to that date's bucket, stamps the bucket, and leaves other dates' buckets alone. */
  lemma AlertRecorded(status: Value, date: string, key: string, hash: string, now: string)
    ensures var r := UpdateSendStatus(status, "alert", date, key, hash, now);
      SentKeys(r, date) == AddKey(SentKeys(status, date), key)
      && Prop(Prop(Prop(r, "alerts"), date), "sentAt") == Str(now)
      && (Prop(status, "alerts").Obj? ==> forall d :: d != date ==> Prop(Prop(r, "alerts"), d) == Prop(Prop(status, "alerts"), d))
  {
    SentKeysOfAlerts(status, date);
  }

  /** Once a send is recorded, the same daily report (date and hash) or the same alert key is not sent again. */
  lemma RecordedSendSkipped(status: Value, kind: string, date: string, key: string, hash: string, now: string)
    requires kind == "daily" || key != ""
    ensures ShouldSkipSend(UpdateSendStatus(status, kind, date, key, hash, now), kind, date, key, hash, false)
  {
    if kind != "daily" {
      AlertRecorded(status, date, key, hash, now);
      assert Str(key) in AddKey(SentKeys(status, date), key);
    }
  }

  /** Recording an alert never lets an alert that was skipped before through again. */
  lemma AlertSkipsKept(status: Value, date: string, key: string, hash: string, now: string, d: string, k: string, h: string)
    requires ShouldSkipSend(status, "alert", d, k, h, false)
    ensures ShouldSkipSend(UpdateSendStatus(status, "alert", date, key, hash, now), "alert", d, k, h, false)
  {
    var r := UpdateSendStatus(status, "alert", date, key, hash, now);
    AlertRecorded(status, date, key, hash, now);
    assert Str(k) in SentKeys(status, d);
    assert Prop(status, "alerts").Obj?;
    if d == date {
      assert Str(k) in AddKey(SentKeys(status, date), key);
    } else {
      assert Prop(Prop(r, "alerts"), d) == Prop(Prop(status, "alerts"), d);
    }
  }
}
