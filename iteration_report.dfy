// The iteration report (scripts/iteration_report.mjs): a Markdown page written from the
// performance summary, with the day's hit rates, the drift gate, the latest evaluated
// samples and advisory suggestions that never change the strategy by themselves.

module IterationReport {
  import opened Values
  import opened Text
  import opened Inputs

  /** `pct(value, 1)`: a number as a percentage with one decimal; anything else "--". */
  function Pct(v: Value, fixed: (real, nat) -> string): (r: string)
    ensures v.Num? ==> r == fixed(v.n * 100.0, 1) + "%" && EndsWith(r, "%")
    ensures !v.Num? ==> r == "--"
  {
    if v.Num? then
      var t := fixed(v.n * 100.0, 1) + "%";
      assert t[|t| - 1..] == "%";
      t
    else "--"
  }

  /** `safe(value)`: null, undefined and "" read as "--"; anything else is its text. */
  function Safe(v: Value, show: Value -> string): (r: string)
    ensures v == Null || v == Str("") ==> r == "--"
    ensures v.Str? && v.s != "" ==> r == v.s
    ensures v != Null && !v.Str? ==> r == show(v)
  {
    if v == Null || v == Str("") then "--" else Shown(v, show)
  }

  /** `value ?? fallback` inside a template literal. */
  function OrText(v: Value, fallback: string, show: Value -> string): string
  {
    if v == Null then fallback else Shown(v, show)
  }

  /** `horizonLine`: hit rate, hits over total and threshold of one horizon; a missing horizon reads as `{}`. */
  function HorizonLine(byHorizon: Value, key: string, fixed: (real, nat) -> string, show: Value -> string): (r: string)
    ensures StartsWith(r, "- " + key + "D：命中率 ")
  {
    var info := Or(Prop(byHorizon, key), Obj(map[]));
    var accuracy := if Prop(info, "accuracy").Num? then Pct(Prop(info, "accuracy"), fixed) else "--";
    var p := "- " + key + "D：命中率 ";
    var t := p + accuracy + "（" + OrText(Prop(info, "hit"), "0", show) + "/" + OrText(Prop(info, "total"), "0", show)
      + "，阈值 ±" + OrText(Prop(info, "thresholdPct"), "--", show) + "%）";
    assert t[..|p|] == p;
    t
  }

  /** The title, the prompt version and the generation stamp. */
  function HeadSection(perf: Value, promptVersion: Value, show: Value -> string): seq<string>
  {
    var asOf := Or(Prop(perf, "asOfDate"), Str("unknown"));
    var version := Or(Or(promptVersion, Prop(perf, "promptVersion")), Str("--"));
    ["# 迭代建议 · " + Shown(asOf, show), "", "- Prompt 版本：" + Shown(version, show),
     "- 生成时间：" + Safe(Prop(perf, "generatedAt"), show), ""]
  }

  /** The maturity line. */
  function MaturityLine(maturity: Value, fixed: (real, nat) -> string, show: Value -> string): string
  {
    "- 样本成熟度：" + OrText(Prop(maturity, "matured"), "0", show) + "/" + OrText(Prop(maturity, "total"), "0", show)
    + "（成熟率 " + Pct(Prop(maturity, "ratio"), fixed) + "，PENDING " + OrText(Prop(maturity, "pending"), "0", show) + "）"
  }

  /** The day's performance: maturity, the 7-day line, and the 14-day line when that horizon is reported. */
  function PerfSection(perf: Value, fixed: (real, nat) -> string, show: Value -> string): (r: seq<string>)
    ensures var byHorizon := Prop(perf, "byHorizon");
      |r| == (if Truthy(Prop(byHorizon, "14")) then 5 else 4)
      && r[0] == "## 本日性能" && r[2] == HorizonLine(byHorizon, "7", fixed, show)
      && (Truthy(Prop(byHorizon, "14")) ==> r[3] == HorizonLine(byHorizon, "14", fixed, show))
      && r[|r| - 1] == ""
  {
    var byHorizon := Prop(perf, "byHorizon");
    var lines := ["## 本日性能", MaturityLine(Prop(perf, "maturity"), fixed, show), HorizonLine(byHorizon, "7", fixed, show)];
    PushIf(lines, HorizonLine(byHorizon, "14", fixed, show), Truthy(Prop(byHorizon, "14"))) + [""]
  }

  /** The seven-day drift block of the performance summary, or an empty one. */
  function Drift7(perf: Value): Value
  {
    Or(Prop(Prop(perf, "drift"), "7"), Obj(map[]))
  }

  /** The drift gate of the 7-day horizon: its label (or level) and its note. */
  function DriftSection(perf: Value, show: Value -> string): seq<string>
  {
    var d := Drift7(perf);
    ["## 稳定性（漂移门）", "- 7D：" + Safe(Or(Prop(d, "label"), Prop(d, "level")), show) + " · " + Safe(Prop(d, "note"), show), ""]
  }

  const NoRecent := "- 暂无（样本不足或未成熟）"

  /** The latest evaluated samples: the first ten of the summary's `recent` list. */
  function RecentRows(perf: Value): (r: seq<Value>)
    ensures |r| <= 10
  {
    Take(Items(Prop(perf, "recent")), 10)
  }

  /** One sample: its date, its tier, and the 7-day verdict (pending when unknown) with the return. */
  function RowLine(row: Value, fixed: (real, nat) -> string, show: Value -> string): string
  {
    var cell := Or(Prop(Prop(row, "horizons"), "7"), Obj(map[]));
    var verdict := Or(Prop(cell, "verdict"), Str("pending"));
    var ret := if Prop(cell, "returnPct").Num? then fixed(Prop(cell, "returnPct").n, 1) + "%" else "--";
    "- " + Shown(Prop(row, "date"), show) + " · " + Shown(Prop(row, "state"), show) + " · 7D " + Upper(Shown(verdict, show)) + " " + ret
  }

  /** `RowLine` as a function of the row alone. */
  function RowFormatter(fixed: (real, nat) -> string, show: Value -> string): Value -> string
  {
    row => RowLine(row, fixed, show)
  }

  /** The row lines, one per sample, in order. */
  function RowLines(rows: seq<Value>, fixed: (real, nat) -> string, show: Value -> string): (r: seq<string>)
    ensures |r| == |rows| && forall i :: 0 <= i < |rows| ==> r[i] == RowLine(rows[i], fixed, show)
  {
    MapSeq(rows, RowFormatter(fixed, show))
  }

  const RecentTitle := "## 最近错因样本（Top 10）"

  /** The samples section: a line per sample, or the "none yet" line. */
  function RecentSection(perf: Value, fixed: (real, nat) -> string, show: Value -> string): seq<string>
  {
    var rows := RecentRows(perf);
    [RecentTitle] + (if rows == [] then [NoRecent] else RowLines(rows, fixed, show)) + [""]
  }

  /** At most ten samples are listed, and the "none yet" line stands in when there are none. */
  lemma RecentShape(perf: Value, fixed: (real, nat) -> string, show: Value -> string)
    ensures var r := RecentSection(perf, fixed, show);
      var rows := RecentRows(perf);
      |r| == 2 + (if rows == [] then 1 else |rows|) && |r| <= 12
      && r[0] == RecentTitle && r[|r| - 1] == ""
      && (rows == [] ==> r[1] == NoRecent)
      && (rows != [] ==> r[1..|r| - 1] == RowLines(rows, fixed, show))
      && rows == Take(Items(Prop(perf, "recent")), 10)
  {
    var rows := RecentRows(perf);
    var middle := if rows == [] then [NoRecent] else RowLines(rows, fixed, show);
    var r := RecentSection(perf, fixed, show);
    assert r == [RecentTitle] + middle + [""];
    assert r[1..|r| - 1] == middle;
  }

  const BackfillHint := "先补齐历史：执行一次 365 天日级 backfill，提升成熟样本比例，避免漂移门长期“样本不足”。"
  const DangerHint := "模型稳定性偏弱：建议下一周期按防守档/减小有效 β，优先等待关键反证指标转好再加仓。"
  const WarnHint := "存在中度漂移：建议降低单次动作幅度，强化反证条件触发的止损/对冲。"
  const AccuracyHint := "7D 命中率偏低：建议复盘近 10 次 MISS 的共同特征（宏观/ETF/流动性），再考虑是否需要调整阈值或加大惩罚系数。"
  const DefaultHint := "暂无强制改动建议：继续按当前门禁执行，并保持每日对账与记录即可。"

  /** The matured share is known and below 60%. */
  predicate LowMaturity(perf: Value)
  {
    var ratio := Prop(Prop(perf, "maturity"), "ratio");
    ratio.Num? && ratio.n < 0.6
  }

  /** The 7-day hit rate is known and below 40%. */
  predicate LowAccuracy(perf: Value)
  {
    var acc := Prop(Prop(Prop(perf, "byHorizon"), "7"), "accuracy");
    acc.Num? && acc.n < 0.4
  }

  /** The suggestions, in the order the script pushes them; the default one only when no other applies. */
  function Suggestions(perf: Value): (r: seq<string>)
    ensures 1 <= |r| <= 3
    ensures BackfillHint in r <==> LowMaturity(perf)
    ensures DangerHint in r <==> Prop(Drift7(perf), "level") == Str("danger")
    ensures WarnHint in r <==> Prop(Drift7(perf), "level") == Str("warn")
    ensures !(DangerHint in r && WarnHint in r)
    ensures AccuracyHint in r <==> LowAccuracy(perf)
    ensures DefaultHint in r <==> r == [DefaultHint]
    ensures r == [DefaultHint] <==> (!LowMaturity(perf) && !LowAccuracy(perf)
      && Prop(Drift7(perf), "level") != Str("danger") && Prop(Drift7(perf), "level") != Str("warn"))
  {
    var level := Prop(Drift7(perf), "level");
    var s0 := PushIf([], BackfillHint, LowMaturity(perf));
    var s1 := PushIf(s0, DangerHint, level == Str("danger"));
    var s2 := PushIf(s1, WarnHint, level != Str("danger") && level == Str("warn"));
    var s3 := PushIf(s2, AccuracyHint, LowAccuracy(perf));
    HintsDistinct();
    if s3 == [] then [DefaultHint] else s3
  }

  /** The five suggestion texts are pairwise different. */
  lemma HintsDistinct()
    ensures DefaultHint != BackfillHint && DefaultHint != DangerHint && DefaultHint != WarnHint && DefaultHint != AccuracyHint
    ensures DangerHint != WarnHint && DangerHint != BackfillHint && DangerHint != AccuracyHint
    ensures WarnHint != BackfillHint && WarnHint != AccuracyHint && BackfillHint != AccuracyHint
  {
    assert |BackfillHint| == 51 && |DangerHint| == 42 && |WarnHint| == 33 && |AccuracyHint| == 62 && |DefaultHint| == 32;
  }

  /** Each item prefixed by its position counted from one. */
  function Numbered(items: seq<string>): (r: seq<string>)
    ensures |r| == |items| && forall i :: 0 <= i < |items| ==> r[i] == IntText(i + 1) + ". " + items[i]
  {
    seq(|items|, i requires 0 <= i < |items| => IntText(i + 1) + ". " + items[i])
  }

  const SuggestTitle := "## 迭代建议（仅建议，不自动改策略）"
  const RollbackLines := ["", "## 回滚方式", "- 本报告不改变任何策略参数；若后续手动改动阈值/提示词，请通过 Git 版本回退。", ""]

  /** The lines of the report, section by section. */
  function ReportLines(perf: Value, promptVersion: Value, fixed: (real, nat) -> string, show: Value -> string): seq<string>
  {
    HeadSection(perf, promptVersion, show) + PerfSection(perf, fixed, show) + DriftSection(perf, show)
    + RecentSection(perf, fixed, show) + [SuggestTitle] + Numbered(Suggestions(perf)) + RollbackLines
  }

  /**
   * `buildIterationReport`: pushes the sections one after the other, a line per recent
   * sample and a numbered line per suggestion, and joins them with newlines.
   */
  method BuildIterationReport(perf: Value, promptVersion: Value, fixed: (real, nat) -> string, show: Value -> string)
    returns (report: string)
    ensures report == Join(ReportLines(perf, promptVersion, fixed, show), "\n")
  {
    var lines := HeadSection(perf, promptVersion, show) + PerfSection(perf, fixed, show) + DriftSection(perf, show);
    var recent := RecentRows(perf);
    var rows: seq<string> := [];
    if recent == [] {
      rows := [NoRecent];
    } else {
      for i := 0 to |recent|
        invariant rows == RowLines(recent[..i], fixed, show)
      {
        MapSeqSnoc(recent, RowFormatter(fixed, show), i);
        rows := rows + [RowLine(recent[i], fixed, show)];
      }
      assert recent[..|recent|] == recent;
    }
    lines := lines + ([RecentTitle] + rows + [""]);
    lines := lines + [SuggestTitle];
    var suggestions := Suggestions(perf);
    var numbered: seq<string> := [];
    for i := 0 to |suggestions|
      invariant numbered == Numbered(suggestions[..i])
    {
      NumberedSnoc(suggestions, i);
      numbered := numbered + [IntText(i + 1) + ". " + suggestions[i]];
    }
    assert suggestions[..|suggestions|] == suggestions;
    lines := lines + numbered + RollbackLines;
    report := Join(lines, "\n");
  }

  lemma NumberedSnoc(items: seq<string>, k: nat)
    requires k < |items|
    ensures Numbered(items[..k + 1]) == Numbered(items[..k]) + [IntText(k + 1) + ". " + items[k]]
  {
    var a := Numbered(items[..k + 1]);
    var b := Numbered(items[..k]) + [IntText(k + 1) + ". " + items[k]];
    assert |a| == |b|;
    forall i | 0 <= i < |a| ensures a[i] == b[i] {
      assert items[..k + 1][i] == items[i];
      if i < k {
        assert items[..k][i] == items[i];
      }
    }
  }

  /** The report lists exactly the suggestions, numbered from 1, right after their title. */
  lemma SuggestionsListed(perf: Value, promptVersion: Value, fixed: (real, nat) -> string, show: Value -> string)
    ensures var r := ReportLines(perf, promptVersion, fixed, show);
      var s := Suggestions(perf);
      var at := |r| - |RollbackLines| - |s|;
      at >= 1 && r[at - 1] == SuggestTitle && r[at..at + |s|] == Numbered(s)
      && r[0] == "# 迭代建议 · " + Shown(Or(Prop(perf, "asOfDate"), Str("unknown")), show)
  {
    var front := HeadSection(perf, promptVersion, show) + PerfSection(perf, fixed, show) + DriftSection(perf, show)
      + RecentSection(perf, fixed, show) + [SuggestTitle];
    var s := Suggestions(perf);
    var r := ReportLines(perf, promptVersion, fixed, show);
    assert r == front + Numbered(s) + RollbackLines;
    assert r[|front| - 1] == front[|front| - 1] == SuggestTitle;
    assert r[|front|..|front| + |s|] == Numbered(s);
    assert r[0] == front[0] == HeadSection(perf, promptVersion, show)[0];
  }
}
