// src/engine/pipeline.js: runPipeline evaluates every rule, pushes one gate
// per rule, derives the A/B/C state and sizes the position (beta, confidence,
// execution cost), then annotates the gates with provenance and appends ACT.

module Pipeline {
  import opened Values
  import opened Utils
  import opened EngineInput
  import opened State
  import opened Reasons
  import Macro
  import Liquidity
  import RiskSwitch
  import Leverage
  import Supply
  import Etf
  import Danger
  import Svc
  import Bpi
  import Bcm
  import Ataf
  import Phase
  import Be
  import Hpm

  /** The runtime options; `Some` marks a finite number (Number.isFinite), `""` an absent string. */
  datatype Runtime = Runtime(
    driftLevel: string, driftBetaMultiplier: Option<real>, driftNote: string,
    driftAccuracy: Option<real>, driftBaseline: Option<real>, driftSampleSize: Option<real>, driftHorizon: Option<real>,
    costBps: Option<real>, previousBeta: Option<real>, asOfDate: string)

  const DefaultRuntime := Runtime("", None, "", None, None, None, None, None, None, "")

  datatype Status = Open | Warn | Closed

  /** Where a gate input came from and when it was observed and fetched. */
  datatype Timing = Timing(observedAt: Value, fetchedAt: Value, freshness: Value)

  /** A gate; `sources`/`timings` are absent until the annotation pass. */
  datatype Gate = Gate(id: string, name: string, status: Status, note: string, inputs: map<string, Value>,
                       rules: seq<string>, sources: Option<map<string, string>>, timings: Option<map<string, Timing>>)

  datatype Execution = Execution(level: string, previousBeta: real, turnover: real, costBps: real,
                                 expectedCostPct: real, edgePct: real, costPressure: real, betaMultiplier: real)

  datatype ModelRisk = ModelRisk(level: Drift, note: string, accuracy: Option<real>, baseline: Option<real>,
                                 sampleSize: Option<real>, betaMultiplier: real)

  datatype Output = Output(
    state: Tier, beta: real, betaRaw: real, betaCap: real, hedge: bool, phaseLabel: string,
    confidence: real, extremeAllowed: bool, distributionGate: real, modelRisk: ModelRisk,
    execution: Execution, reasonsTop3: seq<ReasonRef>, riskNotes: seq<string>, gates: seq<Gate>, fofScore: real)

  const GateOrder := ["G0", "V1", "V2", "D-ATAF", "V3", "V4", "V5", "V6", "V6.2", "V7", "V8", "HPM", "SC", "BE", "3域", "DG", "QG", "ACT"]

  function TierText(t: Tier): string { match t case A => "A" case B => "B" case C => "C" }

  function LevelText(d: Drift): string { match d case Ok => "ok" case Warn => "warn" case Danger => "danger" }

  // ---- drift and cost settings (src/engine/pipeline.js:29-52)

  /** Only the three known levels survive; anything else reads as ok. */
  function NormalizeDrift(level: string): (d: Drift)
    ensures level == "danger" <==> d == Danger
    ensures level == "warn" <==> d == Drift.Warn
    ensures level != "danger" && level != "warn" ==> d == Ok
    ensures LevelText(d) == level || (d == Ok && level != "danger" && level != "warn")
  {
    if level == "danger" then Danger else if level == "warn" then Drift.Warn else Ok
  }

  /** A supplied positive multiplier wins; otherwise the level's default 0.72 / 0.86 / 1. */
  function DriftMultiplier(given: Option<real>, d: Drift): (m: real)
    ensures given.Some? && given.value > 0.0 ==> m == given.value
    ensures !(given.Some? && given.value > 0.0) ==> m == (match d case Danger => 0.72 case Warn => 0.86 case Ok => 1.0)
    ensures m > 0.0
  {
    if given.Some? && given.value > 0.0 then given.value
    else match d case Danger => 0.72 case Warn => 0.86 case Ok => 1.0
  }

  function DriftNote(given: string, d: Drift): string
  {
    if given != "" then given
    else match d
      case Danger => "预测命中率偏离基线，执行强降级"
      case Warn => "预测命中率低于基线，执行温和降级"
      case Ok => "预测质量稳定"
  }

  /** A supplied positive cost wins; otherwise 12 basis points. */
  function ExecutionCostBps(given: Option<real>): (c: real)
    ensures given.Some? && given.value > 0.0 ==> c == given.value
    ensures !(given.Some? && given.value > 0.0) ==> c == 12.0
    ensures c > 0.0
  {
    if given.Some? && given.value > 0.0 then given.value else 12.0
  }

  // ---- sizing (src/engine/pipeline.js:251-256, 381-415)

  /** The reversal boost applies only in the BTD→BTR phase. */
  function ReversalBoost(phaseLabel: string, notes: seq<string>): (b: real)
    ensures phaseLabel != Phase.Reversal ==> b == 0.0
    ensures -0.04 <= b <= 0.06
  {
    if phaseLabel == Phase.Reversal then
      (if Leverage.LongWicksNote in notes then 0.03 else 0.0)
      + (if Leverage.ShortFailureNote in notes then 0.03 else 0.0)
      - (if Leverage.ReverseFishingNote in notes then 0.04 else 0.0)
    else 0.0
  }

  /** The tier's cap base shifted by a tenth per SVC step, kept in [0.2, 1]. */
  function BetaCapFor(t: Tier, shift: int): (cap: real)
    ensures 0.2 <= cap <= 1.0
  {
    var base := match t case A => 0.9 case B => 0.6 case C => 0.35;
    Clamp(base + shift as real * 0.1, 0.2, 1.0)
  }

  function DistributionBoost(count: real): (b: real)
    ensures count < 2.0 ==> b == 0.0
    ensures count >= 2.0 ==> b >= 0.03
  {
    if count >= 2.0 then 0.03 * (count - 1.0) else 0.0
  }

  /** Execution tier by cost pressure: high at 0.7, medium at 0.45. */
  function ExecutionTier(costPressure: real): (tier: (string, real))
    ensures costPressure >= 0.7 ==> tier == ("high", 0.82)
    ensures 0.45 <= costPressure < 0.7 ==> tier == ("medium", 0.9)
    ensures costPressure < 0.45 ==> tier == ("ok", 1.0)
    ensures 0.0 < tier.1 <= 1.0
  {
    if costPressure >= 0.7 then ("high", 0.82)
    else if costPressure >= 0.45 then ("medium", 0.9)
    else ("ok", 1.0)
  }

  /** Turnover cost against the expected edge; with no previous beta the turnover and the pressure are 0. */
  method ExecutionFor(beta: real, previous: Option<real>, costBps: real, confidence: real) returns (e: Execution)
    requires costBps > 0.0
    ensures e.previousBeta == (if previous.Some? then previous.value else beta)
    ensures e.turnover == Abs(beta - e.previousBeta) && e.turnover >= 0.0
    ensures e.costBps == costBps
    ensures e.expectedCostPct == e.turnover * costBps / 100.0
    ensures e.edgePct == MaxReal(0.02, MaxReal(0.0, confidence - 0.5) * 1.6) && e.edgePct >= 0.02
    ensures e.costPressure == e.expectedCostPct / e.edgePct && e.costPressure >= 0.0
    ensures (e.level, e.betaMultiplier) == ExecutionTier(e.costPressure)
    ensures previous.None? ==> e.turnover == 0.0 && e.costPressure == 0.0 && e.level == "ok" && e.betaMultiplier == 1.0
  {
    var prev := if previous.Some? then previous.value else beta;
    var turnover := Abs(beta - prev);
    var expected := turnover * costBps / 100.0;
    assert expected >= 0.0 by { MulNonNegative(turnover, costBps); }
    var edge := MaxReal(0.02, MaxReal(0.0, confidence - 0.5) * 1.6);
    var pressure := expected / edge;
    var tier := ExecutionTier(pressure);
    e := Execution(tier.0, prev, turnover, costBps, expected, edge, pressure, tier.1);
  }

  // ---- reasons (src/engine/pipeline.js:466-492)

  /** The fifteen reasons the pipeline can give, in the order it checks them. */
  datatype ReasonKind = MacroShut | MacroResonance | LiquidityRed | EtfRed | Liquidation
                      | Crowding | SvcStrong | SvcWeak | Breakout | NoBreakout
                      | Distribution | DriftWarn | DriftDanger | Friction | Cost

  /** Text, weight and gate of each reason. */
  function ReasonOf(k: ReasonKind): Reason
  {
    match k
    case MacroShut => Reason("宏观紧缩关门", 9, "G0")
    case MacroResonance => Reason("宏观多信号共振", 10, "G0")
    case LiquidityRed => Reason("流动性缺血红灯", 8, "V1")
    case EtfRed => Reason("ETF 5D 负流红灯", 8, "V5")
    case Liquidation => Reason("清算超阈值，需降 β", 9, "V3")
    case Crowding => Reason("杠杆拥挤 + ETF 弱势", 7, "V3")
    case SvcStrong => Reason("SVC 结构强势加成", 6, "V6.2")
    case SvcWeak => Reason("SVC 结构偏弱", 6, "V6.2")
    case Breakout => Reason("突破验证通过", 5, "V5")
    case NoBreakout => Reason("突破未验证", 4, "V5")
    case Distribution => Reason("TradFi 分发闸门打开", 5, "DG")
    case DriftWarn => Reason("预测质量漂移，温和降级", 6, "QG")
    case DriftDanger => Reason("预测质量高漂移，强制降级", 9, "QG")
    case Friction => Reason("交易摩擦偏高，压低 β", 5, "ACT")
    case Cost => Reason("交易成本过高，显著压低 β", 7, "ACT")
  }

  function ReasonsOf(kinds: seq<ReasonKind>): (r: seq<Reason>)
    ensures |r| == |kinds|
    ensures forall i :: 0 <= i < |kinds| ==> r[i] == ReasonOf(kinds[i])
  {
    if kinds == [] then [] else [ReasonOf(kinds[0])] + ReasonsOf(kinds[1..])
  }

  const RedLightOrder := [MacroShut, MacroResonance, LiquidityRed]
  const PenaltyOrder := [EtfRed, Liquidation, Crowding]
  const SvcOrder := [SvcStrong, SvcWeak]
  const BreakoutOrder := [Breakout, NoBreakout]
  const QualityOrder := [Distribution, DriftWarn, DriftDanger]
  const ExecutionOrder := [Friction, Cost]

  /** The fifteen reasons in the order they are checked. */
  const KindOrder := RedLightOrder + PenaltyOrder + SvcOrder + BreakoutOrder + QualityOrder + ExecutionOrder

  /** Which block of checks a reason belongs to. */
  function Block(k: ReasonKind): nat
  {
    match k
    case MacroShut => 0 case MacroResonance => 0 case LiquidityRed => 0
    case EtfRed => 1 case Liquidation => 1 case Crowding => 1
    case SvcStrong => 2 case SvcWeak => 2
    case Breakout => 3 case NoBreakout => 3
    case Distribution => 4 case DriftWarn => 4 case DriftDanger => 4
    case Friction => 5 case Cost => 5
  }

  /** One reason when its condition holds, none otherwise. */
  function When(c: bool, k: ReasonKind): seq<ReasonKind>
  {
    if c then [k] else []
  }

  /** The macro gate and liquidity red-light reasons that apply. */
  function RedLightKinds(closed: bool, forceC: bool, red: bool): seq<ReasonKind>
  {
    When(closed, MacroShut) + When(forceC, MacroResonance) + When(red, LiquidityRed)
  }

  /** The ETF, liquidation and crowding penalty reasons that apply. */
  function PenaltyKinds(fiveDayRed: bool, half: bool, third: bool): seq<ReasonKind>
  {
    When(fiveDayRed, EtfRed) + When(half, Liquidation) + When(third, Crowding)
  }

  /** The strong or weak SVC reason that applies. */
  function SvcKinds(svcScore: real): seq<ReasonKind>
  {
    When(svcScore >= 7.0, SvcStrong) + When(svcScore <= 3.0, SvcWeak)
  }

  /** The breakout reason: validated or not. */
  function BreakoutKinds(breakout: bool): seq<ReasonKind>
  {
    When(breakout, Breakout) + When(!breakout, NoBreakout)
  }

  /** The distribution and model-drift reasons that apply. */
  function QualityKinds(distributionCount: real, drift: Drift): seq<ReasonKind>
  {
    When(distributionCount >= 2.0, Distribution) + When(drift == Drift.Warn, DriftWarn) + When(drift == Danger, DriftDanger)
  }

  /** The execution-cost reason that applies. */
  function ExecutionKinds(executionLevel: string): seq<ReasonKind>
  {
    When(executionLevel == "medium", Friction) + When(executionLevel == "high", Cost)
  }

  /**
   * The reasons runPipeline collects, as a reference: each check in source order
   * contributes its reason exactly when its condition holds.
   */
  function ReasonKindsOf(closed: bool, forceC: bool, red: bool, fiveDayRed: bool, half: bool, third: bool,
                         svcScore: real, breakout: bool, distributionCount: real, drift: Drift, executionLevel: string)
    : seq<ReasonKind>
  {
    RedLightKinds(closed, forceC, red) + PenaltyKinds(fiveDayRed, half, third) + SvcKinds(svcScore)
    + BreakoutKinds(breakout) + QualityKinds(distributionCount, drift) + ExecutionKinds(executionLevel)
  }

  /** The checks for the macro gate and the liquidity red light, pushed in order. */
  method CollectRedLightReasons(closed: bool, forceC: bool, red: bool) returns (part: seq<ReasonKind>)
    ensures Sub(part, RedLightOrder)
    ensures forall x :: x in part ==> Block(x) == 0
    ensures (MacroShut in part) == closed
    ensures (MacroResonance in part) == forceC
    ensures (LiquidityRed in part) == red
    ensures part == RedLightKinds(closed, forceC, red)
  {
    part := [];
    SubStep(part, RedLightOrder, 0, closed);
    if closed { part := part + [MacroShut]; }
    SubStep(part, RedLightOrder, 1, forceC);
    if forceC { part := part + [MacroResonance]; }
    SubStep(part, RedLightOrder, 2, red);
    if red { part := part + [LiquidityRed]; }
    assert RedLightOrder[..3] == RedLightOrder;
  }

  /** The checks for the ETF red light and the two leverage penalties, pushed in order. */
  method CollectPenaltyReasons(fiveDayRed: bool, half: bool, third: bool) returns (part: seq<ReasonKind>)
    ensures Sub(part, PenaltyOrder)
    ensures forall x :: x in part ==> Block(x) == 1
    ensures (EtfRed in part) == fiveDayRed
    ensures (Liquidation in part) == half
    ensures (Crowding in part) == third
    ensures part == PenaltyKinds(fiveDayRed, half, third)
  {
    part := [];
    SubStep(part, PenaltyOrder, 0, fiveDayRed);
    if fiveDayRed { part := part + [EtfRed]; }
    SubStep(part, PenaltyOrder, 1, half);
    if half { part := part + [Liquidation]; }
    SubStep(part, PenaltyOrder, 2, third);
    if third { part := part + [Crowding]; }
    assert PenaltyOrder[..3] == PenaltyOrder;
  }

  /** The checks for the two SVC extremes, which exclude each other, pushed in order. */
  method CollectSvcReasons(svcScore: real) returns (part: seq<ReasonKind>)
    ensures Sub(part, SvcOrder)
    ensures forall x :: x in part ==> Block(x) == 2
    ensures (SvcStrong in part) == (svcScore >= 7.0)
    ensures (SvcWeak in part) == (svcScore <= 3.0)
    ensures part == SvcKinds(svcScore)
  {
    part := [];
    SubStep(part, SvcOrder, 0, svcScore >= 7.0);
    if svcScore >= 7.0 { part := part + [SvcStrong]; }
    SubStep(part, SvcOrder, 1, svcScore <= 3.0);
    if svcScore <= 3.0 { part := part + [SvcWeak]; }
    assert SvcOrder[..2] == SvcOrder;
  }

  /** The checks for the breakout check, exactly one of whose reasons is pushed, pushed in order. */
  method CollectBreakoutReasons(breakout: bool) returns (part: seq<ReasonKind>)
    ensures Sub(part, BreakoutOrder)
    ensures forall x :: x in part ==> Block(x) == 3
    ensures (Breakout in part) == breakout
    ensures (NoBreakout in part) == !breakout
    ensures part == BreakoutKinds(breakout)
  {
    part := [];
    SubStep(part, BreakoutOrder, 0, breakout);
    if breakout { part := part + [Breakout]; }
    SubStep(part, BreakoutOrder, 1, !breakout);
    if !breakout { part := part + [NoBreakout]; }
    assert BreakoutOrder[..2] == BreakoutOrder;
  }

  /** The checks for the distribution gate and prediction drift, pushed in order. */
  method CollectQualityReasons(distributionCount: real, drift: Drift) returns (part: seq<ReasonKind>)
    ensures Sub(part, QualityOrder)
    ensures forall x :: x in part ==> Block(x) == 4
    ensures (Distribution in part) == (distributionCount >= 2.0)
    ensures (DriftWarn in part) == (drift == Drift.Warn)
    ensures (DriftDanger in part) == (drift == Danger)
    ensures part == QualityKinds(distributionCount, drift)
  {
    part := [];
    SubStep(part, QualityOrder, 0, distributionCount >= 2.0);
    if distributionCount >= 2.0 { part := part + [Distribution]; }
    SubStep(part, QualityOrder, 1, drift == Drift.Warn);
    if drift == Drift.Warn { part := part + [DriftWarn]; }
    SubStep(part, QualityOrder, 2, drift == Danger);
    if drift == Danger { part := part + [DriftDanger]; }
    assert QualityOrder[..3] == QualityOrder;
  }

  /** The checks for the execution cost tier, pushed in order. */
  method CollectExecutionReasons(executionLevel: string) returns (part: seq<ReasonKind>)
    ensures Sub(part, ExecutionOrder)
    ensures forall x :: x in part ==> Block(x) == 5
    ensures (Friction in part) == (executionLevel == "medium")
    ensures (Cost in part) == (executionLevel == "high")
    ensures part == ExecutionKinds(executionLevel)
  {
    part := [];
    SubStep(part, ExecutionOrder, 0, executionLevel == "medium");
    if executionLevel == "medium" { part := part + [Friction]; }
    SubStep(part, ExecutionOrder, 1, executionLevel == "high");
    if executionLevel == "high" { part := part + [Cost]; }
    assert ExecutionOrder[..2] == ExecutionOrder;
  }

  /** The fifteen checks in source order: an ordered selection of the reasons, each present exactly when its condition holds. */
  method CollectReasons(closed: bool, forceC: bool, red: bool, fiveDayRed: bool, half: bool, third: bool,
                        svcScore: real, breakout: bool, distributionCount: real, drift: Drift, executionLevel: string)
    returns (kinds: seq<ReasonKind>)
    ensures Sub(kinds, KindOrder)
    ensures (MacroShut in kinds) == closed
    ensures (MacroResonance in kinds) == forceC
    ensures (LiquidityRed in kinds) == red
    ensures (EtfRed in kinds) == fiveDayRed
    ensures (Liquidation in kinds) == half
    ensures (Crowding in kinds) == third
    ensures (SvcStrong in kinds) == (svcScore >= 7.0)
    ensures (SvcWeak in kinds) == (svcScore <= 3.0)
    ensures (Breakout in kinds) == breakout
    ensures (NoBreakout in kinds) == !breakout
    ensures (Distribution in kinds) == (distributionCount >= 2.0)
    ensures (DriftWarn in kinds) == (drift == Drift.Warn)
    ensures (DriftDanger in kinds) == (drift == Danger)
    ensures (Friction in kinds) == (executionLevel == "medium")
    ensures (Cost in kinds) == (executionLevel == "high")
    ensures kinds == ReasonKindsOf(closed, forceC, red, fiveDayRed, half, third, svcScore, breakout, distributionCount,
                                   drift, executionLevel)
  {
    var redLight := CollectRedLightReasons(closed, forceC, red);
    var penalty := CollectPenaltyReasons(fiveDayRed, half, third);
    var svc := CollectSvcReasons(svcScore);
    var breakoutPart := CollectBreakoutReasons(breakout);
    var quality := CollectQualityReasons(distributionCount, drift);
    var execution := CollectExecutionReasons(executionLevel);
    kinds := redLight + penalty + svc + breakoutPart + quality + execution;
    AssembleOrder(redLight, penalty, svc, breakoutPart, quality, execution);
    AssembleMembers(redLight, penalty, svc, breakoutPart, quality, execution, closed, forceC, red, fiveDayRed, half, third,
                    svcScore, breakout, distributionCount, drift, executionLevel);
    AssembleKinds(redLight, penalty, svc, breakoutPart, quality, execution, closed, forceC, red, fiveDayRed, half, third,
                  svcScore, breakout, distributionCount, drift, executionLevel);
  }

  /** The six blocks, each the reasons its checks select, concatenate to the selection of all fifteen checks. */
  lemma AssembleKinds(redLight: seq<ReasonKind>, penalty: seq<ReasonKind>, svc: seq<ReasonKind>, breakoutPart: seq<ReasonKind>,
                      quality: seq<ReasonKind>, execution: seq<ReasonKind>, closed: bool, forceC: bool, red: bool,
                      fiveDayRed: bool, half: bool, third: bool, svcScore: real, breakout: bool, distributionCount: real,
                      drift: Drift, executionLevel: string)
    requires redLight == RedLightKinds(closed, forceC, red) && penalty == PenaltyKinds(fiveDayRed, half, third)
    requires svc == SvcKinds(svcScore) && breakoutPart == BreakoutKinds(breakout)
    requires quality == QualityKinds(distributionCount, drift) && execution == ExecutionKinds(executionLevel)
    ensures redLight + penalty + svc + breakoutPart + quality + execution
         == ReasonKindsOf(closed, forceC, red, fiveDayRed, half, third, svcScore, breakout, distributionCount, drift, executionLevel)
  {
  }

  /** Each reason is in the concatenated blocks exactly when its own block pushed it, that is when its check holds. */
  lemma AssembleMembers(redLight: seq<ReasonKind>, penalty: seq<ReasonKind>, svc: seq<ReasonKind>, breakoutPart: seq<ReasonKind>,
                        quality: seq<ReasonKind>, execution: seq<ReasonKind>, closed: bool, forceC: bool, red: bool,
                        fiveDayRed: bool, half: bool, third: bool, svcScore: real, breakout: bool, distributionCount: real,
                        drift: Drift, executionLevel: string)
    requires forall x :: x in redLight ==> Block(x) == 0
    requires forall x :: x in penalty ==> Block(x) == 1
    requires forall x :: x in svc ==> Block(x) == 2
    requires forall x :: x in breakoutPart ==> Block(x) == 3
    requires forall x :: x in quality ==> Block(x) == 4
    requires forall x :: x in execution ==> Block(x) == 5
    requires (MacroShut in redLight) == closed && (MacroResonance in redLight) == forceC && (LiquidityRed in redLight) == red
    requires (EtfRed in penalty) == fiveDayRed && (Liquidation in penalty) == half && (Crowding in penalty) == third
    requires (SvcStrong in svc) == (svcScore >= 7.0) && (SvcWeak in svc) == (svcScore <= 3.0)
    requires (Breakout in breakoutPart) == breakout && (NoBreakout in breakoutPart) == !breakout
    requires (Distribution in quality) == (distributionCount >= 2.0) && (DriftWarn in quality) == (drift == Drift.Warn)
    requires (DriftDanger in quality) == (drift == Danger)
    requires (Friction in execution) == (executionLevel == "medium") && (Cost in execution) == (executionLevel == "high")
    ensures var whole := redLight + penalty + svc + breakoutPart + quality + execution;
      (MacroShut in whole) == closed && (MacroResonance in whole) == forceC && (LiquidityRed in whole) == red
      && (EtfRed in whole) == fiveDayRed && (Liquidation in whole) == half && (Crowding in whole) == third
      && (SvcStrong in whole) == (svcScore >= 7.0) && (SvcWeak in whole) == (svcScore <= 3.0)
      && (Breakout in whole) == breakout && (NoBreakout in whole) == !breakout
      && (Distribution in whole) == (distributionCount >= 2.0) && (DriftWarn in whole) == (drift == Drift.Warn)
      && (DriftDanger in whole) == (drift == Danger)
      && (Friction in whole) == (executionLevel == "medium") && (Cost in whole) == (executionLevel == "high")
  {
    AssembleRiskMember(redLight, penalty, svc, breakoutPart, quality, execution);
    AssembleQualityMember(redLight, penalty, svc, breakoutPart, quality, execution);
  }

  /** Concatenated blocks keep the check order. */
  lemma AssembleOrder(redLight: seq<ReasonKind>, penalty: seq<ReasonKind>, svc: seq<ReasonKind>, breakoutPart: seq<ReasonKind>, quality: seq<ReasonKind>, execution: seq<ReasonKind>)
    requires Sub(redLight, RedLightOrder) && Sub(penalty, PenaltyOrder) && Sub(svc, SvcOrder) && Sub(breakoutPart, BreakoutOrder) && Sub(quality, QualityOrder) && Sub(execution, ExecutionOrder)
    ensures Sub(redLight + penalty + svc + breakoutPart + quality + execution, KindOrder)
  {
    SubConcat(redLight, RedLightOrder, penalty, PenaltyOrder);
    SubConcat(redLight + penalty, RedLightOrder + PenaltyOrder, svc, SvcOrder);
    SubConcat(redLight + penalty + svc, RedLightOrder + PenaltyOrder + SvcOrder, breakoutPart, BreakoutOrder);
    SubConcat(redLight + penalty + svc + breakoutPart, RedLightOrder + PenaltyOrder + SvcOrder + BreakoutOrder, quality, QualityOrder);
    SubConcat(redLight + penalty + svc + breakoutPart + quality, RedLightOrder + PenaltyOrder + SvcOrder + BreakoutOrder + QualityOrder, execution, ExecutionOrder);
  }

  /** A risk and structure reason is in the concatenated blocks exactly when it is in its own block. */
  lemma AssembleRiskMember(redLight: seq<ReasonKind>, penalty: seq<ReasonKind>, svc: seq<ReasonKind>, breakoutPart: seq<ReasonKind>, quality: seq<ReasonKind>, execution: seq<ReasonKind>)
    requires forall x :: x in redLight ==> Block(x) == 0
    requires forall x :: x in penalty ==> Block(x) == 1
    requires forall x :: x in svc ==> Block(x) == 2
    requires forall x :: x in breakoutPart ==> Block(x) == 3
    requires forall x :: x in quality ==> Block(x) == 4
    requires forall x :: x in execution ==> Block(x) == 5
    ensures var whole := redLight + penalty + svc + breakoutPart + quality + execution;
      (MacroShut in whole) == (MacroShut in redLight)
      && (MacroResonance in whole) == (MacroResonance in redLight)
      && (LiquidityRed in whole) == (LiquidityRed in redLight)
      && (EtfRed in whole) == (EtfRed in penalty)
      && (Liquidation in whole) == (Liquidation in penalty)
      && (Crowding in whole) == (Crowding in penalty)
      && (SvcStrong in whole) == (SvcStrong in svc)
      && (SvcWeak in whole) == (SvcWeak in svc)
  {
  }

  /** A breakout, quality and execution reason is in the concatenated blocks exactly when it is in its own block. */
  lemma AssembleQualityMember(redLight: seq<ReasonKind>, penalty: seq<ReasonKind>, svc: seq<ReasonKind>, breakoutPart: seq<ReasonKind>, quality: seq<ReasonKind>, execution: seq<ReasonKind>)
    requires forall x :: x in redLight ==> Block(x) == 0
    requires forall x :: x in penalty ==> Block(x) == 1
    requires forall x :: x in svc ==> Block(x) == 2
    requires forall x :: x in breakoutPart ==> Block(x) == 3
    requires forall x :: x in quality ==> Block(x) == 4
    requires forall x :: x in execution ==> Block(x) == 5
    ensures var whole := redLight + penalty + svc + breakoutPart + quality + execution;
      (Breakout in whole) == (Breakout in breakoutPart)
      && (NoBreakout in whole) == (NoBreakout in breakoutPart)
      && (Distribution in whole) == (Distribution in quality)
      && (DriftWarn in whole) == (DriftWarn in quality)
      && (DriftDanger in whole) == (DriftDanger in quality)
      && (Friction in whole) == (Friction in execution)
      && (Cost in whole) == (Cost in execution)
  {
  }

  // ---- provenance annotation (src/engine/pipeline.js:515-532)

  function SourceOf(meta: Provenance, key: string): string
  {
    if key in meta.sources && meta.sources[key] != "" then meta.sources[key] else "Derived"
  }

  function StampOf(stamps: map<string, string>, generatedAt: string, key: string): Value
  {
    if key in stamps && stamps[key] != "" then Str(stamps[key])
    else if generatedAt != "" then Str(generatedAt)
    else Null
  }

  function TimingOf(meta: Provenance, key: string): Timing
  {
    Timing(StampOf(meta.observedAt, meta.generatedAt, key), StampOf(meta.fetchedAt, meta.generatedAt, key),
           if key in meta.freshness && Truthy(meta.freshness[key]) then meta.freshness[key] else Null)
  }

  /** A gate with one source and one timing per input key, the source defaulting to "Derived". */
  function Annotated(g: Gate, meta: Provenance): (a: Gate)
    ensures a.sources.Some? && a.sources.value.Keys == g.inputs.Keys
    ensures a.timings.Some? && a.timings.value.Keys == g.inputs.Keys
    ensures forall k :: k in a.sources.value ==> a.sources.value[k] == SourceOf(meta, k)
    ensures a.(sources := g.sources, timings := g.timings) == g
  {
    g.(sources := Some(map k | k in g.inputs :: SourceOf(meta, k)),
       timings := Some(map k | k in g.inputs :: TimingOf(meta, k)))
  }

  /** The forEach over the gates: each one gets its sources and timings; nothing else changes. */
  method AnnotateGates(gates: seq<Gate>, meta: Provenance) returns (out: seq<Gate>)
    ensures |out| == |gates|
    ensures forall i :: 0 <= i < |gates| ==> out[i] == Annotated(gates[i], meta)
  {
    out := gates;
    var i := 0;
    while i < |out|
      invariant 0 <= i <= |out| == |gates|
      invariant forall j :: 0 <= j < i ==> out[j] == Annotated(gates[j], meta)
      invariant forall j :: i <= j < |out| ==> out[j] == gates[j]
    {
      out := out[i := Annotated(out[i], meta)];
      i := i + 1;
    }
  }

  // ---- predicates over the snapshot that the output is specified by

  predicate MacroClosed(s: Snapshot) { Macro.FiredCount(s) >= 1 }
  predicate MacroForceC(s: Snapshot) { Macro.FiredCount(s) >= 2 }
  predicate TripleHit(s: Snapshot)
  {
    MacroClosed(s) && Liquidity.EvalLiquidity(s).red && Etf.EvalEtf(s).fiveDayRed
  }

  /** A gate as pushed, before the annotation pass gives it sources and timings. */
  predicate Unannotated(g: Gate) { g.sources.None? && g.timings.None? }

  function NumberOr(x: Option<real>, fallback: Value): Value
  {
    if x.Some? then Num(x.value) else fallback
  }

  // ---- rule evaluation (src/engine/pipeline.js:54-256)

  /** What every rule module returned for one snapshot. */
  datatype Evaluation = Evaluation(
    macro: Macro.MacroResult, liquidity: Liquidity.LiquidityResult, riskSwitch: RiskSwitch.RiskResult,
    ataf: Ataf.AtafResult, leverage: Leverage.LeverageResult, supply: Supply.SupplyResult, etf: Etf.EtfResult,
    danger: Danger.DangerResult, svc: Svc.SvcResult, phase: Phase.PhaseResult, be: Be.BeResult,
    bpi: Bpi.BpiResult, bcm: Bcm.BcmResult)

  /** The rule calls of runPipeline, in source order; leverage is given the snapshot's own etf10d. */
  method EvaluateRules(s: Snapshot) returns (e: Evaluation)
    ensures e.macro.closed == MacroClosed(s) && e.macro.forceC == MacroForceC(s)
    ensures e.liquidity == Liquidity.EvalLiquidity(s)
    ensures e.riskSwitch == RiskSwitch.EvalRiskOn(s)
    ensures e.etf == Etf.EvalEtf(s)
    ensures e.phase == Phase.EvalPhase(s) && e.be == Be.EvalBe(s)
    ensures e.danger.tripleHit == TripleHit(s)
    ensures e.danger.tripleHit ==> e.danger.riskWeight >= 1
    ensures e.svc.score == (s.rsdScore + s.lstcScore) / 2.0
    ensures 0.85 <= e.svc.confidenceMultiplier <= 1.15
    ensures e.leverage.betaPenaltyHalf <==> s.liquidationUsd > 1000000000.0
    ensures e.leverage.betaPenaltyThird <==> s.crowdingIndex >= 80.0 && s.etf10d <= 0.0
    ensures e.bpi.strength == Bpi.Strength(s.etf5d, e.liquidity.score, e.supply.sellWallThin, e.leverage.highCrowding)
  {
    var macro := Macro.EvalMacro(s);
    var liquidity := Liquidity.EvalLiquidity(s);
    var riskSwitch := RiskSwitch.EvalRiskOn(s);
    var ataf := Ataf.EvalAtaf(s);
    var leverage := Leverage.EvalLeverage(s, s.etf10d);
    var supply := Supply.EvalSupply(s);
    var etf := Etf.EvalEtf(s);
    var danger := Danger.EvalDanger(macro, liquidity, etf, supply);
    var svc := Svc.EvalSvc(s);
    var phase := Phase.EvalPhase(s);
    var be := Be.EvalBe(s);
    var bpi := Bpi.EvalBpi(s.etf5d, liquidity.score, supply.sellWallThin, leverage.highCrowding);
    var bcm := Bcm.EvalBcm(s, liquidity, macro, etf, phase);
    e := Evaluation(macro, liquidity, riskSwitch, ataf, leverage, supply, etf, danger, svc, phase, be, bpi, bcm);
  }

  // ---- the gates, one per rule (src/engine/pipeline.js:56-464)

  function MacroGate(s: Snapshot, m: Macro.MacroResult): (g: Gate)
    ensures g.id == "G0" && Unannotated(g)
    ensures g.status == Closed <==> m.closed
  {
    Gate("G0", "宏观总闸门", if m.closed then Closed else Open,
      if |m.triggers| > 0 then Join(m.triggers, " / ") else "无紧缩信号",
      map["dxy5d" := Num(s.dxy5d), "dxy3dUp" := Bool(s.dxy3dUp), "us2yWeekBp" := Num(s.us2yWeekBp), "fciUpWeeks" := Num(s.fciUpWeeks)],
      m.triggers, None, None)
  }

  function LiquidityGate(s: Snapshot, l: Liquidity.LiquidityResult, fixed: (real, nat) -> string): (g: Gate)
    ensures g.id == "V1" && Unannotated(g)
    ensures g.status == Closed <==> l.red
  {
    Gate("V1", "流动性总分（FoF）", if l.red then Closed else if l.score < 50.0 then Status.Warn else Open,
      "FoF " + fixed(l.score, 0) + " · " + l.labelText,
      map["etf10d" := Num(s.etf10d), "stablecoin30d" := Num(s.stablecoin30d), "exchStableDelta" := Num(s.exchStableDelta)],
      if l.red then ["缺血红灯"] else [], None, None)
  }

  function RiskSwitchGate(s: Snapshot, r: RiskSwitch.RiskResult): (g: Gate)
    ensures g.id == "V2" && Unannotated(g)
    ensures g.status == Open <==> r.riskOn
  {
    Gate("V2", "利率/汇率 Risk-ON", if r.riskOn then Open else Status.Warn, r.note,
      map["policyWindow" := Bool(s.policyWindow), "preMeeting2y" := Num(s.preMeeting2y), "current2y" := Num(s.current2y),
          "preMeetingDxy" := Num(s.preMeetingDxy), "currentDxy" := Num(s.currentDxy)],
      if r.riskOn then ["Risk-ON 打开"] else [], None, None)
  }

  function AtafGate(s: Snapshot, a: Ataf.AtafResult): (g: Gate)
    ensures g.id == "D-ATAF" && Unannotated(g)
    ensures g.status == Status.Warn <==> a.bias == Ataf.Tightening
  {
    Gate("D-ATAF", "MoneyGate / 商业周期", if a.bias == Ataf.Tightening then Status.Warn else Open,
      "流动性偏向 " + a.bias,
      map["rrpChange" := Num(s.rrpChange), "tgaChange" := Num(s.tgaChange), "srfChange" := Num(s.srfChange), "ism" := Num(s.ism)],
      a.tighteningSignals + a.easingSignals, None, None)
  }

  function LeverageGate(s: Snapshot, l: Leverage.LeverageResult): (g: Gate)
    ensures g.id == "V3" && Unannotated(g)
    ensures g.status == Closed <==> l.betaPenaltyHalf
  {
    Gate("V3", "杠杆结构与清算博弈",
      if l.betaPenaltyHalf then Closed else if l.highCrowding then Status.Warn else Open,
      if |l.notes| > 0 then Join(l.notes, " / ") else "结构中性",
      map["crowdingIndex" := Num(s.crowdingIndex), "etf10d" := Num(s.etf10d), "liquidationUsd" := Num(s.liquidationUsd),
          "longWicks" := Bool(s.longWicks), "reverseFishing" := Bool(s.reverseFishing), "shortFailure" := Bool(s.shortFailure)],
      l.notes, None, None)
  }

  function SupplyGate(s: Snapshot, p: Supply.SupplyResult): (g: Gate)
    ensures g.id == "V4" && Unannotated(g)
    ensures g.status == Status.Warn <==> p.bubbleWarning
  {
    Gate("V4", "卖墙与浮筹结构", if p.bubbleWarning then Status.Warn else Open,
      if |p.notes| > 0 then Join(p.notes, " / ") else "供给结构中性",
      map["exchBalanceTrend" := Num(s.exchBalanceTrend), "floatDensity" := Num(s.floatDensity),
          "mcapElasticity" := Num(s.mcapElasticity), "mcapGrowth" := Num(s.mcapGrowth)],
      p.notes, None, None)
  }

  function EtfGate(s: Snapshot, f: Etf.EtfResult): (g: Gate)
    ensures g.id == "V5" && Unannotated(g)
    ensures g.status == Closed <==> f.fiveDayRed
  {
    Gate("V5", "ETF 买墙与连击", if f.fiveDayRed then Closed else Open, f.breakoutNote,
      map["etf10d" := Num(s.etf10d), "etf5d" := Num(s.etf5d), "etf1d" := Num(s.etf1d), "volumeConfirm" := Bool(s.volumeConfirm)],
      [f.breakoutNote], None, None)
  }

  /** An empty signal list joins to "", which the source's `||` replaces by the fallback note. */
  function DangerGate(m: Macro.MacroResult, l: Liquidity.LiquidityResult, f: Etf.EtfResult, d: Danger.DangerResult): (g: Gate)
    ensures g.id == "V6" && Unannotated(g)
    ensures g.status == Closed <==> d.tripleHit
  {
    var joined := Join(d.riskSignals, " / ");
    Gate("V6", "风险矩阵",
      if d.tripleHit then Closed else if |d.riskSignals| > 0 then Status.Warn else Open,
      if d.tripleHit then "三连击直切 C" else if joined != "" then joined else "无显著危险信号",
      map["macroClosed" := Bool(m.closed), "liquidityRed" := Bool(l.red), "etfFiveDayRed" := Bool(f.fiveDayRed)],
      if d.tripleHit then ["三连击直切 C"] else d.riskSignals, None, None)
  }

  function SvcGate(s: Snapshot, v: Svc.SvcResult, fixed: (real, nat) -> string): (g: Gate)
    ensures g.id == "V6.2" && Unannotated(g)
    ensures g.status == Open <==> v.score >= 7.0
    ensures g.status == Closed <==> v.score <= 3.0
  {
    Gate("V6.2", "SVC 结构性价值捕获",
      if v.score >= 7.0 then Open else if v.score <= 3.0 then Closed else Status.Warn,
      "结构分 " + fixed(v.score, 1),
      map["rsdScore" := Num(s.rsdScore), "lstcScore" := Num(s.lstcScore),
          "mappingRatioDown" := Bool(s.mappingRatioDown), "netIssuanceHigh" := Bool(s.netIssuanceHigh)],
      v.redLights, None, None)
  }

  function BpiGate(s: Snapshot, e: Evaluation, fixed: (real, nat) -> string): (g: Gate)
    ensures g.id == "V7" && Unannotated(g)
    ensures g.status == Open <==> e.bpi.strength > 0.7
  {
    Gate("V7", "买家阶段指标（BPI）",
      if e.bpi.strength > 0.7 then Open else if e.bpi.strength > 0.45 then Status.Warn else Closed,
      e.bpi.labelText + " / 强度 " + fixed(e.bpi.strength, 2),
      map["etf5d" := Num(s.etf5d), "liquidityScore" := Str(fixed(e.liquidity.score, 2)),
          "sellWallThin" := Bool(e.supply.sellWallThin), "crowdingIndex" := Num(s.crowdingIndex)],
      [e.bpi.labelText], None, None)
  }

  function BcmGate(s: Snapshot, e: Evaluation, fixed: (real, nat) -> string): (g: Gate)
    ensures g.id == "V8" && Unannotated(g)
    ensures g.status == Open <==> e.bcm.bullScore >= 0.75
    ensures |g.rules| <= 3
  {
    Gate("V8", "牛熊条件矩阵（BCM）",
      if e.bcm.bullScore >= 0.75 then Open else if e.bcm.bearScore >= 0.75 then Closed else Status.Warn,
      "牛 " + fixed(e.bcm.bullScore, 2) + " / 熊 " + fixed(e.bcm.bearScore, 2),
      map["macroClosed" := Bool(e.macro.closed), "liquidityScore" := Str(fixed(e.liquidity.score, 2)), "etf10d" := Num(s.etf10d),
          "phase" := Str(e.phase.labelText), "liquidationUsd" := Num(s.liquidationUsd)],
      if |e.bcm.conflicts| > 0 then Take(e.bcm.conflicts, 3) else ["无冲突项"], None, None)
  }

  function HpmGate(state: Tier, phaseLabel: string, allow: bool): (g: Gate)
    ensures g.id == "HPM" && Unannotated(g)
    ensures g.status == Open && g.note == Hpm.EvalHpm(state, phaseLabel, allow)
  {
    Gate("HPM", "历史相位映射器", Open, Hpm.EvalHpm(state, phaseLabel, allow),
      map["state" := Str(TierText(state)), "phase" := Str(phaseLabel), "triAllow" := Bool(allow)],
      [], None, None)
  }

  function PhaseGate(s: Snapshot, p: Phase.PhaseResult, a: Ataf.AtafResult): (g: Gate)
    ensures g.id == "SC" && Unannotated(g)
    ensures g.status == Status.Warn <==> p.labelText == Phase.LateDiv
  {
    Gate("SC", "SC-Phase 相位判定", if p.labelText == Phase.LateDiv then Status.Warn else Open, p.note,
      map["trendMomentum" := Num(s.trendMomentum), "divergence" := Num(s.divergence)],
      [p.note, "D-ATAF 偏向：" + a.bias], None, None)
  }

  function BeGate(s: Snapshot, b: Be.BeResult, fixed: (real, nat) -> string): (g: Gate)
    ensures g.id == "BE" && Unannotated(g)
    ensures g.status == Open <==> b.pass
  {
    Gate("BE", "相变判定", if b.pass then Open else Status.Warn, "势能 " + fixed(b.potential, 2),
      map["cognitivePotential" := Num(s.cognitivePotential), "liquidityPotential" := Num(s.liquidityPotential),
          "onchainReflexivity" := Num(s.onchainReflexivity), "sentimentThreshold" := Num(s.sentimentThreshold)],
      if b.pass then ["相变候选通过"] else ["相变候选未通过"], None, None)
  }

  function TriDomainGate(s: Snapshot, allow: bool, fixed: (real, nat) -> string): (g: Gate)
    ensures g.id == "3域" && Unannotated(g)
    ensures g.status == Open <==> allow
  {
    Gate("3域", "三域扫描/ΔES", if allow then Open else Status.Warn, "ΔES " + fixed(s.deltaES, 2),
      map["topo" := Num(s.topo), "spectral" := Num(s.spectral), "roughPath" := Num(s.roughPath), "deltaES" := Num(s.deltaES)],
      if allow then ["三域同意"] else ["三域未达标"], None, None)
  }

  function DistributionGate(s: Snapshot, plain: real -> string): (g: Gate)
    ensures g.id == "DG" && Unannotated(g)
    ensures g.status == Open <==> s.distributionGateCount >= 2.0
  {
    Gate("DG", "TradFi 分发闸门", if s.distributionGateCount >= 2.0 then Open else Status.Warn,
      "30D 命中 " + plain(s.distributionGateCount) + " 家",
      map["distributionGateCount" := Num(s.distributionGateCount)],
      if s.distributionGateCount >= 2.0 then ["置信度加成"] else ["未达门槛"], None, None)
  }

  function QualityGate(rt: Runtime, drift: Drift, driftNote: string, fixed: (real, nat) -> string): (g: Gate)
    ensures g.id == "QG" && Unannotated(g)
    ensures g.status == (match drift case Danger => Closed case Warn => Status.Warn case Ok => Open)
  {
    Gate("QG", "预测质量/漂移门",
      match drift case Danger => Closed case Warn => Status.Warn case Ok => Open, driftNote,
      map["asOfDate" := (if rt.asOfDate != "" then Str(rt.asOfDate) else Null),
          "horizon" := Num(if rt.driftHorizon.Some? then rt.driftHorizon.value else 7.0),
          "sampleSize" := NumberOr(rt.driftSampleSize, Null),
          "accuracy" := (if rt.driftAccuracy.Some? then Str(fixed(rt.driftAccuracy.value * 100.0, 2)) else Null)],
      [driftNote], None, None)
  }

  /** The final action gate, appended after the annotation pass. */
  function ActGate(state: Tier, beta: real, betaCap: real, penalties: Penalties, previousBeta: real, costBps: real,
                   fixed: (real, nat) -> string): (g: Gate)
    ensures g.id == "ACT" && Unannotated(g)
    ensures g.status == (match state case A => Open case B => Status.Warn case C => Closed)
  {
    Gate("ACT", "最终动作映射", match state case A => Open case B => Status.Warn case C => Closed,
      TierText(state) + " / β " + fixed(beta, 2) + " / β_cap " + fixed(betaCap, 2),
      map["state" := Str(TierText(state)), "betaBase" := Num(BaseBeta(state)),
          "penalties" := Obj(map["third" := Bool(penalties.third), "half" := Bool(penalties.half), "extra" := Bool(penalties.extra)]),
          "betaCap" := Str(fixed(betaCap, 2)), "previousBeta" := Str(fixed(previousBeta, 2)), "costBps" := Num(costBps)],
      ["对冲 SOP", "β 上限修正", "极限重仓许可链", "交易成本约束", "漂移降级"], None, None)
  }

  /** The gates in push order up to 3域; `allow` is the tri-domain verdict. */
  method PushRuleGates(s: Snapshot, e: Evaluation, state: Tier, allow: bool, fixed: (real, nat) -> string)
    returns (gates: seq<Gate>)
    ensures |gates| == 15
    ensures forall i :: 0 <= i < 15 ==> gates[i].id == GateOrder[i] && Unannotated(gates[i])
  {
    var first := PushMarketGates(s, e, fixed);
    var second := PushFlowGates(s, e, fixed);
    var third := PushStructureGates(s, e, state, allow, fixed);
    gates := first + second;
    gates := gates + third;
  }

  /** G0 to V3: macro, liquidity, risk switch, ATAF and leverage. */
  method PushMarketGates(s: Snapshot, e: Evaluation, fixed: (real, nat) -> string) returns (gates: seq<Gate>)
    ensures |gates| == 5
    ensures forall i :: 0 <= i < 5 ==> gates[i].id == GateOrder[i] && Unannotated(gates[i])
  {
    gates := [MacroGate(s, e.macro)];
    gates := gates + [LiquidityGate(s, e.liquidity, fixed)];
    gates := gates + [RiskSwitchGate(s, e.riskSwitch)];
    gates := gates + [AtafGate(s, e.ataf)];
    gates := gates + [LeverageGate(s, e.leverage)];
  }

  /** V4 to V7: supply, ETF, danger, SVC and BPI. */
  method PushFlowGates(s: Snapshot, e: Evaluation, fixed: (real, nat) -> string) returns (gates: seq<Gate>)
    ensures |gates| == 5
    ensures forall i :: 0 <= i < 5 ==> gates[i].id == GateOrder[i + 5] && Unannotated(gates[i])
  {
    gates := [SupplyGate(s, e.supply)];
    gates := gates + [EtfGate(s, e.etf)];
    gates := gates + [DangerGate(e.macro, e.liquidity, e.etf, e.danger)];
    gates := gates + [SvcGate(s, e.svc, fixed)];
    gates := gates + [BpiGate(s, e, fixed)];
  }

  /** V8 to 3域: BCM, HPM, phase, BE and the tri-domain gate. */
  method PushStructureGates(s: Snapshot, e: Evaluation, state: Tier, allow: bool, fixed: (real, nat) -> string)
    returns (gates: seq<Gate>)
    ensures |gates| == 5
    ensures forall i :: 0 <= i < 5 ==> gates[i].id == GateOrder[i + 10] && Unannotated(gates[i])
  {
    gates := [BcmGate(s, e, fixed)];
    gates := gates + [HpmGate(state, e.phase.labelText, allow)];
    gates := gates + [PhaseGate(s, e.phase, e.ataf)];
    gates := gates + [BeGate(s, e.be, fixed)];
    gates := gates + [TriDomainGate(s, allow, fixed)];
  }

  /** All gates but ACT, pushed in order and then annotated with the snapshot's provenance. */
  method AnnotatedGateList(s: Snapshot, e: Evaluation, rt: Runtime, state: Tier, allow: bool, drift: Drift, driftNote: string,
                           fixed: (real, nat) -> string, plain: real -> string) returns (gates: seq<Gate>)
    ensures |gates| == |GateOrder| - 1
    ensures forall i :: 0 <= i < |gates| ==> gates[i].id == GateOrder[i]
    ensures forall i :: 0 <= i < |gates| ==>
              gates[i].sources.Some? && gates[i].sources.value.Keys == gates[i].inputs.Keys
              && gates[i].timings.Some? && gates[i].timings.value.Keys == gates[i].inputs.Keys
  {
    var pushed := PushRuleGates(s, e, state, allow, fixed);
    pushed := pushed + [DistributionGate(s, plain)];
    pushed := pushed + [QualityGate(rt, drift, driftNote, fixed)];
    gates := AnnotateGates(pushed, s.meta);
  }

  /** The annotated gates followed by ACT, which the annotation pass never sees. */
  method GateList(s: Snapshot, e: Evaluation, rt: Runtime, state: Tier, allow: bool, drift: Drift, driftNote: string,
                  act: Gate, fixed: (real, nat) -> string, plain: real -> string) returns (gates: seq<Gate>)
    requires act.id == "ACT"
    ensures |gates| == |GateOrder| && gates[|gates| - 1] == act
    ensures forall i :: 0 <= i < |GateOrder| ==> gates[i].id == GateOrder[i]
    ensures forall i :: 0 <= i < |gates| - 1 ==>
              gates[i].sources.Some? && gates[i].sources.value.Keys == gates[i].inputs.Keys
              && gates[i].timings.Some? && gates[i].timings.value.Keys == gates[i].inputs.Keys
  {
    var annotated := AnnotatedGateList(s, e, rt, state, allow, drift, driftNote, fixed, plain);
    gates := annotated + [act];
  }

  // ---- state and sizing (src/engine/pipeline.js:258-262, 381-427)

  /** The raw confidence before the SVC multiplier and the boosts: 0.52 moved by four signals. */
  function ConfidenceBase(riskOn: bool, breakout: bool, closed: bool, riskWeight: nat): (c: real)
    ensures 0.38 <= c <= 0.65
  {
    0.52 + (if riskOn then 0.08 else 0.0) + (if breakout then 0.05 else -0.02)
    + (if closed then -0.08 else 0.0) + (if riskWeight != 0 then -0.04 else 0.0)
  }

  /** The confidence accumulator, clamped to [0.2, 0.95] after scaling and boosting. */
  method ConfidenceFor(riskOn: bool, breakout: bool, closed: bool, riskWeight: nat,
                       multiplier: real, distributionBoost: real, reversalBoost: real) returns (c: real)
    ensures 0.2 <= c <= 0.95
    ensures c == Clamp(ConfidenceBase(riskOn, breakout, closed, riskWeight) * multiplier + distributionBoost + reversalBoost, 0.2, 0.95)
  {
    c := 0.52;
    c := c + (if riskOn then 0.08 else 0.0);
    c := c + (if breakout then 0.05 else -0.02);
    c := c + (if closed then -0.08 else 0.0);
    c := c + (if riskWeight != 0 then -0.04 else 0.0);
    c := Clamp(c * multiplier + distributionBoost + reversalBoost, 0.2, 0.95);
  }

  /** Scaling by a positive multiplier, shifting and clamping keep the order of two base confidences. */
  lemma ScaledClampMonotone(x: real, y: real, m: real, d: real, r: real)
    requires x <= y && m > 0.0
    ensures Clamp(x * m + d + r, 0.2, 0.95) <= Clamp(y * m + d + r, 0.2, 0.95)
  {
    assert x * m <= y * m;
    ClampMonotone(x * m + d + r, y * m + d + r, 0.2, 0.95);
  }

  /** A closed macro gate never raises confidence. */
  lemma ClosedNeverRaisesConfidence(riskOn: bool, breakout: bool, riskWeight: nat, m: real, d: real, r: real)
    requires m > 0.0
    ensures Clamp(ConfidenceBase(riskOn, breakout, true, riskWeight) * m + d + r, 0.2, 0.95)
            <= Clamp(ConfidenceBase(riskOn, breakout, false, riskWeight) * m + d + r, 0.2, 0.95)
  {
    ScaledClampMonotone(ConfidenceBase(riskOn, breakout, true, riskWeight), ConfidenceBase(riskOn, breakout, false, riskWeight), m, d, r);
  }

  /** An open risk switch never lowers confidence. */
  lemma RiskOnNeverLowersConfidence(breakout: bool, closed: bool, riskWeight: nat, m: real, d: real, r: real)
    requires m > 0.0
    ensures Clamp(ConfidenceBase(false, breakout, closed, riskWeight) * m + d + r, 0.2, 0.95)
            <= Clamp(ConfidenceBase(true, breakout, closed, riskWeight) * m + d + r, 0.2, 0.95)
  {
    ScaledClampMonotone(ConfidenceBase(false, breakout, closed, riskWeight), ConfidenceBase(true, breakout, closed, riskWeight), m, d, r);
  }

  /** A validated breakout never lowers confidence. */
  lemma BreakoutNeverLowersConfidence(riskOn: bool, closed: bool, riskWeight: nat, m: real, d: real, r: real)
    requires m > 0.0
    ensures Clamp(ConfidenceBase(riskOn, false, closed, riskWeight) * m + d + r, 0.2, 0.95)
            <= Clamp(ConfidenceBase(riskOn, true, closed, riskWeight) * m + d + r, 0.2, 0.95)
  {
    ScaledClampMonotone(ConfidenceBase(riskOn, false, closed, riskWeight), ConfidenceBase(riskOn, true, closed, riskWeight), m, d, r);
  }

  /** Any danger signal never raises confidence. */
  lemma RiskSignalNeverRaisesConfidence(riskOn: bool, breakout: bool, closed: bool, riskWeight: nat, m: real, d: real, r: real)
    requires m > 0.0 && riskWeight >= 1
    ensures Clamp(ConfidenceBase(riskOn, breakout, closed, riskWeight) * m + d + r, 0.2, 0.95)
            <= Clamp(ConfidenceBase(riskOn, breakout, closed, 0) * m + d + r, 0.2, 0.95)
  {
    ScaledClampMonotone(ConfidenceBase(riskOn, breakout, closed, riskWeight), ConfidenceBase(riskOn, breakout, closed, 0), m, d, r);
  }

  /** The state walk: derive from the score, cap under a closed macro gate, degrade under drift. */
  method DecideState(e: Evaluation, s: Snapshot, drift: Drift) returns (state: Tier)
    ensures e.macro.forceC || e.danger.tripleHit ==> state == C
    ensures e.macro.closed || drift != Ok ==> state != A
    ensures state == ApplyDriftDegrade(ApplyStateCaps(DeriveState(
              Clamp(StateBiasRaw(e.liquidity.score, s.etf10d, e.riskSwitch.riskOn, e.bpi.strength,
                                 e.macro.closed, e.leverage.betaPenaltyHalf, e.danger.riskWeight), 0.0, 100.0),
              e.macro.forceC, e.danger.tripleHit), e.macro.closed), drift)
  {
    var baseScore := CalculateStateBias(e.liquidity.score, s.etf10d, e.riskSwitch.riskOn, e.bpi.strength,
                                        e.macro.closed, e.leverage.betaPenaltyHalf, e.danger.riskWeight);
    state := DeriveState(baseScore, e.macro.forceC, e.danger.tripleHit);
    state := ApplyStateCaps(state, e.macro.closed);
    state := ApplyDriftDegrade(state, drift);
  }

  /** The sizing of runPipeline: cap, penalised beta, confidence, execution cost and the final beta. */
  datatype Sizing = Sizing(betaCap: real, penalties: Penalties, betaRaw: real, betaDrifted: real, beta: real,
                           confidence: real, execution: Execution)

  /** A beta scaled by a multiplier, kept under the cap and in [0, 1]. */
  function ScaledBeta(beta: real, multiplier: real, betaCap: real): (r: real)
    ensures 0.0 <= r <= 1.0
    ensures 0.0 <= betaCap <= 1.0 ==> r <= betaCap
    ensures 0.0 <= beta && 0.0 < multiplier <= 1.0 && beta <= betaCap <= 1.0 ==> r <= beta
  {
    assert 0.0 <= beta && 0.0 < multiplier <= 1.0 ==> 0.0 <= beta * multiplier <= beta by {
      if 0.0 <= beta && 0.0 < multiplier <= 1.0 {
        MulNonNegative(beta, multiplier);
        MulNonNegative(beta, 1.0 - multiplier);
        assert beta - beta * multiplier == beta * (1.0 - multiplier);
      }
    }
    Clamp(MinReal(beta * multiplier, betaCap), 0.0, 1.0)
  }

  /** The cap, the penalties and the beta after the drift multiplier; a closed macro gate with ETF outflow forces the third penalty. */
  method DriftedBeta(e: Evaluation, s: Snapshot, state: Tier, driftMultiplier: real)
    returns (betaCap: real, penalties: Penalties, betaRaw: real, beta: real)
    ensures betaCap == BetaCapFor(state, e.svc.betaCapShift) && 0.2 <= betaCap <= 1.0
    ensures penalties == Penalties(e.leverage.betaPenaltyThird || (e.macro.closed && s.etf10d <= 0.0),
                                   e.leverage.betaPenaltyHalf, s.prevEtfExtremeOutflow)
    ensures betaRaw == BetaSpec(state, penalties, betaCap) && 0.0 <= betaRaw <= betaCap
    ensures beta == ScaledBeta(betaRaw, driftMultiplier, betaCap) && 0.0 <= beta <= betaCap
  {
    betaCap := BetaCapFor(state, e.svc.betaCapShift);
    penalties := Penalties(if e.macro.closed && s.etf10d <= 0.0 then true else e.leverage.betaPenaltyThird,
                           e.leverage.betaPenaltyHalf, s.prevEtfExtremeOutflow);
    betaRaw := ComputeBeta(state, penalties, betaCap);
    beta := ScaledBeta(betaRaw, driftMultiplier, betaCap);
  }

  method SizePosition(e: Evaluation, s: Snapshot, state: Tier, driftMultiplier: real, costBps: real, previousBeta: Option<real>)
    returns (z: Sizing)
    requires costBps > 0.0
    ensures z.betaCap == BetaCapFor(state, e.svc.betaCapShift) && 0.2 <= z.betaCap <= 1.0
    ensures z.penalties == Penalties(e.leverage.betaPenaltyThird || (e.macro.closed && s.etf10d <= 0.0),
                                     e.leverage.betaPenaltyHalf, s.prevEtfExtremeOutflow)
    ensures z.betaRaw == BetaSpec(state, z.penalties, z.betaCap) && 0.0 <= z.betaRaw <= z.betaCap
    ensures 0.0 <= z.beta <= z.betaCap
    ensures 0.2 <= z.confidence <= 0.95
    ensures z.execution.costBps == costBps
    ensures z.betaDrifted == ScaledBeta(z.betaRaw, driftMultiplier, z.betaCap)
    ensures z.execution.previousBeta == (if previousBeta.Some? then previousBeta.value else z.betaDrifted)
    ensures previousBeta.None? ==> z.execution.turnover == 0.0 && z.execution.level == "ok"
    ensures (z.execution.level, z.execution.betaMultiplier) == ExecutionTier(z.execution.costPressure)
    ensures z.beta == ScaledBeta(z.betaDrifted, z.execution.betaMultiplier, z.betaCap)
  {
    var betaCap, penalties, betaRaw, betaDrifted := DriftedBeta(e, s, state, driftMultiplier);

    var reversalBoost := ReversalBoost(e.phase.labelText, e.leverage.notes);
    var distributionBoost := DistributionBoost(s.distributionGateCount);
    var confidence := ConfidenceFor(e.riskSwitch.riskOn, e.etf.breakoutValidated, e.macro.closed, e.danger.riskWeight,
                                    e.svc.confidenceMultiplier, distributionBoost, reversalBoost);

    var execution := ExecutionFor(betaDrifted, previousBeta, costBps, confidence);
    var beta := ScaledBeta(betaDrifted, execution.betaMultiplier, betaCap);
    z := Sizing(betaCap, penalties, betaRaw, betaDrifted, beta, confidence, execution);
  }

  /** The reasons collected from the rule results, ranked by weight, first three kept. */
  method RankedReasons(e: Evaluation, s: Snapshot, drift: Drift, executionLevel: string) returns (top: seq<ReasonRef>)
    ensures top == TopReasons(ReasonsOf(ReasonKindsOf(e.macro.closed, e.macro.forceC, e.liquidity.red, e.etf.fiveDayRed,
                                 e.leverage.betaPenaltyHalf, e.leverage.betaPenaltyThird, e.svc.score,
                                 e.etf.breakoutValidated, s.distributionGateCount, drift, executionLevel)))
  {
    var reasons := CollectReasons(e.macro.closed, e.macro.forceC, e.liquidity.red, e.etf.fiveDayRed, e.leverage.betaPenaltyHalf,
                                  e.leverage.betaPenaltyThird, e.svc.score, e.etf.breakoutValidated,
                                  s.distributionGateCount, drift, executionLevel);
    top := TopReasons(ReasonsOf(reasons));
  }

  /** The notes list under the decision: danger signals, structural red lights, then the fixed summary lines. */
  function RiskNotes(e: Evaluation, driftNote: string, execution: Execution, hpm: string, fixed: (real, nat) -> string): (notes: seq<string>)
    ensures |notes| == |e.danger.riskSignals| + |e.svc.redLights| + 8
    ensures notes[..|e.danger.riskSignals|] == e.danger.riskSignals
    ensures notes[|e.danger.riskSignals| + |e.svc.redLights|] == e.etf.breakoutNote
  {
    var lights := seq(|e.svc.redLights|, i requires 0 <= i < |e.svc.redLights| => "结构红灯：" + e.svc.redLights[i]);
    e.danger.riskSignals + lights + [
      e.etf.breakoutNote,
      "漂移门：" + driftNote,
      "执行成本：" + Upper(execution.level) + "（换手 " + fixed(execution.turnover, 2) + " / 成本 "
        + fixed(execution.expectedCostPct, 3) + "%）",
      "BPI：" + e.bpi.labelText + "（强度 " + fixed(e.bpi.strength, 2) + " / 建议 " + e.bpi.betaHint + "）",
      "BCM：牛 " + fixed(e.bcm.bullScore, 2) + " / 熊 " + fixed(e.bcm.bearScore, 2),
      if |e.bcm.conflicts| > 0 then "冲突：" + Join(e.bcm.conflicts, " / ") else "冲突：无",
      "HPM：" + hpm,
      "D-ATAF 偏向：" + e.ataf.bias]
  }

  /** Everything runPipeline decides before it writes the report. */
  datatype Decision = Decision(e: Evaluation, drift: Drift, driftMultiplier: real, driftNote: string, costBps: real,
                               allow: bool, state: Tier, z: Sizing, hedge: bool, extremeAllowed: bool)

  /** The decision: rules, state, sizing, hedge and the extreme-position permission chain. */
  method Decide(s: Snapshot, rt: Runtime, triAllow: Snapshot -> bool) returns (d: Decision)
    ensures d.drift == NormalizeDrift(rt.driftLevel)
    ensures d.driftMultiplier == DriftMultiplier(rt.driftBetaMultiplier, d.drift)
    ensures d.costBps == ExecutionCostBps(rt.costBps) && d.z.execution.costBps == d.costBps
    ensures d.allow == triAllow(s)
    ensures d.e.phase == Phase.EvalPhase(s) && d.e.liquidity == Liquidity.EvalLiquidity(s)
    ensures d.e.macro.closed == MacroClosed(s) && d.e.macro.forceC == MacroForceC(s) && d.e.etf == Etf.EvalEtf(s)
    ensures d.e.svc.score == (s.rsdScore + s.lstcScore) / 2.0
    ensures d.e.leverage.betaPenaltyHalf == (s.liquidationUsd > 1000000000.0)
    ensures d.e.leverage.betaPenaltyThird == (s.crowdingIndex >= 80.0 && s.etf10d <= 0.0)
    ensures 0.2 <= d.z.betaCap <= 1.0
    ensures 0.0 <= d.z.beta <= d.z.betaCap && 0.0 <= d.z.betaRaw <= d.z.betaCap
    ensures 0.2 <= d.z.confidence <= 0.95
    ensures rt.previousBeta.None? ==> d.z.execution.turnover == 0.0 && d.z.execution.level == "ok"
    ensures (d.z.execution.level, d.z.execution.betaMultiplier) == ExecutionTier(d.z.execution.costPressure)
    ensures MacroForceC(s) || TripleHit(s) ==> d.state == C
    ensures MacroClosed(s) || d.drift != Ok ==> d.state != A
    ensures d.hedge <==> d.state == C || TripleHit(s) || d.drift == Danger
    ensures d.extremeAllowed <==>
              Be.EvalBe(s).pass && triAllow(s) && (s.rsdScore + s.lstcScore) / 2.0 >= 7.0 && !MacroClosed(s)
              && !TripleHit(s) && s.deltaES <= 0.6 && d.drift == Ok && d.z.execution.level == "ok"
  {
    var drift := NormalizeDrift(rt.driftLevel);
    var driftMultiplier := DriftMultiplier(rt.driftBetaMultiplier, drift);
    var driftNote := DriftNote(rt.driftNote, drift);
    var costBps := ExecutionCostBps(rt.costBps);

    var e := EvaluateRules(s);
    var allow := triAllow(s);
    var state := DecideState(e, s, drift);
    var z := SizePosition(e, s, state, driftMultiplier, costBps, rt.previousBeta);

    var extremeAllowed := e.be.pass && allow && e.svc.score >= 7.0 && !e.macro.closed && !e.danger.tripleHit
                          && s.deltaES <= 0.6 && drift == Ok && z.execution.level == "ok";
    var hedge := state == C || e.danger.tripleHit || drift == Danger;
    d := Decision(e, drift, driftMultiplier, driftNote, costBps, allow, state, z, hedge, extremeAllowed);
  }

  /** The reasons collected for a snapshot, under a drift level and an execution tier. */
  function PipelineReasonKinds(s: Snapshot, drift: Drift, executionLevel: string): seq<ReasonKind>
  {
    ReasonKindsOf(MacroClosed(s), MacroForceC(s), Liquidity.EvalLiquidity(s).red, Etf.EvalEtf(s).fiveDayRed,
                  s.liquidationUsd > 1000000000.0, s.crowdingIndex >= 80.0 && s.etf10d <= 0.0,
                  (s.rsdScore + s.lstcScore) / 2.0, Etf.EvalEtf(s).breakoutValidated, s.distributionGateCount,
                  drift, executionLevel)
  }

  /** Reasons collected from the rule results of a snapshot are the snapshot's reasons. */
  lemma SnapshotReasons(e: Evaluation, s: Snapshot, drift: Drift, executionLevel: string)
    requires e.macro.closed == MacroClosed(s) && e.macro.forceC == MacroForceC(s)
    requires e.liquidity == Liquidity.EvalLiquidity(s) && e.etf == Etf.EvalEtf(s)
    requires e.svc.score == (s.rsdScore + s.lstcScore) / 2.0
    requires e.leverage.betaPenaltyHalf == (s.liquidationUsd > 1000000000.0)
    requires e.leverage.betaPenaltyThird == (s.crowdingIndex >= 80.0 && s.etf10d <= 0.0)
    ensures ReasonKindsOf(e.macro.closed, e.macro.forceC, e.liquidity.red, e.etf.fiveDayRed, e.leverage.betaPenaltyHalf,
                          e.leverage.betaPenaltyThird, e.svc.score, e.etf.breakoutValidated, s.distributionGateCount,
                          drift, executionLevel)
            == PipelineReasonKinds(s, drift, executionLevel)
  {
  }

  /**
   * runPipeline. `fixed(x, d)` stands for formatNumber (toFixed), `plain(x)` for
   * the template conversion of a number, and `triAllow` for evalTriDomain(...).allow.
   */
  method RunPipeline(s: Snapshot, rt: Runtime, fixed: (real, nat) -> string, plain: real -> string,
                     triAllow: Snapshot -> bool) returns (out: Output)
    ensures 0.2 <= out.betaCap <= 1.0
    ensures 0.0 <= out.beta <= out.betaCap
    ensures 0.0 <= out.betaRaw <= out.betaCap
    ensures 0.2 <= out.confidence <= 0.95
    ensures out.modelRisk.level == NormalizeDrift(rt.driftLevel)
    ensures out.modelRisk.betaMultiplier == DriftMultiplier(rt.driftBetaMultiplier, out.modelRisk.level)
    ensures out.execution.costBps == ExecutionCostBps(rt.costBps)
    ensures rt.previousBeta.None? ==> out.execution.turnover == 0.0 && out.execution.level == "ok"
    ensures (out.execution.level, out.execution.betaMultiplier) == ExecutionTier(out.execution.costPressure)
    ensures MacroForceC(s) || TripleHit(s) ==> out.state == C
    ensures MacroClosed(s) || out.modelRisk.level != Ok ==> out.state != A
    ensures out.hedge <==> out.state == C || TripleHit(s) || out.modelRisk.level == Danger
    ensures out.extremeAllowed <==>
              Be.EvalBe(s).pass && triAllow(s) && (s.rsdScore + s.lstcScore) / 2.0 >= 7.0 && !MacroClosed(s)
              && !TripleHit(s) && s.deltaES <= 0.6 && out.modelRisk.level == Ok && out.execution.level == "ok"
    ensures out.phaseLabel == Phase.EvalPhase(s).labelText
    ensures out.reasonsTop3 == TopReasons(ReasonsOf(PipelineReasonKinds(s, out.modelRisk.level, out.execution.level)))
    ensures |out.gates| == |GateOrder|
    ensures forall i :: 0 <= i < |GateOrder| ==> out.gates[i].id == GateOrder[i]
    ensures forall i :: 0 <= i < |out.gates| - 1 ==>
              out.gates[i].sources.Some? && out.gates[i].sources.value.Keys == out.gates[i].inputs.Keys
              && out.gates[i].timings.Some? && out.gates[i].timings.value.Keys == out.gates[i].inputs.Keys
    ensures out.gates[|out.gates| - 1].status == (match out.state case A => Open case B => Status.Warn case C => Closed)
    ensures out.fofScore == Liquidity.EvalLiquidity(s).score
  {
    var d := Decide(s, rt, triAllow);
    var e, z := d.e, d.z;
    var hpm := Hpm.EvalHpm(d.state, e.phase.labelText, d.allow);
    var reasonsTop3 := RankedReasons(e, s, d.drift, z.execution.level);
    SnapshotReasons(e, s, d.drift, z.execution.level);
    var riskNotes := RiskNotes(e, d.driftNote, z.execution, hpm, fixed);
    var act := ActGate(d.state, z.beta, z.betaCap, z.penalties, z.execution.previousBeta, d.costBps, fixed);
    var gates := GateList(s, e, rt, d.state, d.allow, d.drift, d.driftNote, act, fixed, plain);

    out := Output(d.state, z.beta, z.betaRaw, z.betaCap, d.hedge, e.phase.labelText, z.confidence, d.extremeAllowed,
                  s.distributionGateCount,
                  ModelRisk(d.drift, d.driftNote, rt.driftAccuracy, rt.driftBaseline, rt.driftSampleSize, d.driftMultiplier),
                  z.execution, reasonsTop3, riskNotes, gates, e.liquidity.score);
  }

  /** `String.prototype.toUpperCase` on the three execution levels. */
  function Upper(level: string): string
  {
    if level == "high" then "HIGH" else if level == "medium" then "MEDIUM" else if level == "ok" then "OK" else level
  }
}
