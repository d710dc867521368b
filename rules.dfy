// The threshold rules of src/engine/rules/*.js, one module per rule file.
// Rules whose source builds a list by conditional pushes are methods; the
// ones made of expressions and ordered returns are functions.

// src/engine/rules/macro.js
module Macro {
  import opened Values
  import opened EngineInput

  const DxyTrigger := "DXY 走强"
  const Us2yTrigger := "2Y 收益率上行"
  const FciTrigger := "FCI 连续上行"
  const TriggerOrder := [DxyTrigger, Us2yTrigger, FciTrigger]

  datatype MacroResult = MacroResult(closed: bool, forceC: bool, triggers: seq<string>)

  predicate DxyFires(s: Snapshot) { s.dxy5d >= 1.0 || s.dxy3dUp }
  predicate Us2yFires(s: Snapshot) { s.us2yWeekBp >= 10.0 }
  predicate FciFires(s: Snapshot) { s.fciUpWeeks >= 2.0 }

  function FiredCount(s: Snapshot): nat
  {
    BoolToNat(DxyFires(s)) + BoolToNat(Us2yFires(s)) + BoolToNat(FciFires(s))
  }

  /** The macro gate closes on one tightening trigger and forces C on two. */
  method EvalMacro(s: Snapshot) returns (m: MacroResult)
    ensures Sub(m.triggers, TriggerOrder)
    ensures (DxyTrigger in m.triggers) == DxyFires(s)
    ensures (Us2yTrigger in m.triggers) == Us2yFires(s)
    ensures (FciTrigger in m.triggers) == FciFires(s)
    ensures |m.triggers| == FiredCount(s) <= 3
    ensures m.closed == (FiredCount(s) >= 1)
    ensures m.forceC == (FiredCount(s) >= 2)
    ensures m.forceC ==> m.closed
  {
    var triggers: seq<string> := [];
    SubStep(triggers, TriggerOrder, 0, DxyFires(s));
    if s.dxy5d >= 1.0 || s.dxy3dUp {
      triggers := triggers + [DxyTrigger];
    }
    SubStep(triggers, TriggerOrder, 1, Us2yFires(s));
    if s.us2yWeekBp >= 10.0 {
      triggers := triggers + [Us2yTrigger];
    }
    SubStep(triggers, TriggerOrder, 2, FciFires(s));
    if s.fciUpWeeks >= 2.0 {
      triggers := triggers + [FciTrigger];
    }
    assert TriggerOrder[..3] == TriggerOrder;
    m := MacroResult(|triggers| >= 1, |triggers| >= 2, triggers);
  }
}

// src/engine/rules/liquidity.js
module Liquidity {
  import opened Values
  import opened Utils
  import opened EngineInput

  const Starved := "缺血"
  const Tight := "偏紧"
  const Normal := "正常"

  datatype LiquidityResult = LiquidityResult(score: real, red: bool, labelText: string)

  function EtfScore(s: Snapshot): real { Normalize(s.etf10d, -800.0, 800.0) }
  function SupplyScore(s: Snapshot): real { Normalize(s.stablecoin30d, -8.0, 8.0) }
  function ExchScore(s: Snapshot): real { Normalize(s.exchStableDelta, -6.0, 6.0) }

  /** The weighted liquidity score (weights 0.4 + 0.35 + 0.25 = 1) and its red light. */
  function EvalLiquidity(s: Snapshot): (r: LiquidityResult)
    ensures 0.0 <= r.score <= 100.0
    ensures r.red <==> r.score < 35.0
    ensures r.labelText == Starved <==> r.red
    ensures r.labelText == Tight <==> 35.0 <= r.score < 50.0
    ensures r.labelText == Normal <==> r.score >= 50.0
  {
    var score := 0.4 * EtfScore(s) + 0.35 * SupplyScore(s) + 0.25 * ExchScore(s);
    var red := score < 35.0;
    LiquidityResult(score, red, if red then Starved else if score < 50.0 then Tight else Normal)
  }

  /** The ETF subscore saturates outside [-800, 800]. */
  lemma EtfScoreSaturates(s: Snapshot)
    ensures s.etf10d <= -800.0 ==> EtfScore(s) == 0.0
    ensures s.etf10d >= 800.0 ==> EtfScore(s) == 100.0
  {
  }
}

// src/engine/rules/riskSwitch.js
module RiskSwitch {
  import opened EngineInput

  const Outside := "观察外"
  const RiskOnNote := "Risk-ON"
  const Unconfirmed := "未确认"

  datatype RiskResult = RiskResult(riskOn: bool, note: string)

  /** Risk-ON needs the policy window and both the 2Y yield and the DXY below their pre-meeting levels. */
  function EvalRiskOn(s: Snapshot): (r: RiskResult)
    ensures !s.policyWindow ==> r == RiskResult(false, Outside)
    ensures s.policyWindow ==> (r.riskOn <==> s.current2y < s.preMeeting2y && s.currentDxy < s.preMeetingDxy)
    ensures r.riskOn ==> s.policyWindow
    ensures r.note == RiskOnNote <==> r.riskOn
    ensures s.policyWindow && !r.riskOn ==> r.note == Unconfirmed
  {
    if !s.policyWindow then RiskResult(false, Outside)
    else
      var on := s.current2y < s.preMeeting2y && s.currentDxy < s.preMeetingDxy;
      RiskResult(on, if on then RiskOnNote else Unconfirmed)
  }
}

// src/engine/rules/leverage.js
module Leverage {
  import opened Values
  import opened EngineInput

  const LongWicksNote := "诱空失败候选"
  const ReverseFishingNote := "反向钓鱼布局"
  const ShortFailureNote := "空头失败雷达"
  const NoteOrder := [LongWicksNote, ReverseFishingNote, ShortFailureNote]

  datatype LeverageResult = LeverageResult(highCrowding: bool, betaPenaltyThird: bool, betaPenaltyHalf: bool, notes: seq<string>)

  /** Crowding and liquidation penalties, and the structure notes in fixed order. */
  method EvalLeverage(s: Snapshot, etf10d: real) returns (r: LeverageResult)
    ensures r.highCrowding <==> s.crowdingIndex >= 80.0
    ensures r.betaPenaltyThird <==> r.highCrowding && etf10d <= 0.0
    ensures r.betaPenaltyHalf <==> s.liquidationUsd > 1000000000.0
    ensures Sub(r.notes, NoteOrder) && |r.notes| <= 3
    ensures (LongWicksNote in r.notes) == s.longWicks
    ensures (ReverseFishingNote in r.notes) == s.reverseFishing
    ensures (ShortFailureNote in r.notes) == s.shortFailure
  {
    var highCrowding := s.crowdingIndex >= 80.0;
    var notes: seq<string> := [];
    SubStep(notes, NoteOrder, 0, s.longWicks);
    if s.longWicks {
      notes := notes + [LongWicksNote];
    }
    SubStep(notes, NoteOrder, 1, s.reverseFishing);
    if s.reverseFishing {
      notes := notes + [ReverseFishingNote];
    }
    SubStep(notes, NoteOrder, 2, s.shortFailure);
    if s.shortFailure {
      notes := notes + [ShortFailureNote];
    }
    assert NoteOrder[..3] == NoteOrder;
    r := LeverageResult(highCrowding, highCrowding && etf10d <= 0.0, s.liquidationUsd > 1000000000.0, notes);
  }
}

// src/engine/rules/supply.js
module Supply {
  import opened Values
  import opened EngineInput

  const SellWallNote := "卖墙变薄"
  const FloatThinNote := "浮筹稀薄"
  const ElasticityNote := "市值-价格弹性偏高"
  const BubbleNote := "泡沫结构预警"
  const NoteOrder := [SellWallNote, FloatThinNote, ElasticityNote, BubbleNote]

  datatype SupplyResult = SupplyResult(sellWallThin: bool, floatThin: bool, mcapElasticityHigh: bool, bubbleWarning: bool, notes: seq<string>)

  /** Supply-structure flags; a bubble needs a stable exchange balance, so it excludes a thin sell wall. */
  method EvalSupply(s: Snapshot) returns (r: SupplyResult)
    ensures r.sellWallThin <==> s.exchBalanceTrend < -0.3
    ensures r.floatThin <==> s.floatDensity < 0.35
    ensures r.mcapElasticityHigh <==> s.mcapElasticity > 0.75
    ensures r.bubbleWarning <==> r.mcapElasticityHigh && s.mcapGrowth > 0.4 && s.exchBalanceTrend > -0.1
    ensures r.bubbleWarning ==> !r.sellWallThin
    ensures Sub(r.notes, NoteOrder)
    ensures |r.notes| == BoolToNat(r.sellWallThin) + BoolToNat(r.floatThin) + BoolToNat(r.mcapElasticityHigh) + BoolToNat(r.bubbleWarning)
    ensures (SellWallNote in r.notes) == r.sellWallThin
    ensures (FloatThinNote in r.notes) == r.floatThin
    ensures (ElasticityNote in r.notes) == r.mcapElasticityHigh
    ensures (BubbleNote in r.notes) == r.bubbleWarning
  {
    var sellWallThin := s.exchBalanceTrend < -0.3;
    var floatThin := s.floatDensity < 0.35;
    var high := s.mcapElasticity > 0.75;
    var bubble := high && s.mcapGrowth > 0.4 && s.exchBalanceTrend > -0.1;
    var notes: seq<string> := [];
    SubStep(notes, NoteOrder, 0, sellWallThin);
    if sellWallThin { notes := notes + [SellWallNote]; }
    SubStep(notes, NoteOrder, 1, floatThin);
    if floatThin { notes := notes + [FloatThinNote]; }
    SubStep(notes, NoteOrder, 2, high);
    if high { notes := notes + [ElasticityNote]; }
    SubStep(notes, NoteOrder, 3, bubble);
    if bubble { notes := notes + [BubbleNote]; }
    assert NoteOrder[..4] == NoteOrder;
    r := SupplyResult(sellWallThin, floatThin, high, bubble, notes);
  }
}

// src/engine/rules/etf.js
module Etf {
  import opened EngineInput

  const Validated := "突破验证通过"
  const NotValidated := "突破未验证/可能死猫反弹"

  datatype EtfResult = EtfResult(fiveDayRed: bool, extremeOutflow: bool, breakoutValidated: bool, breakoutNote: string)

  /** ETF red lights, and a breakout that needs an inflow and volume confirmation. */
  function EvalEtf(s: Snapshot): (r: EtfResult)
    ensures r.fiveDayRed <==> s.etf5d <= -400.0
    ensures r.extremeOutflow <==> s.etf1d <= -180.0
    ensures r.breakoutValidated <==> (s.etf1d > 0.0 || s.etf5d > 0.0) && s.volumeConfirm
    ensures !s.volumeConfirm ==> !r.breakoutValidated
    ensures r.breakoutNote == (if r.breakoutValidated then Validated else NotValidated)
  {
    var ok := (s.etf1d > 0.0 || s.etf5d > 0.0) && s.volumeConfirm;
    EtfResult(s.etf5d <= -400.0, s.etf1d <= -180.0, ok, if ok then Validated else NotValidated)
  }
}

// src/engine/rules/danger.js
module Danger {
  import opened Values
  import Macro
  import Liquidity
  import Etf
  import Supply

  const BubbleSignal := "市值虚高泡沫结构"
  const FloatSignal := "极端敏感结构"
  const RedSignal := "流动性缺血"
  const SignalOrder := [BubbleSignal, FloatSignal, RedSignal]

  datatype DangerResult = DangerResult(tripleHit: bool, riskSignals: seq<string>, riskWeight: nat)

  /** The triple hit and the risk signals, whose count is the risk weight. */
  method EvalDanger(macro: Macro.MacroResult, liquidity: Liquidity.LiquidityResult, etf: Etf.EtfResult, supply: Supply.SupplyResult)
    returns (r: DangerResult)
    ensures r.tripleHit <==> macro.closed && liquidity.red && etf.fiveDayRed
    ensures Sub(r.riskSignals, SignalOrder)
    ensures (BubbleSignal in r.riskSignals) == supply.bubbleWarning
    ensures (FloatSignal in r.riskSignals) == supply.floatThin
    ensures (RedSignal in r.riskSignals) == liquidity.red
    ensures r.riskWeight == |r.riskSignals| <= 3
    ensures r.tripleHit ==> r.riskWeight >= 1
  {
    var signals: seq<string> := [];
    SubStep(signals, SignalOrder, 0, supply.bubbleWarning);
    if supply.bubbleWarning { signals := signals + [BubbleSignal]; }
    SubStep(signals, SignalOrder, 1, supply.floatThin);
    if supply.floatThin { signals := signals + [FloatSignal]; }
    SubStep(signals, SignalOrder, 2, liquidity.red);
    if liquidity.red { signals := signals + [RedSignal]; }
    assert SignalOrder[..3] == SignalOrder;
    r := DangerResult(macro.closed && liquidity.red && etf.fiveDayRed, signals, |signals|);
  }
}

// src/engine/rules/svc.js
module Svc {
  import opened Values
  import opened Utils
  import opened EngineInput

  const MappingLight := "映射/分发比走坏"
  const IssuanceLight := "净通胀偏高且费用低位"
  const LightOrder := [MappingLight, IssuanceLight]

  datatype SvcResult = SvcResult(score: real, betaCapShift: int, confidenceMultiplier: real, redLights: seq<string>)

  /** Structural value capture: its score shifts the beta cap and scales confidence. */
  method EvalSvc(s: Snapshot) returns (r: SvcResult)
    ensures r.score == (s.rsdScore + s.lstcScore) / 2.0
    ensures r.betaCapShift == 1 <==> r.score >= 7.0
    ensures r.betaCapShift == -1 <==> r.score <= 3.0
    ensures r.betaCapShift == 0 <==> 3.0 < r.score < 7.0
    ensures 0.85 <= r.confidenceMultiplier <= 1.15
    ensures Sub(r.redLights, LightOrder)
    ensures (MappingLight in r.redLights) == s.mappingRatioDown
    ensures (IssuanceLight in r.redLights) == s.netIssuanceHigh
    ensures |r.redLights| == BoolToNat(s.mappingRatioDown) + BoolToNat(s.netIssuanceHigh)
  {
    var score := (s.rsdScore + s.lstcScore) / 2.0;
    var shift := if score >= 7.0 then 1 else if score <= 3.0 then -1 else 0;
    var lights: seq<string> := [];
    SubStep(lights, LightOrder, 0, s.mappingRatioDown);
    if s.mappingRatioDown { lights := lights + [MappingLight]; }
    SubStep(lights, LightOrder, 1, s.netIssuanceHigh);
    if s.netIssuanceHigh { lights := lights + [IssuanceLight]; }
    assert LightOrder[..2] == LightOrder;
    r := SvcResult(score, shift, Clamp(0.85 + score / 20.0, 0.85, 1.15), lights);
  }
}

// src/engine/rules/bpi.js (the formatted strengthText is not modelled)
module Bpi {
  import opened Utils

  const Dominant := "买家主导"
  const Probing := "买家试探"
  const Absent := "买家缺席"

  datatype BpiResult = BpiResult(strength: real, labelText: string, betaHint: string)

  /** Buyer strength from the ETF buy wall, liquidity, sell wall and crowding, in [0, 1]. */
  function Strength(etf5d: real, liquidityScore: real, sellWallThin: bool, highCrowding: bool): (r: real)
    ensures 0.0 <= r <= 1.0
  {
    var buyWall := (etf5d + 600.0) / 1200.0 * 100.0;
    var supplyScore := if sellWallThin then 65.0 else 45.0;
    var leverageHealth := if highCrowding then 35.0 else 60.0;
    Clamp((buyWall + liquidityScore + supplyScore + leverageHealth) / 400.0, 0.0, 1.0)
  }

  /** A thin sell wall never lowers buyer strength; high crowding never raises it. */
  lemma StrengthMonotone(etf5d: real, liquidityScore: real, sellWallThin: bool, highCrowding: bool)
    ensures Strength(etf5d, liquidityScore, false, highCrowding) <= Strength(etf5d, liquidityScore, true, highCrowding)
    ensures Strength(etf5d, liquidityScore, sellWallThin, true) <= Strength(etf5d, liquidityScore, sellWallThin, false)
  {
    var buyWall := (etf5d + 600.0) / 1200.0 * 100.0;
    var lh := if highCrowding then 35.0 else 60.0;
    var ss := if sellWallThin then 65.0 else 45.0;
    DivMonotone(buyWall + liquidityScore + 45.0 + lh, buyWall + liquidityScore + 65.0 + lh, 400.0);
    ClampMonotone((buyWall + liquidityScore + 45.0 + lh) / 400.0, (buyWall + liquidityScore + 65.0 + lh) / 400.0, 0.0, 1.0);
    DivMonotone(buyWall + liquidityScore + ss + 35.0, buyWall + liquidityScore + ss + 60.0, 400.0);
    ClampMonotone((buyWall + liquidityScore + ss + 35.0) / 400.0, (buyWall + liquidityScore + ss + 60.0) / 400.0, 0.0, 1.0);
  }

  /** Labels the buyer phase by strength band; the beta hint follows the same bands. */
  method EvalBpi(etf5d: real, liquidityScore: real, sellWallThin: bool, highCrowding: bool) returns (r: BpiResult)
    ensures r.strength == Strength(etf5d, liquidityScore, sellWallThin, highCrowding)
    ensures r.labelText == Dominant <==> r.strength > 0.7
    ensures r.labelText == Probing <==> 0.45 < r.strength <= 0.7
    ensures r.labelText == Absent <==> r.strength <= 0.45
    ensures r.betaHint == "A" <==> r.labelText == Dominant
    ensures r.betaHint == "B" <==> r.labelText == Probing
    ensures r.betaHint == "C" <==> r.labelText == Absent
  {
    var strength := Strength(etf5d, liquidityScore, sellWallThin, highCrowding);
    var text := Absent;
    if strength > 0.7 {
      text := Dominant;
    } else if strength > 0.45 {
      text := Probing;
    }
    var hint := if strength > 0.7 then "A" else if strength > 0.45 then "B" else "C";
    r := BpiResult(strength, text, hint);
  }
}

// src/engine/rules/phase.js
module Phase {
  import opened EngineInput

  const UpMid := "Up-Mid"
  const LateDiv := "Late-Div"
  const Reversal := "BTD→BTR"

  datatype PhaseResult = PhaseResult(labelText: string, note: string)

  /** The cycle phase by ordered thresholds on momentum and divergence; each label carries its note. */
  function EvalPhase(s: Snapshot): (r: PhaseResult)
    ensures r.labelText == UpMid <==> s.trendMomentum > 0.65 && s.divergence < 0.45
    ensures r.labelText == LateDiv <==> !(s.trendMomentum > 0.65 && s.divergence < 0.45) && s.divergence > 0.65
    ensures r.labelText == Reversal <==> r.labelText != UpMid && r.labelText != LateDiv
    ensures r.labelText == UpMid ==> r.note == "趋势稳定推进"
    ensures r.labelText == LateDiv ==> r.note == "背离扩散阶段"
    ensures r.labelText == Reversal ==> r.note == "反转确认候选"
  {
    if s.trendMomentum > 0.65 && s.divergence < 0.45 then PhaseResult(UpMid, "趋势稳定推进")
    else if s.divergence > 0.65 then PhaseResult(LateDiv, "背离扩散阶段")
    else PhaseResult(Reversal, "反转确认候选")
  }
}

// src/engine/rules/bcm.js
module Bcm {
  import opened Values
  import opened EngineInput
  import Macro
  import Liquidity
  import Etf
  import Phase

  const BothStrong := "多空条件同时偏强"
  const ClosedButBuying := "宏观关门但买墙仍在"
  const OpenButOutflow := "宏观开门但 ETF 负流"
  const StarvedButInflow := "流动性缺血但 ETF 仍正流"
  const LiquidationVsBull := "清算极值与多头信号冲突"
  const ConflictOrder := [BothStrong, ClosedButBuying, OpenButOutflow, StarvedButInflow, LiquidationVsBull]

  datatype BcmResult = BcmResult(bullScore: real, bearScore: real, conflicts: seq<string>)

  predicate IsQuarter(x: real) { x == 0.0 || x == 0.25 || x == 0.5 || x == 0.75 || x == 1.0 }

  /** The share of four conditions that hold. */
  function Share(a: bool, b: bool, c: bool, d: bool): (r: real)
    ensures IsQuarter(r)
    ensures r == 1.0 <==> a && b && c && d
    ensures !a ==> r <= 0.75
    ensures a ==> r >= 0.25
    ensures r * 4.0 == (BoolToNat(a) + BoolToNat(b) + BoolToNat(c) + BoolToNat(d)) as real
  {
    (BoolToNat(a) + BoolToNat(b) + BoolToNat(c) + BoolToNat(d)) as real / 4.0
  }

  /** The five conflict labels are pairwise different. */
  lemma ConflictLabelsDiffer()
    ensures BothStrong != ClosedButBuying && BothStrong != OpenButOutflow && BothStrong != StarvedButInflow
    ensures BothStrong != LiquidationVsBull && ClosedButBuying != OpenButOutflow && ClosedButBuying != StarvedButInflow
    ensures ClosedButBuying != LiquidationVsBull && OpenButOutflow != StarvedButInflow && OpenButOutflow != LiquidationVsBull
    ensures StarvedButInflow != LiquidationVsBull
  {
    assert BothStrong[0] != ClosedButBuying[0] && BothStrong[0] != OpenButOutflow[0];
    assert |BothStrong| != |StarvedButInflow|;
  }

  /** The five conflict checks, pushed in fixed order. */
  method CollectConflicts(bullStrong: bool, bearStrong: bool, closed: bool, etfInflow: bool, fiveDayRed: bool,
                          red: bool, liquidationExtreme: bool) returns (conflicts: seq<string>)
    ensures Sub(conflicts, ConflictOrder)
    ensures (BothStrong in conflicts) == (bullStrong && bearStrong)
    ensures (ClosedButBuying in conflicts) == (closed && etfInflow)
    ensures (OpenButOutflow in conflicts) == (!closed && fiveDayRed)
    ensures (StarvedButInflow in conflicts) == (red && etfInflow)
    ensures (LiquidationVsBull in conflicts) == (liquidationExtreme && bullStrong)
  {
    ConflictLabelsDiffer();
    conflicts := [];
    SubStep(conflicts, ConflictOrder, 0, bullStrong && bearStrong);
    conflicts := PushIf(conflicts, BothStrong, bullStrong && bearStrong);
    SubStep(conflicts, ConflictOrder, 1, closed && etfInflow);
    conflicts := PushIf(conflicts, ClosedButBuying, closed && etfInflow);
    SubStep(conflicts, ConflictOrder, 2, !closed && fiveDayRed);
    conflicts := PushIf(conflicts, OpenButOutflow, !closed && fiveDayRed);
    SubStep(conflicts, ConflictOrder, 3, red && etfInflow);
    conflicts := PushIf(conflicts, StarvedButInflow, red && etfInflow);
    SubStep(conflicts, ConflictOrder, 4, liquidationExtreme && bullStrong);
    conflicts := PushIf(conflicts, LiquidationVsBull, liquidationExtreme && bullStrong);
    assert ConflictOrder[..5] == ConflictOrder;
  }

  /** Bull and bear condition matrix, each score the share of its four conditions met. */
  method EvalBcm(s: Snapshot, liquidity: Liquidity.LiquidityResult, macro: Macro.MacroResult, etf: Etf.EtfResult, phase: Phase.PhaseResult)
    returns (r: BcmResult)
    ensures IsQuarter(r.bullScore) && IsQuarter(r.bearScore)
    ensures r.bullScore * 4.0 == (BoolToNat(!macro.closed) + BoolToNat(liquidity.score > 50.0) + BoolToNat(s.etf10d > 0.0)
                                  + BoolToNat(phase.labelText == Phase.UpMid)) as real
    ensures r.bearScore * 4.0 == (BoolToNat(macro.closed) + BoolToNat(etf.fiveDayRed) + BoolToNat(liquidity.red)
                                  + BoolToNat(s.liquidationUsd > 1000000000.0)) as real
    ensures macro.closed ==> r.bullScore <= 0.75 && r.bearScore >= 0.25
    ensures r.bullScore == 1.0 <==> !macro.closed && liquidity.score > 50.0 && s.etf10d > 0.0 && phase.labelText == Phase.UpMid
    ensures r.bearScore == 1.0 <==> macro.closed && etf.fiveDayRed && liquidity.red && s.liquidationUsd > 1000000000.0
    ensures Sub(r.conflicts, ConflictOrder) && |r.conflicts| <= 5
    ensures (BothStrong in r.conflicts) == (r.bullScore > 0.5 && r.bearScore > 0.5)
    ensures (ClosedButBuying in r.conflicts) == (macro.closed && s.etf10d > 0.0)
    ensures (OpenButOutflow in r.conflicts) == (!macro.closed && etf.fiveDayRed)
    ensures (StarvedButInflow in r.conflicts) == (liquidity.red && s.etf10d > 0.0)
    ensures (LiquidationVsBull in r.conflicts) == (s.liquidationUsd > 1000000000.0 && r.bullScore > 0.5)
  {
    var bullScore := Share(!macro.closed, liquidity.score > 50.0, s.etf10d > 0.0, phase.labelText == Phase.UpMid);
    var bearScore := Share(macro.closed, etf.fiveDayRed, liquidity.red, s.liquidationUsd > 1000000000.0);
    var conflicts := CollectConflicts(bullScore > 0.5, bearScore > 0.5, macro.closed, s.etf10d > 0.0, etf.fiveDayRed,
                                      liquidity.red, s.liquidationUsd > 1000000000.0);
    SubLength(conflicts, ConflictOrder);
    r := BcmResult(bullScore, bearScore, conflicts);
  }
}

// src/engine/rules/ataf.js
module Ataf {
  import opened Values
  import opened EngineInput

  const RrpSignal := "RRP 回收增强"
  const TgaSignal := "TGA 回笼增强"
  const Us2ySignal := "2Y 上行"
  const DxySignal := "DXY 偏强"
  const FciSignal := "FCI 上行"
  const TighteningOrder := [RrpSignal, TgaSignal, Us2ySignal, DxySignal, FciSignal]
  const SrfSignal := "SRF 释放增强"
  const IsmSignal := "ISM 扩张区间"
  const EasingOrder := [SrfSignal, IsmSignal]

  const Tightening := "偏紧"
  const Easing := "偏松"
  const Neutral := "中性"

  datatype AtafResult = AtafResult(bias: string, tighteningSignals: seq<string>, easingSignals: seq<string>)

  /** The five tightening labels are pairwise different. */
  lemma TighteningLabelsDiffer()
    ensures RrpSignal != TgaSignal && RrpSignal != Us2ySignal && RrpSignal != DxySignal && RrpSignal != FciSignal
    ensures TgaSignal != Us2ySignal && TgaSignal != DxySignal && TgaSignal != FciSignal
    ensures Us2ySignal != DxySignal && Us2ySignal != FciSignal && DxySignal != FciSignal
  {
    assert RrpSignal[0] != TgaSignal[0] && RrpSignal[0] != Us2ySignal[0] && RrpSignal[0] != DxySignal[0];
  }

  /** The tightening pushes, in fixed order. */
  method CollectTightening(s: Snapshot) returns (tight: seq<string>)
    ensures Sub(tight, TighteningOrder)
    ensures (RrpSignal in tight) == (s.rrpChange > 0.0)
    ensures (TgaSignal in tight) == (s.tgaChange > 0.0)
    ensures (Us2ySignal in tight) == (s.us2yWeekBp >= 10.0)
    ensures (DxySignal in tight) == (s.dxy5d >= 1.0 || s.dxy3dUp)
    ensures (FciSignal in tight) == (s.fciUpWeeks >= 2.0)
  {
    TighteningLabelsDiffer();
    tight := [];
    tight := PushIf(tight, RrpSignal, s.rrpChange > 0.0);
    tight := PushIf(tight, TgaSignal, s.tgaChange > 0.0);
    tight := PushIf(tight, Us2ySignal, s.us2yWeekBp >= 10.0);
    tight := PushIf(tight, DxySignal, s.dxy5d >= 1.0 || s.dxy3dUp);
    tight := PushIf(tight, FciSignal, s.fciUpWeeks >= 2.0);
    TighteningInOrder(s.rrpChange > 0.0, s.tgaChange > 0.0, s.us2yWeekBp >= 10.0, s.dxy5d >= 1.0 || s.dxy3dUp,
      s.fciUpWeeks >= 2.0);
  }

  /** Whichever of the five tightening labels are pushed, they come in the fixed order. */
  lemma TighteningInOrder(a: bool, b: bool, c: bool, d: bool, e: bool)
    ensures Sub(PushIf(PushIf(PushIf(PushIf(PushIf([], RrpSignal, a), TgaSignal, b), Us2ySignal, c), DxySignal, d), FciSignal, e),
                TighteningOrder)
  {
    var t: seq<string> := [];
    SubStep(t, TighteningOrder, 0, a);
    t := PushIf(t, RrpSignal, a);
    SubStep(t, TighteningOrder, 1, b);
    t := PushIf(t, TgaSignal, b);
    SubStep(t, TighteningOrder, 2, c);
    t := PushIf(t, Us2ySignal, c);
    SubStep(t, TighteningOrder, 3, d);
    t := PushIf(t, DxySignal, d);
    SubStep(t, TighteningOrder, 4, e);
    t := PushIf(t, FciSignal, e);
    assert TighteningOrder[..5] == TighteningOrder;
  }

  /** The two easing pushes, in fixed order. */
  method CollectEasing(s: Snapshot) returns (easing: seq<string>)
    ensures Sub(easing, EasingOrder) && |easing| <= 2
    ensures (SrfSignal in easing) == (s.srfChange > 0.0)
    ensures (IsmSignal in easing) == (s.ism >= 50.0)
  {
    easing := [];
    SubStep(easing, EasingOrder, 0, s.srfChange > 0.0);
    if s.srfChange > 0.0 { easing := easing + [SrfSignal]; }
    SubStep(easing, EasingOrder, 1, s.ism >= 50.0);
    if s.ism >= 50.0 { easing := easing + [IsmSignal]; }
    assert EasingOrder[..2] == EasingOrder;
  }

  /** The liquidity bias wins only with a margin of more than one signal. */
  method EvalAtaf(s: Snapshot) returns (r: AtafResult)
    ensures Sub(r.tighteningSignals, TighteningOrder) && |r.tighteningSignals| <= 5
    ensures (RrpSignal in r.tighteningSignals) == (s.rrpChange > 0.0)
    ensures (TgaSignal in r.tighteningSignals) == (s.tgaChange > 0.0)
    ensures (Us2ySignal in r.tighteningSignals) == (s.us2yWeekBp >= 10.0)
    ensures (DxySignal in r.tighteningSignals) == (s.dxy5d >= 1.0 || s.dxy3dUp)
    ensures (FciSignal in r.tighteningSignals) == (s.fciUpWeeks >= 2.0)
    ensures Sub(r.easingSignals, EasingOrder) && |r.easingSignals| <= 2
    ensures (SrfSignal in r.easingSignals) == (s.srfChange > 0.0)
    ensures (IsmSignal in r.easingSignals) == (s.ism >= 50.0)
    ensures r.bias == Tightening <==> |r.tighteningSignals| > |r.easingSignals| + 1
    ensures r.bias == Easing <==> |r.easingSignals| > |r.tighteningSignals| + 1
    ensures r.bias == Neutral <==> r.bias != Tightening && r.bias != Easing
    ensures r.tighteningSignals == [] && r.easingSignals == [] ==> r.bias == Neutral
  {
    var tight := CollectTightening(s);
    SubLength(tight, TighteningOrder);
    var easing := CollectEasing(s);
    var bias := if |tight| > |easing| + 1 then Tightening else if |easing| > |tight| + 1 then Easing else Neutral;
    r := AtafResult(bias, tight, easing);
  }
}

// src/engine/rules/be.js
module Be {
  import opened EngineInput
  import Utils

  datatype BeResult = BeResult(potential: real, pass: bool)

  /** Phase-change potential: strictly above the sentiment threshold passes. */
  function EvalBe(s: Snapshot): (r: BeResult)
    ensures r.pass <==> r.potential > s.sentimentThreshold
    ensures r.potential == s.sentimentThreshold ==> !r.pass
    ensures 0.0 <= s.cognitivePotential <= 1.0 && 0.0 <= s.liquidityPotential <= 1.0 && 0.0 <= s.onchainReflexivity <= 1.0
            ==> 0.0 <= r.potential <= 1.0
  {
    var p := s.cognitivePotential * s.liquidityPotential * s.onchainReflexivity;
    assert 0.0 <= s.cognitivePotential <= 1.0 && 0.0 <= s.liquidityPotential <= 1.0 && 0.0 <= s.onchainReflexivity <= 1.0
      ==> 0.0 <= p <= 1.0 by {
      if 0.0 <= s.cognitivePotential <= 1.0 && 0.0 <= s.liquidityPotential <= 1.0 && 0.0 <= s.onchainReflexivity <= 1.0 {
        Utils.UnitProduct(s.cognitivePotential, s.liquidityPotential);
        Utils.UnitProduct(s.cognitivePotential * s.liquidityPotential, s.onchainReflexivity);
      }
    }
    BeResult(p, p > s.sentimentThreshold)
  }
}

// src/engine/rules/state.js
module State {
  import opened Values
  import opened Utils

  datatype Tier = A | B | C
  datatype Drift = Ok | Warn | Danger

  /** Tier order A > B > C. */
  function Rank(t: Tier): nat { match t case A => 2 case B => 1 case C => 0 }

  /** The unclamped state-bias score, term by term. */
  function StateBiasRaw(liquidityScore: real, etf10d: real, riskOn: bool, bpiStrength: real,
                        closed: bool, penaltyHalf: bool, riskWeight: nat): real
  {
    50.0 + (liquidityScore - 50.0) * 0.35 + (if etf10d > 0.0 then 8.0 else -8.0) + (if riskOn then 10.0 else 0.0)
      + (bpiStrength - 0.5) * 25.0 - (if closed then 12.0 else 0.0) - (if penaltyHalf then 10.0 else 0.0)
      - riskWeight as real * 6.0
  }

  /** Accumulates the state-bias score one adjustment at a time and clamps it to [0, 100]. */
  method CalculateStateBias(liquidityScore: real, etf10d: real, riskOn: bool, bpiStrength: real,
                            closed: bool, penaltyHalf: bool, riskWeight: nat) returns (score: real)
    ensures 0.0 <= score <= 100.0
    ensures score == Clamp(StateBiasRaw(liquidityScore, etf10d, riskOn, bpiStrength, closed, penaltyHalf, riskWeight), 0.0, 100.0)
  {
    score := 50.0;
    score := score + (liquidityScore - 50.0) * 0.35;
    score := score + (if etf10d > 0.0 then 8.0 else -8.0);
    score := score + (if riskOn then 10.0 else 0.0);
    score := score + (bpiStrength - 0.5) * 25.0;
    score := score - (if closed then 12.0 else 0.0);
    score := score - (if penaltyHalf then 10.0 else 0.0);
    score := score - riskWeight as real * 6.0;
    score := Clamp(score, 0.0, 100.0);
  }

  /** Risk-ON never lowers the bias score and a closed macro gate never raises it. */
  lemma StateBiasMonotone(liquidityScore: real, etf10d: real, riskOn: bool, bpiStrength: real,
                          closed: bool, penaltyHalf: bool, riskWeight: nat)
    ensures Clamp(StateBiasRaw(liquidityScore, etf10d, false, bpiStrength, closed, penaltyHalf, riskWeight), 0.0, 100.0)
         <= Clamp(StateBiasRaw(liquidityScore, etf10d, true, bpiStrength, closed, penaltyHalf, riskWeight), 0.0, 100.0)
    ensures Clamp(StateBiasRaw(liquidityScore, etf10d, riskOn, bpiStrength, true, penaltyHalf, riskWeight), 0.0, 100.0)
         <= Clamp(StateBiasRaw(liquidityScore, etf10d, riskOn, bpiStrength, false, penaltyHalf, riskWeight), 0.0, 100.0)
  {
    ClampMonotone(StateBiasRaw(liquidityScore, etf10d, false, bpiStrength, closed, penaltyHalf, riskWeight),
                  StateBiasRaw(liquidityScore, etf10d, true, bpiStrength, closed, penaltyHalf, riskWeight), 0.0, 100.0);
    ClampMonotone(StateBiasRaw(liquidityScore, etf10d, riskOn, bpiStrength, true, penaltyHalf, riskWeight),
                  StateBiasRaw(liquidityScore, etf10d, riskOn, bpiStrength, false, penaltyHalf, riskWeight), 0.0, 100.0);
  }

  /** C on a forced C or a triple hit, whatever the score; otherwise by score band. */
  function DeriveState(baseScore: real, forceC: bool, tripleHit: bool): (t: Tier)
    ensures forceC || tripleHit ==> t == C
    ensures !forceC && !tripleHit ==> (t == A <==> baseScore >= 65.0)
    ensures !forceC && !tripleHit ==> (t == C <==> baseScore <= 35.0)
    ensures !forceC && !tripleHit ==> (t == B <==> 35.0 < baseScore < 65.0)
  {
    if forceC || tripleHit then C
    else if baseScore >= 65.0 then A
    else if baseScore <= 35.0 then C
    else B
  }

  /** A closed macro gate caps A at B; nothing else changes. */
  function ApplyStateCaps(t: Tier, closed: bool): (r: Tier)
    ensures r != t <==> closed && t == A
    ensures r != t ==> r == B
    ensures Rank(r) <= Rank(t)
  {
    if closed && t == A then B else t
  }

  /** Drift danger lowers every tier by one step (C stays C), warn lowers only A, ok changes nothing. */
  function ApplyDriftDegrade(t: Tier, drift: Drift): (r: Tier)
    ensures drift == Danger ==> Rank(r) == if Rank(t) == 0 then 0 else Rank(t) - 1
    ensures drift == Warn ==> r == (if t == A then B else t)
    ensures drift == Ok ==> r == t
    ensures Rank(r) <= Rank(t)
  {
    match drift
    case Danger => (if t == A then B else C)
    case Warn => (if t == A then B else t)
    case Ok => t
  }

  datatype Penalties = Penalties(third: bool, half: bool, extra: bool)

  function BaseBeta(t: Tier): real { match t case A => 0.75 case B => 0.45 case C => 0.2 }

  /** The product of the active penalty factors 0.67, 0.5 and 0.8. */
  function PenaltyFactor(p: Penalties): real
  {
    (if p.third then 0.67 else 1.0) * (if p.half then 0.5 else 1.0) * (if p.extra then 0.8 else 1.0)
  }

  /** Each penalty can only shrink the factor, which stays in (0, 1]. */
  lemma PenaltyFactorMonotone(p: Penalties)
    ensures 0.0 < PenaltyFactor(p) <= 1.0
    ensures PenaltyFactor(p.(third := true)) <= PenaltyFactor(p.(third := false))
    ensures PenaltyFactor(p.(half := true)) <= PenaltyFactor(p.(half := false))
    ensures PenaltyFactor(p.(extra := true)) <= PenaltyFactor(p.(extra := false))
  {
    match p
    case Penalties(third, half, extra) =>
      if third { if half { if extra { } else { } } else { if extra { } else { } } }
      else { if half { if extra { } else { } } else { if extra { } else { } } }
  }

  /** The beta a penalty set leaves after the cap and the [0, 1] clamp. */
  function BetaSpec(t: Tier, p: Penalties, betaCap: real): (r: real)
    ensures 0.0 <= r <= 1.0
    ensures betaCap >= 0.0 ==> r <= betaCap
  {
    Clamp(MinReal(BaseBeta(t) * PenaltyFactor(p), betaCap), 0.0, 1.0)
  }

  /** Multiplies the base beta by each active penalty factor in turn. */
  method ComputeBeta(t: Tier, p: Penalties, betaCap: real) returns (r: real)
    ensures r == BetaSpec(t, p, betaCap)
    ensures 0.0 <= r <= 1.0
    ensures betaCap >= 0.0 ==> r <= betaCap
  {
    var value := BaseBeta(t);
    if p.third { value := value * 0.67; }
    if p.half { value := value * 0.5; }
    if p.extra { value := value * 0.8; }
    assert value == BaseBeta(t) * PenaltyFactor(p);
    r := Clamp(MinReal(value, betaCap), 0.0, 1.0);
  }

  lemma ScaleMonotone(b: real, f: real, g: real)
    requires b >= 0.0 && f <= g
    ensures b * f <= b * g
  {
    MulNonNegative(b, g - f);
    assert b * g - b * f == b * (g - f);
  }

  lemma BetaSpecMonotone(t: Tier, p: Penalties, q: Penalties, betaCap: real)
    requires PenaltyFactor(p) <= PenaltyFactor(q)
    ensures BetaSpec(t, p, betaCap) <= BetaSpec(t, q, betaCap)
  {
    var b := BaseBeta(t);
    var x, y := b * PenaltyFactor(p), b * PenaltyFactor(q);
    assert x <= y by {
      assert b >= 0.0;
      ScaleMonotone(b, PenaltyFactor(p), PenaltyFactor(q));
    }
    ClampMonotone(MinReal(x, betaCap), MinReal(y, betaCap), 0.0, 1.0);
  }

  /** Turning on any penalty never increases the beta. */
  lemma PenaltyNeverRaisesBeta(t: Tier, p: Penalties, betaCap: real)
    ensures BetaSpec(t, p.(third := true), betaCap) <= BetaSpec(t, p.(third := false), betaCap)
    ensures BetaSpec(t, p.(half := true), betaCap) <= BetaSpec(t, p.(half := false), betaCap)
    ensures BetaSpec(t, p.(extra := true), betaCap) <= BetaSpec(t, p.(extra := false), betaCap)
  {
    PenaltyFactorMonotone(p);
    BetaSpecMonotone(t, p.(third := true), p.(third := false), betaCap);
    BetaSpecMonotone(t, p.(half := true), p.(half := false), betaCap);
    BetaSpecMonotone(t, p.(extra := true), p.(extra := false), betaCap);
  }
}

// src/engine/rules/hpm.js
module Hpm {
  import State
  import Phase

  const Defensive := "历史防御区间"
  const Accelerating := "历史强势加速区间"
  const Incubating := "历史反转孕育区"
  const Transitional := "历史过渡区间"

  /** Maps state, phase and tri-domain permission onto a historical phase band. */
  function EvalHpm(t: State.Tier, phaseLabel: string, triAllow: bool): (r: string)
    ensures t == State.C && phaseLabel == Phase.LateDiv ==> r == Defensive
    ensures t == State.A && triAllow ==> r == Accelerating
    ensures t == State.B && phaseLabel == Phase.Reversal ==> r == Incubating
    ensures (!(t == State.C && phaseLabel == Phase.LateDiv) && !(t == State.A && triAllow)
             && !(t == State.B && phaseLabel == Phase.Reversal)) ==> r == Transitional
    ensures r in {Defensive, Accelerating, Incubating, Transitional}
  {
    if t == State.C && phaseLabel == Phase.LateDiv then Defensive
    else if t == State.A && triAllow then Accelerating
    else if t == State.B && phaseLabel == Phase.Reversal then Incubating
    else Transitional
  }
}
