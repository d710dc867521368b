// The table of input fields shown on the page and handed to the AI step
// (src/ui/fieldMeta.js): each field's label, unit, gate and description, and the
// coverage groups that list the fields of each gate.

module FieldMeta {
  import opened Values

  /** What the page knows about one input field. `gate` may name several gates joined by "/". */
  datatype FieldInfo = FieldInfo(caption: string, unit: string, gate: string, desc: string)

  const FieldTable: map<string, FieldInfo> := map[
    "dxy5d" := FieldInfo("美元指数 5D 涨幅", "%", "G0", "衡量美元短期紧缩信号"),
    "dxy3dUp" := FieldInfo("美元指数 3D 连涨", "bool", "G0", "连续 3 日收涨触发紧缩"),
    "us2yWeekBp" := FieldInfo("美债 2Y 周度变化", "bp", "G0", "≥10bp 触发紧缩"),
    "fciUpWeeks" := FieldInfo("FCI 连续上行周数", "周", "G0", "≥2 周上行触发紧缩"),
    "etf10d" := FieldInfo("ETF 10D 净流入", "USD", "V1/V5", "资金面核心指标"),
    "stablecoin30d" := FieldInfo("稳定币 30D 增减", "%", "V1", "资金供血强弱"),
    "exchStableDelta" := FieldInfo("交易所稳定币余额变化", "USD", "V1", "交易所资金供给"),
    "policyWindow" := FieldInfo("议息后观测窗口", "bool", "V2", "重大政策后 2-3 交易日"),
    "preMeeting2y" := FieldInfo("会前 2Y", "%", "V2", "会前基准"),
    "current2y" := FieldInfo("当前 2Y", "%", "V2", "会后对比"),
    "preMeetingDxy" := FieldInfo("会前 DXY", "index", "V2", "会前基准"),
    "currentDxy" := FieldInfo("当前 DXY", "index", "V2", "会后对比"),
    "crowdingIndex" := FieldInfo("杠杆拥挤度", "score", "V3", "衍生品拥挤度指标"),
    "liquidationUsd" := FieldInfo("全网清算额", "USD", "V3", ">10亿触发 β-1/2"),
    "longWicks" := FieldInfo("长下影线", "bool", "V3", "诱空失败候选"),
    "reverseFishing" := FieldInfo("反向钓鱼布局", "bool", "V3", "提高风险权重"),
    "shortFailure" := FieldInfo("空头失败雷达", "bool", "V3", "反转置信度加成"),
    "exchBalanceTrend" := FieldInfo("交易所余额趋势", "USD", "V4", "卖墙是否变薄"),
    "floatDensity" := FieldInfo("浮筹密度", "ratio", "V4", "弹性与脆弱度"),
    "mcapElasticity" := FieldInfo("市值-价格弹性", "ratio", "V4", "虚涨告警"),
    "mcapGrowth" := FieldInfo("市值增长", "%", "V4", "泡沫结构输入"),
    "etf5d" := FieldInfo("ETF 5D 净流入", "USD", "V5", "连击风控"),
    "etf1d" := FieldInfo("ETF 1D 净流入", "USD", "V5", "极值与突破验证"),
    "prevEtfExtremeOutflow" := FieldInfo("T-1 ETF 极值流出", "bool", "V5", "次日预防性降 β"),
    "volumeConfirm" := FieldInfo("成交量确认", "bool", "V5", "突破验证必要条件"),
    "rsdScore" := FieldInfo("RSD 结构分", "0-10", "V6.2", "RWA/稳定币结构优势"),
    "lstcScore" := FieldInfo("LSTC 结构分", "0-10", "V6.2", "Blob/DA 价值捕获"),
    "mappingRatioDown" := FieldInfo("映射/分发比走坏", "bool", "V6.2", "结构红灯"),
    "netIssuanceHigh" := FieldInfo("净通胀偏高", "bool", "V6.2", "结构红灯"),
    "cognitivePotential" := FieldInfo("认知势能", "0-1", "BE", "相变候选因子"),
    "liquidityPotential" := FieldInfo("流动性势能", "0-1", "BE", "相变候选因子"),
    "onchainReflexivity" := FieldInfo("链上反身性", "0-1", "BE", "相变候选因子"),
    "sentimentThreshold" := FieldInfo("情绪阈值", "0-1", "BE", "对照阈值"),
    "topo" := FieldInfo("拓扑流体", "0-1", "Tri", "供需断裂/结构重构"),
    "spectral" := FieldInfo("谱域谐振", "0-1", "Tri", "周期能量集中"),
    "roughPath" := FieldInfo("粗糙路径", "0-1", "Tri", "尾部风险可控"),
    "deltaES" := FieldInfo("ΔES", "0-1", "Tri", "阈值 0.6"),
    "trendMomentum" := FieldInfo("趋势动能", "ratio", "SC", "相位判定因子"),
    "divergence" := FieldInfo("背离强度", "ratio", "SC", "相位判定因子"),
    "distributionGateCount" := FieldInfo("分发闸门事件", "count", "DG", "30D 内事件数"),
    "rrpChange" := FieldInfo("RRP 变化", "USD", "D-ATAF", "资金回收/释放"),
    "tgaChange" := FieldInfo("TGA 变化", "USD", "D-ATAF", "财政回笼/释放"),
    "srfChange" := FieldInfo("SRF 变化", "USD", "D-ATAF", "短期流动性"),
    "ism" := FieldInfo("ISM 指数", "index", "D-ATAF", "低权重周期代理")
  ]

  /** A coverage group: a gate's id, its caption and the fields it covers, in display order. */
  datatype CoverageGroup = CoverageGroup(id: string, caption: string, keys: seq<string>)

  const CoverageGroups: seq<CoverageGroup> := [
    CoverageGroup("G0", "G0 宏观总闸门", ["dxy5d", "dxy3dUp", "us2yWeekBp", "fciUpWeeks"]),
    CoverageGroup("V1", "V1 流动性总分", ["etf10d", "stablecoin30d", "exchStableDelta"]),
    CoverageGroup("V2", "V2 Risk-ON", ["policyWindow", "preMeeting2y", "current2y", "preMeetingDxy", "currentDxy"]),
    CoverageGroup("V3", "V3 杠杆结构与清算", ["crowdingIndex", "liquidationUsd", "longWicks", "reverseFishing", "shortFailure"]),
    CoverageGroup("V4", "V4 卖墙与浮筹", ["exchBalanceTrend", "floatDensity", "mcapElasticity", "mcapGrowth"]),
    CoverageGroup("V5", "V5 ETF 买墙与连击", ["etf10d", "etf5d", "etf1d", "prevEtfExtremeOutflow", "volumeConfirm"]),
    CoverageGroup("V6.2", "V6.2 SVC 结构性价值捕获", ["rsdScore", "lstcScore", "mappingRatioDown", "netIssuanceHigh"]),
    CoverageGroup("V7", "V7 买家阶段指标", []),
    CoverageGroup("V8", "V8 牛熊条件矩阵", []),
    CoverageGroup("HPM", "HPM 历史相位映射", []),
    CoverageGroup("SC", "SC 相位判定", ["trendMomentum", "divergence"]),
    CoverageGroup("BE", "BE 相变判定", ["cognitivePotential", "liquidityPotential", "onchainReflexivity", "sentimentThreshold"]),
    CoverageGroup("Tri", "三域扫描", ["topo", "spectral", "roughPath", "deltaES"]),
    CoverageGroup("DG", "分发闸门", ["distributionGateCount"]),
    CoverageGroup("D-ATAF", "D-ATAF", ["rrpChange", "tgaChange", "srfChange", "ism"])
  ]

  /** Every group's keys, one group after the other (repeats kept). */
  function GroupKeys(groups: seq<CoverageGroup>): (r: seq<string>)
    ensures forall k :: k in r <==> exists i :: 0 <= i < |groups| && k in groups[i].keys
  {
    if groups == [] then []
    else
      var front := GroupKeys(groups[..|groups| - 1]);
      assert forall i :: 0 <= i < |groups| - 1 ==> groups[..|groups| - 1][i] == groups[i];
      front + groups[|groups| - 1].keys
  }
}
