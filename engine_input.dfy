// The validated snapshot the decision engine reads (src/engine/pipeline.js:25-53).
// Every schema field has already been coerced and type-checked, so each field
// carries its schema type; the provenance maps travel alongside.

module EngineInput {
  import opened Values

  datatype Snapshot = Snapshot(
    // macro (G0) and risk switch (V2)
    dxy5d: real, dxy3dUp: bool, us2yWeekBp: real, fciUpWeeks: real,
    policyWindow: bool, preMeeting2y: real, current2y: real, preMeetingDxy: real, currentDxy: real,
    // liquidity (V1) and ETF flows (V5)
    etf10d: real, etf5d: real, etf1d: real, stablecoin30d: real, exchStableDelta: real,
    volumeConfirm: bool, prevEtfExtremeOutflow: bool,
    // money gate / business cycle (D-ATAF)
    rrpChange: real, tgaChange: real, srfChange: real, ism: real,
    // leverage (V3)
    crowdingIndex: real, liquidationUsd: real, longWicks: bool, reverseFishing: bool, shortFailure: bool,
    // supply (V4)
    exchBalanceTrend: real, floatDensity: real, mcapElasticity: real, mcapGrowth: real,
    // structural value capture (V6.2)
    rsdScore: real, lstcScore: real, mappingRatioDown: bool, netIssuanceHigh: bool,
    // phase, phase change and tri-domain
    trendMomentum: real, divergence: real,
    cognitivePotential: real, liquidityPotential: real, onchainReflexivity: real, sentimentThreshold: real,
    topo: real, spectral: real, roughPath: real, deltaES: real,
    distributionGateCount: real,
    meta: Provenance)

  /** `__sources`, `__fieldObservedAt`, `__fieldFetchedAt`, `__fieldFreshness`, `__generatedAt`. */
  datatype Provenance = Provenance(
    sources: map<string, string>,
    observedAt: map<string, string>,
    fetchedAt: map<string, string>,
    freshness: map<string, Value>,
    generatedAt: string)

  const NoProvenance := Provenance(map[], map[], map[], map[], "")
}
