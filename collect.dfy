// The assembly of the snapshot collector (scripts/collector.py:828-973): the
// fetchers' blocks, each wrapped by safe_call, are merged; the derived scores are
// added; the missing list is recomputed from the required fields; helper keys and
// None values are dropped. Each fetcher's result is an input (HTTP is not
// modelled); the clock and the proxy probe of the payload are left out. Also the
// block merge of the JavaScript twin (src/data/adapters.js:244-254).

module Collect {
  import opened Values
  import opened Text
  import Derived

  // ---- merge and strip_none (scripts/collector.py:828-840)

  /** The blocks merged in order: later keys overwrite earlier ones, missing lists are concatenated. */
  function Merged(blocks: seq<Block>): (m: Block)
    ensures m.errors == []
  {
    if blocks == [] then Block(map[], map[], [], [])
    else
      var m := Merged(blocks[..|blocks| - 1]);
      var b := blocks[|blocks| - 1];
      Block(m.data + b.data, m.sources + b.sources, m.missing + b.missing, [])
  }

  /** A key is in the merged data exactly when some block supplies it. */
  lemma {:induction false} MergedKeys(blocks: seq<Block>, k: string)
    ensures k in Merged(blocks).data <==> exists j :: 0 <= j < |blocks| && k in blocks[j].data
  {
    if blocks != [] {
      var front := blocks[..|blocks| - 1];
      MergedKeys(front, k);
      if k in Merged(front).data {
        var j :| 0 <= j < |front| && k in front[j].data;
        assert k in blocks[j].data;
      }
      if exists j :: 0 <= j < |blocks| && k in blocks[j].data {
        var j :| 0 <= j < |blocks| && k in blocks[j].data;
        if j < |front| {
          assert k in front[j].data;
        }
      }
    }
  }

  /** The merged value of a key is the one of the last block that supplies it. */
  lemma {:induction false} LastWriterWins(blocks: seq<Block>, j: nat, k: string)
    requires j < |blocks| && k in blocks[j].data
    requires forall i :: j < i < |blocks| ==> k !in blocks[i].data
    ensures k in Merged(blocks).data && Merged(blocks).data[k] == blocks[j].data[k]
  {
    var front := blocks[..|blocks| - 1];
    if j < |blocks| - 1 {
      assert forall i :: j < i < |front| ==> front[i] == blocks[i];
      LastWriterWins(front, j, k);
    }
  }

  /** merge: the update loop over the blocks. */
  method Merge(blocks: seq<Block>) returns (data: Record, sources: map<string, string>, missing: seq<string>)
    ensures Block(data, sources, missing, []) == Merged(blocks)
  {
    data, sources, missing := map[], map[], [];
    var i := 0;
    while i < |blocks|
      invariant 0 <= i <= |blocks|
      invariant Block(data, sources, missing, []) == Merged(blocks[..i])
    {
      assert blocks[..i + 1][..i] == blocks[..i];
      data := data + blocks[i].data;
      sources := sources + blocks[i].sources;
      missing := missing + blocks[i].missing;
      i := i + 1;
    }
    assert blocks[..i] == blocks;
  }

  /** strip_none: the entries whose value is not None. */
  function StripNone(data: Record): (r: Record)
    ensures forall k :: k in r <==> k in data && data[k] != Null
    ensures forall k :: k in r ==> r[k] == data[k]
  {
    map k | k in data && data[k] != Null :: data[k]
  }

  // ---- safe_call (scripts/collector.py:846-857)

  /** `f"{name}: {err}"` for each note. */
  function Labelled(name: string, notes: seq<string>): (r: seq<string>)
    ensures |r| == |notes|
    ensures forall i :: 0 <= i < |notes| ==> r[i] == name + ": " + notes[i]
  {
    seq(|notes|, i requires 0 <= i < |notes| => name + ": " + notes[i])
  }

  /**
   * safe_call: a fetcher that raised yields no data, the declared missing keys and one
   * note "name: message"; otherwise its block passes through with its extra notes
   * labelled by the name. The `errors` field holds the notes safe_call appends.
   */
  function SafeCall(name: string, result: Outcome<Block>, missingKeys: seq<string>): (b: Block)
    ensures result.Raised? ==> b == Block(map[], map[], missingKeys, [name + ": " + result.message])
    ensures result.Ok? ==> b == result.value.(errors := Labelled(name, result.value.errors))
  {
    match result
    case Raised(m) => Block(map[], map[], missingKeys, [name + ": " + m])
    case Ok(v) => Block(v.data, v.sources, v.missing, Labelled(name, v.errors))
  }

  /** The eleven fetchers main wraps in safe_call, with their names and declared missing keys. */
  const Calls: seq<(string, seq<string>)> := [
    ("DefiLlama(stablecoin)", ["stablecoin30d"]),
    ("DefiLlama(stablecoin_eth)", ["mappingRatioDown"]),
    ("Farside(ETF)", ["etf1d", "etf5d", "etf10d"]),
    ("CoinGecko(market)", ["mcapGrowth", "mcapElasticity", "floatDensity", "trendMomentum", "divergence"]),
    ("Coinglass(liquidation)", ["liquidationUsd"]),
    ("DefiLlama(CEX)", ["exchBalanceTrend", "exchStableDelta"]),
    ("CoinGecko(OHLC)", ["crowdingIndex", "longWicks", "reverseFishing", "shortFailure", "volumeConfirm"]),
    ("DefiLlama(RWA)", ["rsdScore"]),
    ("DefiLlama(Fees)", ["lstcScore", "netIssuanceHigh"]),
    ("AltMe(FNG)", ["sentimentThreshold"]),
    ("GDELT(Distribution)", ["distributionGateCount"])]

  /** The blocks safe_call returns for the eleven fetcher results, in call order. */
  function CallBlocks(results: seq<Outcome<Block>>): (bs: seq<Block>)
    requires |results| == |Calls|
    ensures |bs| == |Calls|
    ensures forall i :: 0 <= i < |Calls| ==> bs[i] == SafeCall(Calls[i].0, results[i], Calls[i].1)
  {
    seq(|Calls|, i requires 0 <= i < |Calls| => SafeCall(Calls[i].0, results[i], Calls[i].1))
  }

  /** The notes of the blocks, in block order. */
  function AllErrors(bs: seq<Block>): seq<string>
  {
    if bs == [] then [] else AllErrors(bs[..|bs| - 1]) + bs[|bs| - 1].errors
  }

  lemma {:induction false} AllErrorsIn(bs: seq<Block>, j: nat, e: string)
    requires j < |bs| && e in bs[j].errors
    ensures e in AllErrors(bs)
  {
    if j < |bs| - 1 {
      assert bs[..|bs| - 1][j] == bs[j];
      AllErrorsIn(bs[..|bs| - 1], j, e);
    }
  }

  lemma {:induction false} AllErrorsFrom(bs: seq<Block>, e: string)
    requires e in AllErrors(bs)
    ensures exists j :: 0 <= j < |bs| && e in bs[j].errors
  {
    var front := bs[..|bs| - 1];
    if e in AllErrors(front) {
      AllErrorsFrom(front, e);
      var j :| 0 <= j < |front| && e in front[j].errors;
      assert e in bs[j].errors;
    }
  }

  /** The safe_call loop of main: each result wrapped, its notes appended to the error list. */
  method GatherBlocks(results: seq<Outcome<Block>>) returns (blocks: seq<Block>, errors: seq<string>)
    requires |results| == |Calls|
    ensures blocks == CallBlocks(results) && errors == AllErrors(blocks)
  {
    blocks, errors := [], [];
    var i := 0;
    while i < |Calls|
      invariant 0 <= i <= |Calls|
      invariant blocks == CallBlocks(results)[..i] && errors == AllErrors(blocks)
    {
      var b := SafeCall(Calls[i].0, results[i], Calls[i].1);
      assert (blocks + [b])[..|blocks|] == blocks;
      blocks := blocks + [b];
      errors := errors + b.errors;
      i := i + 1;
    }
  }

  // ---- the derived fields of main (scripts/collector.py:893-949)

  /** Data and sources as main updates them. */
  datatype State = State(data: Record, sources: map<string, string>)

  /** Python falsiness. */
  predicate PyFalsy(v: Value)
  {
    v == Null || v == Num(0.0) || v == Bool(false) || v == Str("") || v == Obj(map[]) || v == Arr([])
  }

  /** Every item as a number, or None when one is not a number. */
  function Numbers(items: seq<Value>): (r: Option<seq<real>>)
    ensures r.Some? ==> |r.value| == |items|
    ensures r.Some? <==> forall i :: 0 <= i < |items| ==> Derived.PyNumber(items[i]).Some?
    ensures r.Some? ==> forall i :: 0 <= i < |items| ==> r.value[i] == Derived.PyNumber(items[i]).value
  {
    if items == [] then Some([])
    else
      var head := Derived.PyNumber(items[0]);
      var tail := Numbers(items[1..]);
      if head.Some? && tail.Some? then Some([head.value] + tail.value) else None
  }

  /**
   * `data.get("_closeSeries") or []` as compute_tridomain sees it: anything with fewer than
   * ten elements returns `{}` before a value is read, so it is taken as no closes; None
   * when the arithmetic would raise (a value without a length, or ten or more elements of
   * which one is not a number). The fetcher always stores a list of floats here.
   */
  function CloseSeries(data: Record): Option<seq<real>>
  {
    if "_closeSeries" !in data || PyFalsy(data["_closeSeries"]) then Some([])
    else
      match data["_closeSeries"]
      case Arr(items) => if |items| < 10 then Some([]) else Numbers(items)
      case Str(text) => if |text| < 10 then Some([]) else None
      case Obj(fields) => if |fields| < 10 then Some([]) else None
      case _ => None
  }

  function TriData(t: Derived.Tridomain): Record
  {
    map["topo" := Num(t.topo), "spectral" := Num(t.spectral), "roughPath" := Num(t.roughPath), "deltaES" := Num(t.deltaES)]
  }

  const TriSources := map[
    "topo" := "Derived: price structure (Binance klines)",
    "spectral" := "Derived: price cycle ratio (Binance klines)",
    "roughPath" := "Derived: tail risk ES (Binance klines)",
    "deltaES" := "Derived: tail risk ES (Binance klines)"]

  /**
   * The tridomain update as main makes it: compute_tridomain runs outside safe_call, so its
   * ZeroDivisionError (a zero close seven steps back) ends the run; scores are added only
   * when it returns some, and the data is left as it was when it returns none.
   */
  function WithTridomain(st: State, sqrt: real -> real): (r: Outcome<State>)
    ensures r.Raised? <==> CloseSeries(st.data).None? || Derived.TridomainAsWritten(CloseSeries(st.data).value, sqrt).Raised?
    ensures r.Ok? ==> var t := Derived.TridomainOf(CloseSeries(st.data).value, sqrt);
      r.value == if t.Some? then State(st.data + TriData(t.value), st.sources + TriSources) else st
  {
    var closes := CloseSeries(st.data);
    if closes.None? then Raised("unsupported operand type")
    else
      match Derived.TridomainAsWritten(closes.value, sqrt)
      case Raised(m) => Raised(m)
      case Ok(t) =>
        Derived.AsWrittenAgrees(closes.value, sqrt);
        if t.Some? then Ok(State(st.data + TriData(t.value), st.sources + TriSources)) else Ok(st)
  }

  function PotData(p: Derived.Potentials): Record
  {
    map["cognitivePotential" := Num(p.cognitive), "liquidityPotential" := Num(p.liquidity),
        "onchainReflexivity" := Num(p.reflexivity),
        "sentimentThreshold" := if p.threshold.Some? then Num(p.threshold.value) else Null]
  }

  const PotSources := map[
    "cognitivePotential" := "Derived: trendMomentum/divergence",
    "liquidityPotential" := "Derived: stablecoin/ETF/RRP",
    "onchainReflexivity" := "Derived: elasticity/float",
    "sentimentThreshold" := "Alternative.me FNG"]

  /** The potentials update, always made; a missing Fear & Greed reading leaves the threshold None. */
  function WithPotentials(st: State): (r: Outcome<State>)
    ensures r.Raised? <==> Derived.ComputePotentials(st.data).Raised?
    ensures r.Ok? ==> r.value.data.Keys == st.data.Keys + PotData(Derived.Potentials(0.0, 0.0, 0.0, None)).Keys
    ensures r.Ok? ==> (r.value.data["sentimentThreshold"] == Null <==> "fearGreed" !in st.data)
    ensures r.Ok? ==> var p := Derived.ComputePotentials(st.data).value;
      r.value.data["cognitivePotential"] == Num(p.cognitive) && r.value.data["liquidityPotential"] == Num(p.liquidity)
      && r.value.data["onchainReflexivity"] == Num(p.reflexivity)
      && (p.threshold.Some? ==> r.value.data["sentimentThreshold"] == Num(p.threshold.value))
    ensures r.Ok? ==> forall k :: k in st.data && k !in PotSources ==> r.value.data[k] == st.data[k]
    ensures r.Ok? ==> r.value.sources == st.sources + PotSources
  {
    match Derived.ComputePotentials(st.data)
    case Raised(m) => Raised(m)
    case Ok(p) =>
      PotDataWritten(st.data, p);
      Ok(State(st.data + PotData(p), st.sources + PotSources))
  }

  /** `data.update(...)` with the four potentials: those keys take the new values, every other key is kept. */
  lemma PotDataWritten(d: Record, p: Derived.Potentials)
    ensures var m := d + PotData(p);
      m.Keys == d.Keys + PotData(Derived.Potentials(0.0, 0.0, 0.0, None)).Keys
      && m["cognitivePotential"] == Num(p.cognitive) && m["liquidityPotential"] == Num(p.liquidity)
      && m["onchainReflexivity"] == Num(p.reflexivity)
      && m["sentimentThreshold"] == (if p.threshold.Some? then Num(p.threshold.value) else Null)
      && forall k :: k in d && k !in PotSources ==> m[k] == d[k]
  {
  }

  predicate StableInputs(d: Record)
  {
    "totalStableNow" in d && "totalStableAgo" in d && "ethStableNow" in d && "ethStableAgo" in d
  }

  /**
   * The five amounts the stablecoin-share update divides and adds: `or 1` for the totals,
   * `or 0` for the ETH amounts and the RWA share; None when one of them is not a number.
   */
  function StableRead(d: Record): (r: Option<(real, real, real, real, real)>)
    requires StableInputs(d)
    ensures r.Some? ==> r.value.0 != 0.0 && r.value.1 != 0.0
  {
    var totalNow := Derived.PyOr(d["totalStableNow"], 1.0);
    var totalAgo := Derived.PyOr(d["totalStableAgo"], 1.0);
    var ethNow := Derived.PyOr(d["ethStableNow"], 0.0);
    var ethAgo := Derived.PyOr(d["ethStableAgo"], 0.0);
    var rwa := Derived.GetOr(d, "rwaShareEth", 0.0);
    if totalNow.Some? && totalAgo.Some? && ethNow.Some? && ethAgo.Some? && rwa.Some? then
      Some((totalNow.value, totalAgo.value, ethNow.value, ethAgo.value, rwa.value))
    else None
  }

  /**
   * The stablecoin-share update, made only when all four stablecoin amounts are present:
   * it writes rsdScore (in [0, 10]) and mappingRatioDown (the ETH share fell) and their
   * source labels, and raises when an amount is not a number.
   */
  function WithStable(st: State): (r: Outcome<State>)
    ensures !StableInputs(st.data) ==> r == Ok(st)
    ensures StableInputs(st.data) ==> (r.Raised? <==> StableRead(st.data).None?)
    ensures StableInputs(st.data) && r.Ok? ==>
      var x := StableRead(st.data).value;
      var s := Derived.StableScores(x.0, x.1, x.2, x.3, x.4);
      r.value.data == st.data["rsdScore" := Num(s.0)]["mappingRatioDown" := Bool(s.1)]
      && 0.0 <= s.0 <= 10.0
      && (s.1 <==> Derived.Share(x.2, x.0) < Derived.Share(x.3, x.1))
      && r.value.sources.Keys == st.sources.Keys + {"rsdScore", "mappingRatioDown"}
  {
    var d := st.data;
    if StableInputs(d) then
      match StableRead(d)
      case Some(x) =>
        var s := Derived.StableScores(x.0, x.1, x.2, x.3, x.4);
        Ok(State(d["rsdScore" := Num(s.0)]["mappingRatioDown" := Bool(s.1)],
                 st.sources["rsdScore" := "Derived: stablecoin share + RWA share (DefiLlama)"]
                           ["mappingRatioDown" := "Derived: ETH stablecoin share 30d"]))
      case None => Raised("unsupported operand type")
    else Ok(st)
  }

  /** The two fee totals the fee update divides, read with `or 0`; None when one is not a number. */
  function FeeRead(d: Record): Option<(real, real)>
    requires "fee7d" in d && "fee30d" in d
  {
    var fee7d := Derived.PyOr(d["fee7d"], 0.0);
    var fee30d := Derived.PyOr(d["fee30d"], 0.0);
    if fee7d.Some? && fee30d.Some? then Some((fee7d.value, fee30d.value)) else None
  }

  /**
   * The fee update, made only when both fee totals are present: it writes lstcScore (in
   * [0, 10]) and netIssuanceHigh (the week's fees below 60% of an average week) and their
   * source labels, and raises when a total is not a number.
   */
  function WithFees(st: State): (r: Outcome<State>)
    ensures !("fee7d" in st.data && "fee30d" in st.data) ==> r == Ok(st)
    ensures "fee7d" in st.data && "fee30d" in st.data ==> (r.Raised? <==> FeeRead(st.data).None?)
    ensures "fee7d" in st.data && "fee30d" in st.data && r.Ok? ==>
      var x := FeeRead(st.data).value;
      var f := Derived.FeeScores(x.0, x.1);
      r.value.data == st.data["lstcScore" := Num(f.0)]["netIssuanceHigh" := Bool(f.1)]
      && 0.0 <= f.0 <= 10.0
      && (f.1 <==> x.0 < 0.6 * (x.1 / 4.0))
      && r.value.sources.Keys == st.sources.Keys + {"lstcScore", "netIssuanceHigh"}
  {
    var d := st.data;
    if "fee7d" in d && "fee30d" in d then
      match FeeRead(d)
      case Some(x) =>
        var f := Derived.FeeScores(x.0, x.1);
        Ok(State(d["lstcScore" := Num(f.0)]["netIssuanceHigh" := Bool(f.1)],
                 st.sources["lstcScore" := "Derived: ETH fees (DefiLlama)"]
                           ["netIssuanceHigh" := "Derived: low fees imply high net issuance"]))
      case None => Raised("unsupported operand type")
    else Ok(st)
  }

  /** The four updates in the order main makes them; the first exception propagates. */
  function Enriched(st: State, sqrt: real -> real): Outcome<State>
  {
    match WithTridomain(st, sqrt)
    case Raised(m) => Raised(m)
    case Ok(s1) =>
      match WithPotentials(s1)
      case Raised(m) => Raised(m)
      case Ok(s2) =>
        match WithStable(s2)
        case Raised(m) => Raised(m)
        case Ok(s3) => WithFees(s3)
  }

  /** The updates of main, with compute_tridomain's loop run as a method. */
  method Enrich(st: State, sqrt: real -> real) returns (r: Outcome<State>)
    ensures r == Enriched(st, sqrt)
  {
    var closes := CloseSeries(st.data);
    if closes.None? {
      return Raised("unsupported operand type");
    }
    var series := closes.value;
    if |series| >= 10 && series[|series| - 1] != 0.0 && series[7] == 0.0 {
      Derived.WeekZeroRaises(series, sqrt);
      return Raised("float division by zero");
    }
    var t := Derived.ComputeTridomain(series, sqrt);
    var s1 := if t.Some? then State(st.data + TriData(t.value), st.sources + TriSources) else st;
    assert WithTridomain(st, sqrt) == Ok(s1);
    var s2 := WithPotentials(s1);
    if s2.Raised? {
      return s2;
    }
    var s3 := WithStable(s2.value);
    if s3.Raised? {
      return s3;
    }
    r := WithFees(s3.value);
  }

  // ---- the missing list and the final payload (scripts/collector.py:951-973)

  const RequiredFields: seq<string> := [
    "dxy5d", "dxy3dUp", "us2yWeekBp", "fciUpWeeks", "etf10d", "etf5d", "etf1d", "prevEtfExtremeOutflow",
    "stablecoin30d", "exchStableDelta", "policyWindow", "preMeeting2y", "current2y", "preMeetingDxy",
    "currentDxy", "crowdingIndex", "liquidationUsd", "longWicks", "reverseFishing", "shortFailure",
    "exchBalanceTrend", "floatDensity", "mcapElasticity", "mcapGrowth", "volumeConfirm", "rsdScore",
    "lstcScore", "mappingRatioDown", "netIssuanceHigh", "cognitivePotential", "liquidityPotential",
    "onchainReflexivity", "sentimentThreshold", "topo", "spectral", "roughPath", "deltaES",
    "trendMomentum", "divergence", "distributionGateCount", "rrpChange", "tgaChange", "srfChange", "ism"]

  /** The intermediate keys main pops before writing the payload. */
  const HelperKeys: set<string> := {
    "_closeSeries", "_volumeSeries", "totalStableNow", "totalStableAgo", "ethStableNow", "ethStableAgo",
    "rwaShareEth", "fee7d", "fee30d", "fearGreed"}

  /** No helper key is a required field. */
  lemma HelperNotRequired(k: string)
    requires k in HelperKeys
    ensures k !in RequiredFields
  {
    if k == "_closeSeries" || k == "_volumeSeries" {
      PairNotRequired1(k);
    } else if k == "totalStableNow" || k == "totalStableAgo" {
      PairNotRequired2(k);
    } else if k == "ethStableNow" || k == "ethStableAgo" {
      PairNotRequired3(k);
    } else if k == "rwaShareEth" || k == "fee7d" {
      PairNotRequired4(k);
    } else {
      PairNotRequired5(k);
    }
  }

  lemma PairNotRequired1(k: string)
    requires k == "_closeSeries" || k == "_volumeSeries"
    ensures k !in RequiredFields
  {
  }

  lemma PairNotRequired2(k: string)
    requires k == "totalStableNow" || k == "totalStableAgo"
    ensures k !in RequiredFields
  {
  }

  lemma PairNotRequired3(k: string)
    requires k == "ethStableNow" || k == "ethStableAgo"
    ensures k !in RequiredFields
  {
  }

  lemma PairNotRequired4(k: string)
    requires k == "rwaShareEth" || k == "fee7d"
    ensures k !in RequiredFields
  {
  }

  lemma PairNotRequired5(k: string)
    requires k == "fee30d" || k == "fearGreed"
    ensures k !in RequiredFields
  {
  }

  /** The loop of main that lists the required fields still absent (run on RequiredFields). */
  method MissingFields(keys: seq<string>, data: Record) returns (missing: seq<string>)
    ensures missing == NullishKeys(keys, data)
  {
    missing := [];
    var i := 0;
    while i < |keys|
      invariant 0 <= i <= |keys|
      invariant missing == NullishKeys(keys[..i], data)
    {
      assert keys[..i + 1][..i] == keys[..i];
      var key := keys[i];
      if key !in data || data[key] == Null {
        missing := missing + [key];
      }
      i := i + 1;
    }
    assert keys[..i] == keys;
  }

  /** The payload written to src/data/auto.json, without generatedAt and proxyTrace. */
  datatype Payload = Payload(data: Record, sources: map<string, string>, missing: seq<string>, errors: seq<string>)

  /** The final payload from the derived state and the notes of the safe calls. */
  function PayloadOf(st: State, errors: seq<string>): Payload
  {
    Payload(StripNone(st.data - HelperKeys), st.sources, SortedSet(NullishKeys(RequiredFields, st.data)), errors)
  }

  /**
   * main: fetch_macro's exception propagates (it is not wrapped in safe_call); the
   * other fetchers are wrapped; the merged missing lists are discarded and the missing
   * list is recomputed from the required fields.
   */
  function SnapshotOf(macro: Outcome<Block>, results: seq<Outcome<Block>>, sqrt: real -> real): Outcome<Payload>
    requires |results| == |Calls|
  {
    if macro.Raised? then Raised(macro.message)
    else
      var blocks := CallBlocks(results);
      var merged := Merged([macro.value] + blocks);
      match Enriched(State(merged.data, merged.sources), sqrt)
      case Raised(m) => Raised(m)
      case Ok(st) => Ok(PayloadOf(st, AllErrors(blocks)))
  }

  method CollectSnapshot(macro: Outcome<Block>, results: seq<Outcome<Block>>, sqrt: real -> real)
    returns (r: Outcome<Payload>)
    requires |results| == |Calls|
    ensures r == SnapshotOf(macro, results, sqrt)
  {
    if macro.Raised? {
      return Raised(macro.message);
    }
    var blocks, errors := GatherBlocks(results);
    var data, sources, _ := Merge([macro.value] + blocks);
    var st := Enrich(State(data, sources), sqrt);
    if st.Raised? {
      return Raised(st.message);
    }
    var missing := MissingFields(RequiredFields, st.value.data);
    var final := StripNone(st.value.data - HelperKeys);
    r := Ok(Payload(final, st.value.sources, SortedSet(missing), errors));
  }

  /**
   * The payload's missing list is sorted and free of repeats, and a required field is
   * in it exactly when the payload's data lacks it; the data holds no None and no
   * helper key.
   */
  lemma PayloadShape(st: State, errors: seq<string>)
    ensures var p := PayloadOf(st, errors);
      StrictlySorted(p.missing) && Distinct(p.missing)
      && (forall k :: k in RequiredFields ==> (k in p.missing <==> k !in p.data))
      && (forall k :: k in p.missing ==> k in RequiredFields)
      && (forall k :: k in p.data ==> p.data[k] != Null)
      && (forall k :: k in HelperKeys ==> k !in p.data)
  {
    var p := PayloadOf(st, errors);
    StrictlySortedDistinct(p.missing);
    forall k | k in RequiredFields
      ensures k in p.missing <==> k !in p.data
    {
      if k in HelperKeys {
        HelperNotRequired(k);
      }
    }
  }

  /** Each note in the payload carries the name of the fetcher it came from. */
  lemma NotesNamed(results: seq<Outcome<Block>>, e: string)
    requires |results| == |Calls|
    requires e in AllErrors(CallBlocks(results))
    ensures exists i :: 0 <= i < |Calls| && StartsWith(e, Calls[i].0 + ": ")
  {
    var bs := CallBlocks(results);
    AllErrorsFrom(bs, e);
    var i :| 0 <= i < |bs| && e in bs[i].errors;
    var n := Calls[i].0;
    if results[i].Raised? {
      assert e == n + ": " + results[i].message;
      assert (n + ": " + results[i].message)[..|n + ": "|] == n + ": ";
    } else {
      var notes := results[i].value.errors;
      var j :| 0 <= j < |notes| && e == n + ": " + notes[j];
      assert (n + ": " + notes[j])[..|n + ": "|] == n + ": ";
    }
  }

  /** A fetcher that raised leaves its "name: message" note in the error list. */
  lemma FailureNoted(results: seq<Outcome<Block>>, i: nat)
    requires |results| == |Calls| && i < |Calls| && results[i].Raised?
    ensures Calls[i].0 + ": " + results[i].message in AllErrors(CallBlocks(results))
  {
    AllErrorsIn(CallBlocks(results), i, Calls[i].0 + ": " + results[i].message);
  }

  // ---- mergeData (src/data/adapters.js:244-254)

  /**
   * mergeData: data and sources merged with later blocks winning; missing is the
   * union of the blocks' missing keys in first-seen order, as a Set keeps them.
   */
  method MergeData(blocks: seq<Block>) returns (data: Record, sources: map<string, string>, missing: seq<string>)
    ensures data == Merged(blocks).data && sources == Merged(blocks).sources
    ensures missing == Dedup(Merged(blocks).missing)
  {
    data, sources, missing := map[], map[], [];
    var i := 0;
    while i < |blocks|
      invariant 0 <= i <= |blocks|
      invariant data == Merged(blocks[..i]).data && sources == Merged(blocks[..i]).sources
      invariant missing == Dedup(Merged(blocks[..i]).missing)
    {
      assert blocks[..i + 1][..i] == blocks[..i];
      data := data + blocks[i].data;
      sources := sources + blocks[i].sources;
      missing := AddToSet(missing, Merged(blocks[..i]).missing, blocks[i].missing);
      i := i + 1;
    }
    assert blocks[..i] == blocks;
  }

  /** `items.forEach((item) => missing.add(item))` on the Set of the keys seen so far. */
  method AddToSet(missing: seq<string>, seen: seq<string>, items: seq<string>) returns (r: seq<string>)
    requires missing == Dedup(seen)
    ensures r == Dedup(seen + items)
  {
    r := missing;
    var j := 0;
    assert seen + items[..0] == seen;
    while j < |items|
      invariant 0 <= j <= |items|
      invariant r == Dedup(seen + items[..j])
    {
      DedupSnoc(seen + items[..j], items[j]);
      assert seen + items[..j + 1] == (seen + items[..j]) + [items[j]];
      if items[j] !in r {
        r := r + [items[j]];
      }
      j := j + 1;
    }
    assert items[..j] == items;
  }

  /** The merged missing list holds each key once, and exactly the keys some block declared missing. */
  lemma MergedMissingIsUnion(blocks: seq<Block>, k: string)
    ensures Distinct(Dedup(Merged(blocks).missing))
    ensures k in Dedup(Merged(blocks).missing) <==> k in Merged(blocks).missing
  {
  }
}
