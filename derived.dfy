// The derived scores of the snapshot collector: the price-structure triple of
// compute_tridomain (scripts/collector.py:776-798), the four potentials of
// compute_potentials (scripts/collector.py:801-825) and the stablecoin-share and
// fee scores computed inside main (scripts/collector.py:908-949). Python floats
// are reals; `math.sqrt` is a parameter.

module Derived {
  import opened Values
  import opened Text
  import Utils

  /** `clamp(value)` with its default bounds 0 and 1 (scripts/collector.py:772-773). */
  function Unit(x: real): (r: real)
    ensures 0.0 <= r <= 1.0
    ensures 0.0 <= x <= 1.0 ==> r == x
    ensures x <= 0.0 ==> r == 0.0
    ensures x >= 1.0 ==> r == 1.0
  {
    Utils.Clamp(x, 0.0, 1.0)
  }

  // ---- compute_tridomain

  /** The return of step `i` (close `i` against the close after it), skipped when that close is zero. */
  function StepReturn(closes: seq<real>, i: nat): seq<real>
    requires i + 1 < |closes|
  {
    if closes[i + 1] == 0.0 then [] else [(closes[i] - closes[i + 1]) / closes[i + 1]]
  }

  /** The returns of the first `n` steps, in step order. */
  function ReturnsUpTo(closes: seq<real>, n: nat): (r: seq<real>)
    requires n < |closes|
    ensures |r| <= n
  {
    if n == 0 then [] else ReturnsUpTo(closes, n - 1) + StepReturn(closes, n - 1)
  }

  function Returns(closes: seq<real>): seq<real>
  {
    if closes == [] then [] else ReturnsUpTo(closes, |closes| - 1)
  }

  /** No step has a return exactly when every close after the first is zero. */
  lemma {:induction false} ReturnsUpToEmpty(closes: seq<real>, n: nat)
    requires n < |closes|
    ensures ReturnsUpTo(closes, n) == [] <==> forall j :: 1 <= j <= n ==> closes[j] == 0.0
  {
    if n > 0 {
      ReturnsUpToEmpty(closes, n - 1);
    }
  }

  lemma ReturnsEmpty(closes: seq<real>)
    requires closes != []
    ensures Returns(closes) == [] <==> forall j :: 1 <= j < |closes| ==> closes[j] == 0.0
  {
    ReturnsUpToEmpty(closes, |closes| - 1);
  }

  predicate SortedReals(s: seq<real>)
  {
    forall i, j :: 0 <= i < j < |s| ==> s[i] <= s[j]
  }

  function InsertReal(x: real, s: seq<real>): (r: seq<real>)
    requires SortedReals(s)
    ensures SortedReals(r) && multiset(r) == multiset(s) + multiset{x}
    ensures |r| == |s| + 1
  {
    if s == [] || x <= s[0] then [x] + s
    else
      var rest := InsertReal(x, s[1..]);
      InsertRealBehindHead(x, s, rest);
      [s[0]] + rest
  }

  /** Behind a head not above `x`, the insertion into the tail stays sorted. */
  lemma InsertRealBehindHead(x: real, s: seq<real>, rest: seq<real>)
    requires s != [] && SortedReals(s) && s[0] < x
    requires SortedReals(rest) && multiset(rest) == multiset(s[1..]) + multiset{x}
    ensures SortedReals([s[0]] + rest) && multiset([s[0]] + rest) == multiset(s) + multiset{x}
  {
    forall k | 0 <= k < |rest|
      ensures s[0] <= rest[k]
    {
      assert rest[k] in multiset(rest);
      assert rest[k] == x || rest[k] in s[1..];
      assert forall i :: 0 <= i < |s| - 1 ==> s[1..][i] == s[i + 1];
    }
    var r := [s[0]] + rest;
    assert forall i :: 1 <= i < |r| ==> r[i] == rest[i - 1];
    HeadTail(s);
  }

  /** Python's `sorted` on a list of floats (NaN is not modelled). */
  function SortReals(s: seq<real>): (r: seq<real>)
    ensures SortedReals(r) && multiset(r) == multiset(s)
    ensures |r| == |s|
  {
    if s == [] then []
    else
      assert s == [s[0]] + s[1..];
      InsertReal(s[0], SortReals(s[1..]))
  }

  /** The `k` worst returns are no larger than any return left out of the tail window. */
  lemma WorstAreSmallest(rets: seq<real>, k: nat)
    requires k <= |rets|
    ensures var sorted := SortReals(rets);
      multiset(sorted) == multiset(rets)
      && forall i, j :: 0 <= i < k <= j < |sorted| ==> sorted[i] <= sorted[j]
  {
  }

  /** `max(1, int(len(returns) * 0.1))`; for a count, the float product truncates to `n / 10`. */
  function WorstCount(n: nat): (k: nat)
    ensures 1 <= k && (n >= 1 ==> k <= n)
  {
    if n / 10 >= 1 then n / 10 else 1
  }

  function Squares(rets: seq<real>, avg: real): (r: seq<real>)
    ensures |r| == |rets|
  {
    if rets == [] then [] else [(rets[0] - avg) * (rets[0] - avg)] + Squares(rets[1..], avg)
  }

  datatype Tridomain = Tridomain(topo: real, spectral: real, roughPath: real, deltaES: real)

  /** The four scores from the 30-day and 7-day returns and the list of step returns. */
  function Scores(r30: real, r7: real, rets: seq<real>, sqrt: real -> real): (t: Tridomain)
    requires rets != []
    ensures 0.0 <= t.topo <= 1.0 && 0.0 <= t.spectral <= 1.0 && 0.0 <= t.deltaES <= 1.0
    ensures t.roughPath == 1.0 - t.deltaES
  {
    var avg := SumReals(rets) / |rets| as real;
    var variance := SumReals(Squares(rets, avg)) / MaxInt(|rets| - 1, 1) as real;
    var vol := sqrt(variance);
    var calm := Unit(Abs(r30) / 0.2);
    var rough := Unit(vol / 0.1);
    Utils.UnitProduct(calm, 1.0 - rough);
    var spectral := Unit(Abs(r7) / (Abs(r30) + 0.000001));
    var worst := SortReals(rets)[..WorstCount(|rets|)];
    var es := Abs(SumReals(worst) / |worst| as real);
    var deltaES := Unit(es / 0.1);
    Tridomain(calm * (1.0 - rough), spectral, Unit(1.0 - deltaES), deltaES)
  }

  /** The close seven steps back; with at least ten closes `min(7, len - 1)` is 7. */
  function WeekClose(closes: seq<real>): real
    requires |closes| >= 10
  {
    closes[7]
  }

  function Return30(closes: seq<real>): real
    requires |closes| >= 10
  {
    var last := closes[|closes| - 1];
    if last != 0.0 then closes[0] / last - 1.0 else 0.0
  }

  /**
   * compute_tridomain as written: the 7-day return is guarded by the LAST close but
   * divides by the close seven steps back, so a zero there raises ZeroDivisionError.
   */
  function TridomainAsWritten(closes: seq<real>, sqrt: real -> real): (r: Outcome<Option<Tridomain>>)
    ensures r.Raised? <==> |closes| >= 10 && Returns(closes) != [] && closes[|closes| - 1] != 0.0 && closes[7] == 0.0
  {
    if |closes| < 10 || Returns(closes) == [] then Ok(None)
    else if closes[|closes| - 1] != 0.0 && WeekClose(closes) == 0.0 then Raised("float division by zero")
    else
      var r7 := if closes[|closes| - 1] != 0.0 then closes[0] / WeekClose(closes) - 1.0 else 0.0;
      Ok(Some(Scores(Return30(closes), r7, Returns(closes), sqrt)))
  }

  /** A series whose last close is non-zero but whose close seven steps back is zero makes the source raise. */
  lemma WeekZeroRaises(closes: seq<real>, sqrt: real -> real)
    requires |closes| >= 10 && closes[|closes| - 1] != 0.0 && closes[7] == 0.0
    ensures TridomainAsWritten(closes, sqrt).Raised?
  {
    ReturnsEmpty(closes);
  }

  /** compute_tridomain with the 7-day return also guarded by its own divisor. */
  function TridomainOf(closes: seq<real>, sqrt: real -> real): (r: Option<Tridomain>)
  {
    if |closes| < 10 || Returns(closes) == [] then None
    else
      var week := WeekClose(closes);
      var r7 := if closes[|closes| - 1] != 0.0 && week != 0.0 then closes[0] / week - 1.0 else 0.0;
      Some(Scores(Return30(closes), r7, Returns(closes), sqrt))
  }

  /** Wherever the source does not raise, it agrees with the corrected definition. */
  lemma AsWrittenAgrees(closes: seq<real>, sqrt: real -> real)
    requires TridomainAsWritten(closes, sqrt).Ok?
    ensures TridomainAsWritten(closes, sqrt) == Ok(TridomainOf(closes, sqrt))
  {
  }

  /**
   * compute_tridomain: empty for fewer than ten closes or when every close after the
   * first is zero; otherwise four scores in [0, 1] with roughPath = 1 - deltaES.
   */
  method ComputeTridomain(closes: seq<real>, sqrt: real -> real) returns (r: Option<Tridomain>)
    ensures r == TridomainOf(closes, sqrt)
    ensures r.None? <==> |closes| < 10 || forall j :: 1 <= j < |closes| ==> closes[j] == 0.0
    ensures r.Some? ==>
      0.0 <= r.value.topo <= 1.0 && 0.0 <= r.value.spectral <= 1.0
      && 0.0 <= r.value.deltaES <= 1.0 && r.value.roughPath == 1.0 - r.value.deltaES
  {
    if |closes| < 10 {
      return None;
    }
    var rets := StepReturns(closes);
    ReturnsEmpty(closes);
    if rets == [] {
      return None;
    }
    var week := closes[7];
    var r7 := if closes[|closes| - 1] != 0.0 && week != 0.0 then closes[0] / week - 1.0 else 0.0;
    r := Some(Scores(Return30(closes), r7, rets, sqrt));
  }

  /** The loop of compute_tridomain over consecutive closes: each step with a non-zero earlier close gives a return. */
  method StepReturns(closes: seq<real>) returns (rets: seq<real>)
    requires closes != []
    ensures rets == Returns(closes)
  {
    rets := [];
    var i := 0;
    while i < |closes| - 1
      invariant 0 <= i <= |closes| - 1
      invariant rets == ReturnsUpTo(closes, i)
    {
      var prev := closes[i + 1];
      if prev != 0.0 {
        rets := rets + [(closes[i] - prev) / prev];
      }
      i := i + 1;
    }
  }

  // ---- compute_potentials

  /**
   * `value or d` where arithmetic follows: falsy values (None, 0, False, empty string or
   * container) give `d`; True counts as 1; a non-empty string or container is None,
   * since Python's arithmetic on it raises TypeError.
   */
  function PyOr(v: Value, d: real): (r: Option<real>)
    ensures v.Null? ==> r == Some(d)
    ensures v.Num? ==> r == Some(if v.n == 0.0 then d else v.n)
    ensures v.Bool? ==> r == Some(if v.b then 1.0 else d)
    ensures d != 0.0 && r.Some? ==> r.value != 0.0
  {
    match v
    case Num(n) => Some(if n == 0.0 then d else n)
    case Bool(b) => Some(if b then 1.0 else d)
    case Null => Some(d)
    case Str(s) => if s == "" then Some(d) else None
    case Obj(f) => if f == map[] then Some(d) else None
    case Arr(a) => if a == [] then Some(d) else None
  }

  /** The value under `key` when it is truthy, the default otherwise. */
  function GetOr(data: Record, key: string, d: real): (r: Option<real>)
    ensures key !in data ==> r == Some(d)
  {
    if key in data then PyOr(data[key], d) else Some(d)
  }

  /** `float(v)` for a value that is divided: a number, or a boolean as 0 or 1. */
  function PyNumber(v: Value): Option<real>
  {
    match v
    case Num(n) => Some(n)
    case Bool(b) => Some(if b then 1.0 else 0.0)
    case _ => None
  }

  datatype Potentials = Potentials(cognitive: real, liquidity: real, reflexivity: real, threshold: Option<real>)

  const PotentialKeys := ["trendMomentum", "divergence", "stablecoin30d", "etf10d", "rrpChange", "mcapElasticity"]

  /** Every input compute_potentials reads arithmetically is one Python can compute with. */
  predicate PotentialInputsNumeric(data: Record)
  {
    (forall k :: k in PotentialKeys ==> GetOr(data, k, 0.0).Some?)
    && GetOr(data, "floatDensity", 1.0).Some?
    && ("fearGreed" in data ==> PyNumber(data["fearGreed"]).Some?)
  }

  /** The sentiment threshold for a Fear & Greed reading. */
  function Threshold(fearGreed: real): (t: real)
    ensures 0.3 <= t <= 0.8
  {
    Utils.Clamp(0.4 + fearGreed / 250.0, 0.3, 0.8)
  }

  lemma ThresholdMonotone(a: real, b: real)
    requires a <= b
    ensures Threshold(a) <= Threshold(b)
  {
    Utils.ClampMonotone(0.4 + a / 250.0, 0.4 + b / 250.0, 0.3, 0.8);
  }

  /** The three potentials from the numbers read (defaults already applied). */
  function PotentialScores(trend: real, divergence: real, stable30d: real, etf10d: real, rrpChange: real,
                           elasticity: real, floatDensity: real): (p: (real, real, real))
    ensures 0.0 <= p.0 <= 1.0 && 0.0 <= p.1 <= 1.0 && 0.0 <= p.2 <= 1.0
  {
    var cognitive := Unit(0.5 + trend * 1.2 - divergence * 2.0);
    var stableNorm := Utils.Clamp(stable30d / 10.0, -1.0, 1.0);
    var etfNorm := Utils.Clamp(etf10d / 500.0, -1.0, 1.0);
    var liquidity := Unit(0.5 + stableNorm * 0.2 + etfNorm * 0.2 - (if rrpChange > 0.0 then 0.1 else 0.0));
    var elasticityNorm := Utils.Clamp(elasticity / 50.0, 0.0, 2.0);
    var reflex := Unit(1.0 - elasticityNorm * 0.3 + (1.0 - floatDensity) * 0.2);
    (cognitive, liquidity, reflex)
  }

  /**
   * compute_potentials: raises exactly when an input it reads is not numeric; otherwise
   * three potentials in [0, 1] and a threshold in [0.3, 0.8] that is present exactly
   * when a Fear & Greed reading is.
   */
  function ComputePotentials(data: Record): (r: Outcome<Potentials>)
    ensures r.Raised? <==> !PotentialInputsNumeric(data)
    ensures r.Ok? ==>
      0.0 <= r.value.cognitive <= 1.0 && 0.0 <= r.value.liquidity <= 1.0
      && 0.0 <= r.value.reflexivity <= 1.0
    ensures r.Ok? ==> (r.value.threshold.Some? <==> "fearGreed" in data)
    ensures r.Ok? && r.value.threshold.Some? ==> 0.3 <= r.value.threshold.value <= 0.8
  {
    var trend := GetOr(data, "trendMomentum", 0.0);
    var divergence := GetOr(data, "divergence", 0.0);
    var stable := GetOr(data, "stablecoin30d", 0.0);
    var etf := GetOr(data, "etf10d", 0.0);
    var rrp := GetOr(data, "rrpChange", 0.0);
    var elasticity := GetOr(data, "mcapElasticity", 0.0);
    var density := GetOr(data, "floatDensity", 1.0);
    var fear := if "fearGreed" in data then PyNumber(data["fearGreed"]) else Some(0.0);
    if !(trend.Some? && divergence.Some? && stable.Some? && etf.Some? && rrp.Some? && elasticity.Some?
         && density.Some? && fear.Some?) then
      Raised("unsupported operand type")
    else
      var p := PotentialScores(trend.value, divergence.value, stable.value, etf.value, rrp.value,
                               elasticity.value, density.value);
      Ok(Potentials(p.0, p.1, p.2, if "fearGreed" in data then Some(Threshold(fear.value)) else None))
  }

  /** Two records compute_potentials reads alike. */
  predicate SameReads(a: Record, b: Record)
  {
    (forall k :: k in PotentialKeys ==> GetOr(a, k, 0.0) == GetOr(b, k, 0.0))
    && GetOr(a, "floatDensity", 1.0) == GetOr(b, "floatDensity", 1.0)
    && ("fearGreed" in a <==> "fearGreed" in b)
    && ("fearGreed" in a ==> a["fearGreed"] == b["fearGreed"])
  }

  lemma SameReadsSamePotentials(a: Record, b: Record)
    requires SameReads(a, b)
    ensures ComputePotentials(a) == ComputePotentials(b)
  {
    assert GetOr(a, "trendMomentum", 0.0) == GetOr(b, "trendMomentum", 0.0);
    assert GetOr(a, "divergence", 0.0) == GetOr(b, "divergence", 0.0);
    assert GetOr(a, "stablecoin30d", 0.0) == GetOr(b, "stablecoin30d", 0.0);
    assert GetOr(a, "etf10d", 0.0) == GetOr(b, "etf10d", 0.0);
    assert GetOr(a, "rrpChange", 0.0) == GetOr(b, "rrpChange", 0.0);
    assert GetOr(a, "mcapElasticity", 0.0) == GetOr(b, "mcapElasticity", 0.0);
  }

  /** Setting one read key to a value that reads as its default is the same as removing it. */
  lemma DefaultReadsAlike(data: Record, key: string, v: Value)
    requires key in PotentialKeys && PyOr(v, 0.0) == Some(0.0)
    ensures SameReads(data[key := v], data - {key})
  {
    forall k | k in PotentialKeys
      ensures GetOr(data[key := v], k, 0.0) == GetOr(data - {key}, k, 0.0)
    {
      if k != key {
        assert k in data[key := v] <==> k in data - {key};
      }
    }
    assert "floatDensity" != key && "fearGreed" != key;
  }

  /** An absent key, None and zero read the same. */
  lemma MissingMeansDefault(data: Record, key: string)
    requires key in PotentialKeys
    ensures ComputePotentials(data[key := Null]) == ComputePotentials(data - {key})
    ensures ComputePotentials(data[key := Num(0.0)]) == ComputePotentials(data - {key})
  {
    DefaultReadsAlike(data, key, Null);
    SameReadsSamePotentials(data[key := Null], data - {key});
    DefaultReadsAlike(data, key, Num(0.0));
    SameReadsSamePotentials(data[key := Num(0.0)], data - {key});
  }

  /** A zero float density reads as the default density 1. */
  lemma ZeroDensityReadsAsOne(data: Record)
    ensures ComputePotentials(data["floatDensity" := Num(0.0)]) == ComputePotentials(data["floatDensity" := Num(1.0)])
  {
    var a, b := data["floatDensity" := Num(0.0)], data["floatDensity" := Num(1.0)];
    forall k | k in PotentialKeys
      ensures GetOr(a, k, 0.0) == GetOr(b, k, 0.0)
    {
      assert k != "floatDensity";
    }
    SameReadsSamePotentials(a, b);
  }

  // ---- the stablecoin-share and fee scores of main

  /** A stablecoin share (ETH's over the total). */
  function Share(part: real, total: real): real
    requires total != 0.0
  {
    part / total
  }

  /**
   * rsdScore and mappingRatioDown from the stablecoin totals, the ETH amounts and the RWA
   * share; the totals are read with `or 1`, so they are never zero.
   */
  function StableScores(totalNow: real, totalAgo: real, ethNow: real, ethAgo: real, rwaShare: real): (r: (real, bool))
    requires totalNow != 0.0 && totalAgo != 0.0
    ensures 0.0 <= r.0 <= 10.0
    ensures r.1 <==> Share(ethNow, totalNow) < Share(ethAgo, totalAgo)
  {
    var shareNow := Share(ethNow, totalNow);
    var shareAgo := Share(ethAgo, totalAgo);
    (Utils.Clamp((shareNow + rwaShare) / 2.0 * 10.0, 0.0, 10.0), shareNow - shareAgo < 0.0)
  }

  /** With an unchanged positive total, the share falls exactly when the ETH amount falls. */
  lemma ShareFallsWithAmount(total: real, ethNow: real, ethAgo: real, rwaShare: real)
    requires total > 0.0
    ensures StableScores(total, total, ethNow, ethAgo, rwaShare).1 <==> ethNow < ethAgo
  {
    if ethNow < ethAgo {
      Utils.DivMonotone(ethNow, ethAgo, total);
      assert ethNow / total != ethAgo / total by {
        assert ethNow / total * total == ethNow;
        assert ethAgo / total * total == ethAgo;
      }
    } else {
      Utils.DivMonotone(ethAgo, ethNow, total);
    }
  }

  /**
   * lstcScore and netIssuanceHigh from the 7-day and 30-day fees: the score is the
   * week's fees over the average week, clamped and scaled to [0, 10]; issuance is
   * high exactly when the week is under 60% of the average week.
   */
  function FeeScores(fee7d: real, fee30d: real): (r: (real, bool))
    ensures 0.0 <= r.0 <= 10.0
    ensures r.1 <==> fee7d < 0.6 * (fee30d / 4.0)
  {
    var weekly := if fee30d != 0.0 then fee30d / 4.0 else 0.0;
    var ratio := if weekly != 0.0 then fee7d / weekly else 0.0;
    (Utils.Clamp(ratio, 0.0, 1.0) * 10.0, fee7d < (if weekly != 0.0 then weekly * 0.6 else 0.0))
  }

  /** A week at least as busy as the average week scores the full 10 and is not high issuance. */
  lemma BusyWeekScoresTen(fee7d: real, fee30d: real)
    requires fee30d > 0.0 && fee7d >= fee30d / 4.0
    ensures FeeScores(fee7d, fee30d) == (10.0, false)
  {
    Utils.DivAtLeastOne(fee7d, fee30d / 4.0);
  }
}
