// The text summaries the page and the notifier build from a run (src/ui/summary.js):
// the health line of the input, the action line of the output, the counterfactual
// gates, the gates touched by missing fields, and the evidence hints.

module Summary {
  import opened Values
  import opened Text
  import opened Order
  import opened Inputs
  import opened FieldMeta

  // ---------------------------------------------------------------- health

  /** One proxy attempt of the collector: the proxy's name and whether it answered. */
  datatype ProxyHop = ProxyHop(proxy: string, ok: bool)

  /**
   * What `buildHealthSummary` reads from the input: `__missing`, `__errors`, then
   * `__generatedAt` with the plain `generatedAt` behind it, and `__proxyTrace` with the
   * plain `proxyTrace` behind it. `None` is an absent list.
   */
  datatype HealthInput = HealthInput(
    missing: Option<seq<string>>, errors: Option<seq<string>>,
    generatedAt: Value, plainGeneratedAt: Value,
    proxyTrace: Option<seq<ProxyHop>>, plainProxyTrace: Option<seq<ProxyHop>>)

  datatype Health = Health(
    level: string, missingCount: nat, errorsCount: nat, missingList: seq<string>, errorsList: seq<string>,
    freshnessText: string, missingText: string, proxyText: string, aiText: Value)

  /** `list || []`: an array is truthy even when empty, so only an absent list falls back. */
  function ListOr<T>(a: Option<seq<T>>): seq<T>
  {
    if a.Some? then a.value else []
  }

  /** `a || b || []` over two optional lists. */
  function FirstList<T>(a: Option<seq<T>>, b: Option<seq<T>>): seq<T>
  {
    if a.Some? then a.value else ListOr(b)
  }

  /** The level: danger with errors, warn with missing fields only, ok otherwise. */
  function HealthLevel(errors: seq<string>, missing: seq<string>): (r: string)
    ensures r == "danger" <==> errors != []
    ensures r == "warn" <==> errors == [] && missing != []
    ensures r == "ok" <==> errors == [] && missing == []
  {
    if |errors| > 0 then "danger" else if |missing| > 0 then "warn" else "ok"
  }

  /** Every step of the trace succeeded. */
  function AllOk(trace: seq<ProxyHop>): (r: bool)
    ensures r <==> forall i :: 0 <= i < |trace| ==> trace[i].ok
  {
    if trace == [] then true else trace[0].ok && AllOk(trace[1..])
  }

  /** The proxy each step of the trace used, in order. */
  function Proxies(trace: seq<ProxyHop>): (r: seq<string>)
    ensures |r| == |trace|
    ensures forall i :: 0 <= i < |trace| ==> r[i] == trace[i].proxy
  {
    seq(|trace|, i requires 0 <= i < |trace| => trace[i].proxy)
  }

  /**
   * The proxy line: unknown without attempts; otherwise OK when every attempt answered
   * and WARN when one did not, followed by the proxies in the order they were tried.
   */
  function ProxyText(trace: seq<ProxyHop>): (r: string)
    ensures r == "未知" <==> trace == []
    ensures StartsWith(r, "OK (") <==> trace != [] && forall i :: 0 <= i < |trace| ==> trace[i].ok
    ensures StartsWith(r, "WARN (") <==> trace != [] && exists i :: 0 <= i < |trace| && !trace[i].ok
    ensures trace != [] ==> EndsWith(r, Join(Proxies(trace), "/") + ")")
  {
    if |trace| == 0 then "未知"
    else
      var tail := Join(Proxies(trace), "/") + ")";
      if AllOk(trace) then
        var r := "OK (" + tail;
        assert r[..4] == "OK (" && r[|r| - |tail|..] == tail;
        assert !StartsWith(r, "WARN (") by { assert |r| >= 6 ==> r[1] == 'K'; }
        r
      else
        var r := "WARN (" + tail;
        assert r[..6] == "WARN (" && r[|r| - |tail|..] == tail;
        assert r[0] == 'W';
        r
  }

  /**
   * `buildHealthSummary`: the level, both lists and their counts, the freshness line,
   * the count of missing fields, the proxy line and the AI status (not connected by
   * default). `stamp` stands for `formatTimestamp`, which prints in the host's local time.
   */
  function BuildHealthSummary(input: HealthInput, aiStatus: Value, stamp: Value -> string): (r: Health)
    ensures var missing := ListOr(input.missing); var errors := ListOr(input.errors);
      r.level == HealthLevel(errors, missing)
      && r.missingList == missing && r.errorsList == errors
      && r.missingCount == |missing| && r.errorsCount == |errors|
      && r.missingText == (if missing == [] then "无" else NatText(|missing|) + " 项")
      && r.proxyText == ProxyText(FirstList(input.proxyTrace, input.plainProxyTrace))
      && (r.freshnessText == "更新 未知" || StartsWith(r.freshnessText, "更新 "))
    ensures Truthy(aiStatus) ==> r.aiText == aiStatus
    ensures !Truthy(aiStatus) ==> r.aiText == Str("未连接")
    ensures var generatedAt := Or(input.generatedAt, input.plainGeneratedAt);
      r.freshnessText == if Truthy(generatedAt) then "更新 " + stamp(generatedAt) else "更新 未知"
  {
    var missing := ListOr(input.missing);
    var errors := ListOr(input.errors);
    var generatedAt := Or(input.generatedAt, input.plainGeneratedAt);
    var freshness := if Truthy(generatedAt) then "更新 " + stamp(generatedAt) else "更新 未知";
    assert StartsWith(freshness, "更新 ") by { assert freshness[..3] == "更新 "; }
    Health(HealthLevel(errors, missing), |missing|, |errors|, missing, errors, freshness,
           if |missing| > 0 then NatText(|missing|) + " 项" else "无",
           ProxyText(FirstList(input.proxyTrace, input.plainProxyTrace)), Or(aiStatus, Str("未连接")))
  }

  // ---------------------------------------------------------------- action

  /**
   * `formatShort`: a number with two decimals, a whole number without them; null and
   * undefined as "--"; any other value as its own string. `fixed` stands for `toFixed`,
   * `show` for JavaScript's string conversion.
   */
  function FormatShort(v: Value, fixed: (real, nat) -> string, show: Value -> string): (r: string)
    ensures v.Num? && EndsWith(fixed(v.n, 2), ".00") ==> fixed(v.n, 2) == r + ".00"
    ensures v.Num? && !EndsWith(fixed(v.n, 2), ".00") ==> r == fixed(v.n, 2)
    ensures v == Null ==> r == "--"
  {
    if v.Num? then
      var f := fixed(v.n, 2);
      if EndsWith(f, ".00") then
        assert f == f[..|f| - 3] + f[|f| - 3..];
        f[..|f| - 3]
      else f
    else if v == Null then "--"
    else show(v)
  }

  datatype ActionSummary = ActionSummary(action: string, detail: string, drivers: seq<Value>, blocks: Value)

  /** The state letter of the output, or `-` when it is missing or empty. */
  function StateText(state: Value, show: Value -> string): string
  {
    if Truthy(state) then show(state) else "-"
  }

  /**
   * `buildActionSummary`: the tier with β and its cap, the hedge flag with the
   * confidence, the texts of the top reasons in order, and the risk notes.
   */
  function BuildActionSummary(output: Record, fixed: (real, nat) -> string, show: Value -> string): (r: ActionSummary)
    ensures StartsWith(r.action, StateText(Lookup(output, "state"), show) + " / β ")
    ensures Contains(r.action, "β")
    ensures StartsWith(r.detail, "对冲 " + (if Truthy(Lookup(output, "hedge")) then "ON" else "OFF") + " · 置信度 ")
    ensures var reasons := Items(Lookup(output, "reasonsTop3"));
      |r.drivers| == |reasons| && forall i :: 0 <= i < |reasons| ==> r.drivers[i] == Prop(reasons[i], "text")
    ensures r.blocks == Or(Lookup(output, "riskNotes"), Arr([]))
  {
    var head := StateText(Lookup(output, "state"), show) + " / β ";
    var action := head + FormatShort(Lookup(output, "beta"), fixed, show)
                  + " / β_cap " + FormatShort(Lookup(output, "betaCap"), fixed, show);
    assert action[..|head|] == head;
    ContainsAt(action, "β", |head| - 2);
    var lead := "对冲 " + (if Truthy(Lookup(output, "hedge")) then "ON" else "OFF") + " · 置信度 ";
    var detail := lead + FormatShort(Lookup(output, "confidence"), fixed, show);
    assert detail[..|lead|] == lead;
    var reasons := Items(Lookup(output, "reasonsTop3"));
    ActionSummary(action, detail, seq(|reasons|, i requires 0 <= i < |reasons| => Prop(reasons[i], "text")),
                  Or(Lookup(output, "riskNotes"), Arr([])))
  }

  // ---------------------------------------------------------------- counterfactuals

  /** A gate worth a counterfactual: not the action gate, and closed or on warning. */
  predicate Counterfactual(gate: Value)
  {
    Prop(gate, "id") != Str("ACT") && (Prop(gate, "status") == Str("closed") || Prop(gate, "status") == Str("warn"))
  }

  function GateLine(gate: Value, show: Value -> string): string
  {
    show(Prop(gate, "id")) + " " + show(Prop(gate, "name")) + " · " + show(Prop(gate, "note"))
  }

  function GateLines(gates: seq<Value>, show: Value -> string): (r: seq<string>)
    ensures |r| == |gates|
    ensures forall i :: 0 <= i < |gates| ==> r[i] == GateLine(gates[i], show)
  {
    seq(|gates|, i requires 0 <= i < |gates| => GateLine(gates[i], show))
  }

  /** `buildCounterfactuals`: one line per kept gate, in the order of the gates. */
  function BuildCounterfactuals(output: Record, show: Value -> string): (r: seq<string>)
    ensures var kept := Filter(Items(Lookup(output, "gates")), Counterfactual);
      |r| == |kept| && Sub(kept, Items(Lookup(output, "gates")))
      && forall i :: 0 <= i < |kept| ==> r[i] == GateLine(kept[i], show) && Counterfactual(kept[i])
  {
    var gates := Items(Lookup(output, "gates"));
    FilterSub(gates, Counterfactual);
    GateLines(Filter(gates, Counterfactual), show)
  }

  /** Every gate that qualifies has its line, and every line is that of a qualifying gate. */
  lemma CounterfactualsExact(output: Record, show: Value -> string, gate: Value)
    ensures var gates := Items(Lookup(output, "gates"));
      gate in gates && Counterfactual(gate) ==> GateLine(gate, show) in BuildCounterfactuals(output, show)
    ensures forall line :: line in BuildCounterfactuals(output, show) ==>
      exists g :: g in Items(Lookup(output, "gates")) && Counterfactual(g) && line == GateLine(g, show)
  {
    var gates := Items(Lookup(output, "gates"));
    var kept := Filter(gates, Counterfactual);
    var r := BuildCounterfactuals(output, show);
    if gate in gates && Counterfactual(gate) {
      assert gate in kept;
      var i :| 0 <= i < |kept| && kept[i] == gate;
      assert r[i] == GateLine(gate, show);
    }
    forall line | line in r
      ensures exists g :: g in gates && Counterfactual(g) && line == GateLine(g, show)
    {
      var i :| 0 <= i < |r| && r[i] == line;
      assert kept[i] in kept;
    }
  }

  // ---------------------------------------------------------------- missing impact

  /** A JavaScript `Map` from gate to labels: its keys in insertion order and its entries. */
  datatype GateMap = GateMap(order: seq<string>, labels: map<string, seq<string>>)

  const NoGates := GateMap([], map[])

  ghost predicate GateMapOk(g: GateMap)
  {
    Distinct(g.order) && forall k :: k in g.labels <==> k in g.order
  }

  /** Every list of `g` is still a prefix of its list in `h`. */
  ghost predicate Grows(g: GateMap, h: GateMap)
  {
    forall x :: x in g.labels ==> x in h.labels && g.labels[x] <= h.labels[x]
  }

  /** Appends a label to its gate's list, opening the list on first use. */
  function AddLabel(g: GateMap, gate: string, caption: string): (r: GateMap)
    ensures GateMapOk(g) ==> GateMapOk(r)
    ensures Grows(g, r)
    ensures |r.order| >= |g.order| && r.order[..|g.order|] == g.order
  {
    if gate in g.labels then GateMap(g.order, g.labels[gate := g.labels[gate] + [caption]])
    else GateMap(g.order + [gate], g.labels[gate := [caption]])
  }

  /** The label is added under the gate, and under no other gate. */
  lemma AddLabelLabels(g: GateMap, gate: string, caption: string)
    ensures var r := AddLabel(g, gate, caption);
      gate in r.labels && caption in r.labels[gate]
      && forall x, l :: x in r.labels && l in r.labels[x] ==> (x in g.labels && l in g.labels[x]) || (x == gate && l == caption)
  {
  }

  /** The label added under each of `gates`, in order. */
  function AddGates(g: GateMap, gates: seq<string>, caption: string): (r: GateMap)
    ensures GateMapOk(g) ==> GateMapOk(r)
    ensures Grows(g, r)
    ensures |r.order| >= |g.order| && r.order[..|g.order|] == g.order
    ensures GateMapOk(g) && gates != [] ==> r.order != []
  {
    if gates == [] then g
    else
      var mid := AddGates(g, gates[..|gates| - 1], caption);
      var r := AddLabel(mid, gates[|gates| - 1], caption);
      assert r.order[..|g.order|] == mid.order[..|mid.order|][..|g.order|];
      assert GateMapOk(g) ==> GateMapOk(r);
      assert Grows(g, r) by {
        forall x | x in g.labels
          ensures x in r.labels && g.labels[x] <= r.labels[x]
        {
          assert g.labels[x] <= mid.labels[x] <= r.labels[x];
        }
      }
      r
  }

  /** After `AddGates` the label sits under every one of `gates`, and every new label is that one under one of them. */
  lemma {:induction false} AddGatesLabels(g: GateMap, gates: seq<string>, caption: string)
    ensures var r := AddGates(g, gates, caption);
      (forall j :: 0 <= j < |gates| ==> gates[j] in r.labels && caption in r.labels[gates[j]])
      && forall x, l :: x in r.labels && l in r.labels[x] ==> (x in g.labels && l in g.labels[x]) || (x in gates && l == caption)
  {
    if gates != [] {
      var front := gates[..|gates| - 1];
      AddGatesLabels(g, front, caption);
      var mid := AddGates(g, front, caption);
      AddLabelLabels(mid, gates[|gates| - 1], caption);
      assert Grows(mid, AddGates(g, gates, caption));
      assert forall j :: 0 <= j < |gates| - 1 ==> front[j] == gates[j];
      assert forall x :: x in front ==> x in gates;
    }
  }

  /** The field's display label, or its key when it has none. */
  function FieldLabel(key: string): string
    requires key in FieldTable
  {
    if FieldTable[key].caption != "" then FieldTable[key].caption else key
  }

  /** `meta.gate.split("/")` with each part trimmed. */
  function GateParts(key: string): (r: seq<string>)
    requires key in FieldTable
    ensures r != []
  {
    var parts := Split(FieldTable[key].gate, '/');
    seq(|parts|, i requires 0 <= i < |parts| => JsTrim(parts[i]))
  }

  /** The map `buildMissingImpact` fills from the missing keys, skipping unknown ones. */
  function GroupMissing(missing: seq<string>): (r: GateMap)
    ensures GateMapOk(r)
  {
    if missing == [] then NoGates
    else
      var g := GroupMissing(missing[..|missing| - 1]);
      var key := missing[|missing| - 1];
      if key in FieldTable then AddGates(g, GateParts(key), FieldLabel(key)) else g
  }

  const NothingMissing := "无缺失字段"

  function UnknownLines(missing: seq<string>): (r: seq<string>)
    ensures |r| == |missing|
    ensures forall i :: 0 <= i < |missing| ==> r[i] == "未识别字段：" + missing[i]
  {
    seq(|missing|, i requires 0 <= i < |missing| => "未识别字段：" + missing[i])
  }

  function ImpactLines(g: GateMap): (r: seq<string>)
    requires GateMapOk(g)
    ensures |r| == |g.order|
    ensures forall i :: 0 <= i < |g.order| ==> r[i] == g.order[i] + " 受影响：" + Join(g.labels[g.order[i]], "、")
  {
    seq(|g.order|, i requires 0 <= i < |g.order| => g.order[i] + " 受影响：" + Join(g.labels[g.order[i]], "、"))
  }

  /**
   * `buildMissingImpact`: one line when nothing is missing; one line per affected gate
   * in the order the gates were first met; one line per missing key when none is known.
   */
  function MissingImpact(missing: seq<string>): (r: seq<string>)
    ensures r != []
    ensures missing == [] ==> r == [NothingMissing]
    ensures missing != [] && GroupMissing(missing).order == [] ==> r == UnknownLines(missing)
    ensures missing != [] && GroupMissing(missing).order != [] ==> r == ImpactLines(GroupMissing(missing))
  {
    if |missing| == 0 then [NothingMissing]
    else
      var g := GroupMissing(missing);
      if |g.order| == 0 then UnknownLines(missing) else ImpactLines(g)
  }

  /** `buildMissingImpact` as the page runs it: the loops fill the map, then it is printed. */
  method BuildMissingImpact(missing: seq<string>) returns (lines: seq<string>)
    ensures lines == MissingImpact(missing)
  {
    if |missing| == 0 {
      return [NothingMissing];
    }
    var byGate := NoGates;
    for i := 0 to |missing|
      invariant byGate == GroupMissing(missing[..i])
    {
      var key := missing[i];
      GroupMissingStep(missing, i);
      if key in FieldTable {
        byGate := PushCaption(byGate, GateParts(key), FieldLabel(key));
      }
    }
    assert missing[..|missing|] == missing;
    if |byGate.order| == 0 {
      lines := UnknownLines(missing);
    } else {
      lines := ImpactLines(byGate);
    }
  }

  /** The inner loop: the caption joins the list of each of its gates, a new gate going last. */
  method PushCaption(start: GateMap, gates: seq<string>, caption: string) returns (byGate: GateMap)
    ensures byGate == AddGates(start, gates, caption)
  {
    byGate := start;
    for j := 0 to |gates|
      invariant byGate == AddGates(start, gates[..j], caption)
    {
      assert gates[..j + 1][..j] == gates[..j];
      var gate := gates[j];
      if gate in byGate.labels {
        byGate := GateMap(byGate.order, byGate.labels[gate := byGate.labels[gate] + [caption]]);
      } else {
        byGate := GateMap(byGate.order + [gate], byGate.labels[gate := [caption]]);
      }
    }
    assert gates[..|gates|] == gates;
  }

  /** One more missing key adds its caption under its gates when the table knows it. */
  lemma GroupMissingStep(missing: seq<string>, i: nat)
    requires i < |missing|
    ensures GroupMissing(missing[..i + 1]) == if missing[i] in FieldTable
      then AddGates(GroupMissing(missing[..i]), GateParts(missing[i]), FieldLabel(missing[i]))
      else GroupMissing(missing[..i])
  {
    assert missing[..i + 1][..i] == missing[..i];
  }

  /** The parts of every known missing key, one key after the other. */
  function KnownParts(missing: seq<string>): seq<string>
  {
    if missing == [] then []
    else
      var front := KnownParts(missing[..|missing| - 1]);
      var key := missing[|missing| - 1];
      if key in FieldTable then front + GateParts(key) else front
  }

  /** Adding labels under `gates` lists the gates not seen before in first-seen order. */
  lemma {:induction false} AddGatesOrder(g: GateMap, s: seq<string>, gates: seq<string>, caption: string)
    requires GateMapOk(g) && g.order == Dedup(s)
    ensures AddGates(g, gates, caption).order == Dedup(s + gates)
  {
    if gates == [] {
      assert s + gates == s;
    } else {
      var front := gates[..|gates| - 1];
      var x := gates[|gates| - 1];
      AddGatesOrder(g, s, front, caption);
      var mid := AddGates(g, front, caption);
      var t := s + gates;
      assert gates == front + [x];
      assert t == (s + front) + [x];
      DedupSnoc(s + front, x);
      assert AddGates(g, gates, caption) == AddLabel(mid, x, caption);
      assert x in mid.labels <==> x in mid.order;
    }
  }

  /** The gates are listed in the order they are first met over the known missing keys. */
  lemma {:induction false} GroupOrder(missing: seq<string>)
    ensures GroupMissing(missing).order == Dedup(KnownParts(missing))
  {
    if missing != [] {
      var front := missing[..|missing| - 1];
      GroupOrder(front);
      var key := missing[|missing| - 1];
      if key in FieldTable {
        AddGatesOrder(GroupMissing(front), KnownParts(front), GateParts(key), FieldLabel(key));
      }
    }
  }

  /** No gate is listed exactly when no missing key is a known field. */
  lemma {:induction false} GroupEmptyIff(missing: seq<string>)
    ensures GroupMissing(missing).order == [] <==> forall k :: k in missing ==> k !in FieldTable
  {
    if missing != [] {
      var front := missing[..|missing| - 1];
      GroupEmptyIff(front);
      assert forall k :: k in missing <==> k in front || k == missing[|missing| - 1];
    }
  }

  /** Each label under a gate is that of a missing key known as a field whose gate list holds that gate. */
  lemma {:induction false} GroupLabelsSound(missing: seq<string>, gate: string, caption: string)
    requires var g := GroupMissing(missing); gate in g.labels && caption in g.labels[gate]
    ensures exists k :: k in missing && k in FieldTable && gate in GateParts(k) && caption == FieldLabel(k)
  {
    var front := missing[..|missing| - 1];
    var key := missing[|missing| - 1];
    var g0 := GroupMissing(front);
    assert forall k :: k in front ==> k in missing;
    if key in FieldTable {
      AddGatesLabels(g0, GateParts(key), FieldLabel(key));
      if gate in g0.labels && caption in g0.labels[gate] {
        GroupLabelsSound(front, gate, caption);
      }
    } else {
      GroupLabelsSound(front, gate, caption);
    }
  }

  /** Each missing key known as a field has its label under every gate of its gate list. */
  lemma {:induction false} GroupLabelsComplete(missing: seq<string>, k: string, gate: string)
    requires k in missing && k in FieldTable && gate in GateParts(k)
    ensures var g := GroupMissing(missing); gate in g.labels && FieldLabel(k) in g.labels[gate]
  {
    var front := missing[..|missing| - 1];
    var key := missing[|missing| - 1];
    if k != key {
      assert k in front by { assert missing == front + [key]; }
      GroupLabelsComplete(front, k, gate);
      GroupMissingStep(missing, |missing| - 1);
      assert missing[..|missing|] == missing;
      if key in FieldTable {
        AddGatesKeepsGate(GroupMissing(front), GateParts(key), FieldLabel(key), gate);
      }
    } else {
      GroupMissingStep(missing, |missing| - 1);
      assert missing[..|missing|] == missing;
      AddGatesHasGate(GroupMissing(front), GateParts(key), FieldLabel(key), gate);
    }
  }

  /** Adding labels keeps every label already under a gate. */
  lemma AddGatesKeepsGate(g: GateMap, gates: seq<string>, caption: string, gate: string)
    requires gate in g.labels
    ensures var r := AddGates(g, gates, caption); gate in r.labels && g.labels[gate] <= r.labels[gate]
  {
    assert Grows(g, AddGates(g, gates, caption));
  }

  /** After `AddGates` the label sits under each of the gates. */
  lemma AddGatesHasGate(g: GateMap, gates: seq<string>, caption: string, gate: string)
    requires gate in gates
    ensures var r := AddGates(g, gates, caption); gate in r.labels && caption in r.labels[gate]
  {
    AddGatesLabels(g, gates, caption);
    var j :| 0 <= j < |gates| && gates[j] == gate;
  }

  /** The missing-impact text is never empty, and names gates only when some key is known. */
  lemma MissingImpactShape(missing: seq<string>)
    ensures MissingImpact(missing) != []
    ensures missing != [] && (forall k :: k in missing ==> k !in FieldTable) ==> MissingImpact(missing) == UnknownLines(missing)
    ensures (exists k :: k in missing && k in FieldTable) ==> |MissingImpact(missing)| == |Dedup(KnownParts(missing))|
  {
    GroupEmptyIff(missing);
    GroupOrder(missing);
  }

  // ---------------------------------------------------------------- evidence hints

  const DistributionHint := "TradFi 分发闸门加成已开启"
  const ExtremeOpen := "极限重仓许可已开放"
  const ExtremeShut := "极限重仓许可未开放"
  const HedgeHint := "对冲 SOP 已启用"
  const NoHint := "无额外提示"

  /** `output.distributionGate >= 2` under JavaScript's number conversion. */
  predicate DistributionOn(v: Value)
  {
    var n := JsToNumber(v);
    n.Some? && n.value >= 2.0
  }

  /**
   * `buildEvidenceHints`: the distribution hint from two events on, exactly one of the
   * extreme-permission hints, and the hedge hint. The fallback line is never reached,
   * since one of the two permission hints is always present.
   */
  function EvidenceHints(output: Record): (r: seq<string>)
    ensures r != [] && NoHint !in r
    ensures (ExtremeOpen in r) != (ExtremeShut in r)
    ensures ExtremeOpen in r <==> Truthy(Lookup(output, "extremeAllowed"))
    ensures DistributionHint in r <==> DistributionOn(Lookup(output, "distributionGate"))
    ensures HedgeHint in r <==> Truthy(Lookup(output, "hedge"))
  {
    var h0: seq<string> := [];
    var h1 := PushIf(h0, DistributionHint, DistributionOn(Lookup(output, "distributionGate")));
    var h2 := PushIf(h1, ExtremeOpen, Truthy(Lookup(output, "extremeAllowed")));
    var h3 := PushIf(h2, ExtremeShut, !Truthy(Lookup(output, "extremeAllowed")));
    var h4 := PushIf(h3, HedgeHint, Truthy(Lookup(output, "hedge")));
    if |h4| > 0 then h4 else [NoHint]
  }
}
