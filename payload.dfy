// The request the page sends to the AI step (src/ai/payload.js): one entry per covered
// input field with its provenance and trend, one per gate, and the summary and overall
// prompts. The prompt texts themselves come from prompt builders outside this model.

module AiPayload {
  import opened Values
  import opened Text
  import opened Dates
  import opened Order
  import opened History
  import opened Inputs
  import opened FieldMeta
  import opened FieldTrend

  /** Every key the coverage groups list, once each, in the order of first mention. */
  function CoverageKeys(): seq<string>
  {
    Dedup(GroupKeys(CoverageGroups))
  }

  /** `uniqueCoverageKeys`: the keys of the coverage groups, each the first time it is seen. */
  method UniqueCoverageKeys() returns (list: seq<string>)
    ensures list == CoverageKeys()
  {
    list := UniqueKeys(CoverageGroups);
  }

  /** The walk of `uniqueCoverageKeys` over any groups: a key is pushed the first time it is seen. */
  method UniqueKeys(groups: seq<CoverageGroup>) returns (list: seq<string>)
    ensures list == Dedup(GroupKeys(groups))
  {
    var seen: set<string> := {};
    list := [];
    for g := 0 to |groups|
      invariant list == Dedup(GroupKeys(groups[..g]))
      invariant forall x :: x in seen <==> x in list
    {
      list, seen := PushUnseen(GroupKeys(groups[..g]), groups[g].keys, list, seen);
      GroupKeysStep(groups, g);
    }
    assert groups[..|groups|] == groups;
  }

  /** The keys of one more group follow those of the groups before it. */
  lemma GroupKeysStep(groups: seq<CoverageGroup>, g: nat)
    requires g < |groups|
    ensures GroupKeys(groups[..g + 1]) == GroupKeys(groups[..g]) + groups[g].keys
  {
    assert groups[..g + 1][..g] == groups[..g];
  }

  /** The inner loop: each key of one group is pushed unless it was seen. */
  method PushUnseen(before: seq<string>, keys: seq<string>, list0: seq<string>, seen0: set<string>)
    returns (list: seq<string>, seen: set<string>)
    requires list0 == Dedup(before) && forall x :: x in seen0 <==> x in list0
    ensures list == Dedup(before + keys) && forall x :: x in seen <==> x in list
  {
    list, seen := list0, seen0;
    assert before + keys[..0] == before;
    for k := 0 to |keys|
      invariant list == Dedup(before + keys[..k])
      invariant forall x :: x in seen <==> x in list
    {
      var key := keys[k];
      DedupStep(before, keys, k);
      if key !in seen {
        seen := seen + {key};
        list := list + [key];
      }
    }
    assert keys[..|keys|] == keys;
  }

  /** One more key of a group appends it to the deduplicated keys unless it is there already. */
  lemma DedupStep(before: seq<string>, keys: seq<string>, k: nat)
    requires k < |keys|
    ensures var d := Dedup(before + keys[..k]);
      Dedup(before + keys[..k + 1]) == if keys[k] in d then d else d + [keys[k]]
  {
    DedupSnoc(before + keys[..k], keys[k]);
    assert before + keys[..k + 1] == (before + keys[..k]) + [keys[k]];
  }

  /** The coverage keys have no repeats, are exactly the keys some group lists, and keep the order of first mention. */
  lemma CoverageKeysShape()
    ensures Distinct(CoverageKeys())
    ensures forall k :: k in CoverageKeys() <==> exists g :: 0 <= g < |CoverageGroups| && k in CoverageGroups[g].keys
    ensures var all := GroupKeys(CoverageGroups); var r := CoverageKeys();
      forall i, j :: 0 <= i < j < |r| ==> FirstIndex(all, r[i]) < FirstIndex(all, r[j])
  {
    DedupFirstOrder(GroupKeys(CoverageGroups));
  }

  /** The first truthy value of the list, else the fallback: the meaning of a chain `a || b || ... || fallback`. */
  function FirstTruthy(vs: seq<Value>, fallback: Value): (r: Value)
    ensures (exists i :: 0 <= i < |vs| && r == vs[i] && Truthy(vs[i]) && forall j :: 0 <= j < i ==> !Truthy(vs[j]))
      || (r == fallback && forall j :: 0 <= j < |vs| ==> !Truthy(vs[j]))
  {
    if vs == [] then fallback
    else if Truthy(vs[0]) then vs[0]
    else
      var r := FirstTruthy(vs[1..], fallback);
      assert forall j :: 0 <= j < |vs| - 1 ==> vs[1..][j] == vs[j + 1];
      r
  }

  /** One field's entry before its prompt: what the table says of it, where and when it came from, its value and its trend. */
  datatype PayloadField = PayloadField(key: string, caption: string, desc: string, gate: string, unit: string,
                                       source: Value, observedAt: Value, fetchedAt: Value, freshnessLabel: Value,
                                       value: Value, trend: string)

  /** The table's entry, or the stand-in of a field it does not know. */
  function InfoOf(key: string): (r: FieldInfo)
    ensures key in FieldTable ==> r == FieldTable[key]
    ensures key !in FieldTable ==> r == FieldInfo(key, "", "未知", "")
  {
    if key in FieldTable then FieldTable[key] else FieldInfo(key, "", "未知", "")
  }

  /** What the trend derivation needs from its host: the half-life rule, `toFixed` and the date text. */
  datatype TrendHost = TrendHost(halfLife: string -> real, fixed: (real, nat) -> string, dayText: int -> string)

  /** The entry of one field present in the input (`value` is `input[key]`). */
  function FieldOf(input: Doc, key: string, date: DateKey, history: seq<Entry>, host: TrendHost): (r: PayloadField)
    requires key in input.fields
    ensures r.key == key && r.value == input.fields[key]
    ensures (r.caption, r.unit, r.gate, r.desc) == (InfoOf(key).caption, InfoOf(key).unit, InfoOf(key).gate, InfoOf(key).desc)
    ensures r.trend == SummarizeTrendForPrompt(DeriveFieldTrend(history, date, key, host.halfLife, host.fixed, host.dayText),
                                               host.fixed, host.dayText)
  {
    var info := InfoOf(key);
    var m := input.meta;
    PayloadField(key, info.caption, info.desc, info.gate, info.unit,
      Or(Lookup(OrEmpty(m.sources), key), Str("来源缺失")),
      Or(Lookup(OrEmpty(m.observedAt), key), Or(Lookup(OrEmpty(m.updatedAt), key), Or(m.generatedAt, Str("")))),
      Or(Lookup(OrEmpty(m.fetchedAt), key), Or(m.generatedAt, Str(""))),
      Or(Prop(Lookup(OrEmpty(m.freshness), key), "label"), Str("未知")),
      input.fields[key],
      SummarizeTrendForPrompt(DeriveFieldTrend(history, date, key, host.halfLife, host.fixed, host.dayText),
                              host.fixed, host.dayText))
  }

  /**
   * Where a field says it came from: its own source, else "来源缺失"; when it was observed:
   * its own observation stamp, else its update stamp, else the run's stamp, else ""; when it
   * was fetched: its own stamp, else the run's, else ""; its freshness label, else "未知".
   */
  lemma FieldProvenance(input: Doc, key: string, date: DateKey, history: seq<Entry>, host: TrendHost)
    requires key in input.fields
    ensures var r := FieldOf(input, key, date, history, host); var m := input.meta;
      r.source == FirstTruthy([Lookup(OrEmpty(m.sources), key)], Str("来源缺失"))
      && r.observedAt == FirstTruthy([Lookup(OrEmpty(m.observedAt), key), Lookup(OrEmpty(m.updatedAt), key), m.generatedAt], Str(""))
      && r.fetchedAt == FirstTruthy([Lookup(OrEmpty(m.fetchedAt), key), m.generatedAt], Str(""))
      && r.freshnessLabel == FirstTruthy([Prop(Lookup(OrEmpty(m.freshness), key), "label")], Str("未知"))
  {
    var m := input.meta;
    FirstTruthyStep([Lookup(OrEmpty(m.sources), key)], Str("来源缺失"));
    FirstTruthyStep([Prop(Lookup(OrEmpty(m.freshness), key), "label")], Str("未知"));
    ThreeLinks(Lookup(OrEmpty(m.observedAt), key), Lookup(OrEmpty(m.updatedAt), key), m.generatedAt, Str(""));
    TwoLinks(Lookup(OrEmpty(m.fetchedAt), key), m.generatedAt, Str(""));
  }

  /** A chain of two links. */
  lemma TwoLinks(a: Value, b: Value, fallback: Value)
    ensures FirstTruthy([a, b], fallback) == Or(a, Or(b, fallback))
  {
    assert [a, b][1..] == [b];
    FirstTruthyStep([b], fallback);
    FirstTruthyStep([a, b], fallback);
  }

  /** A chain of three links. */
  lemma ThreeLinks(a: Value, b: Value, c: Value, fallback: Value)
    ensures FirstTruthy([a, b, c], fallback) == Or(a, Or(b, Or(c, fallback)))
  {
    assert [a, b, c][1..] == [b, c];
    TwoLinks(b, c, fallback);
    FirstTruthyStep([a, b, c], fallback);
  }

  /** A chain's first link decides unless it is falsy. */
  lemma FirstTruthyStep(vs: seq<Value>, fallback: Value)
    requires vs != []
    ensures FirstTruthy(vs, fallback) == Or(vs[0], FirstTruthy(vs[1..], fallback))
  {
  }

  /**
   * The prompt builders, which live outside this model: the prompt version, the two
   * whole-day prompts already built from the output and the input, and the builders of a
   * gate's and a field's prompt (the field's builder already holds the output, the input and the date).
   */
  datatype Prompts = Prompts(version: string, summary: string, overall: string,
                             gate: Value -> string, field: PayloadField -> string)

  datatype GateEntry = GateEntry(id: Value, name: Value, prompt: string)

  datatype Payload = Payload(date: DateKey, promptVersion: string, summaryPrompt: string, overallPrompt: string,
                             gates: seq<GateEntry>, fields: seq<(PayloadField, string)>)

  /** `key in input`, as a function of the key. */
  function InInput(input: Doc): string -> bool
  {
    key => key in input.fields
  }

  /** The coverage keys the input has, in coverage order. */
  function PresentKeys(input: Doc): (r: seq<string>)
    ensures forall k :: k in r ==> k in input.fields
  {
    Filter(CoverageKeys(), InInput(input))
  }

  /** The gate entries: each gate's id and name with its prompt. */
  function GateEntries(gates: seq<Value>, prompts: Prompts): (r: seq<GateEntry>)
    ensures |r| == |gates|
    ensures forall i :: 0 <= i < |gates| ==>
      r[i] == GateEntry(Prop(gates[i], "id"), Prop(gates[i], "name"), prompts.gate(gates[i]))
  {
    seq(|gates|, i requires 0 <= i < |gates| => GateEntry(Prop(gates[i], "id"), Prop(gates[i], "name"), prompts.gate(gates[i])))
  }

  /** The field entries of the given keys, each with its prompt. */
  function FieldEntries(keys: seq<string>, input: Doc, date: DateKey, history: seq<Entry>, host: TrendHost,
                        prompts: Prompts): (r: seq<(PayloadField, string)>)
    requires forall k :: k in keys ==> k in input.fields
    ensures |r| == |keys|
    ensures forall i :: 0 <= i < |keys| ==> (r[i].0 == FieldOf(input, keys[i], date, history, host)
      && r[i].1 == prompts.field(r[i].0))
  {
    seq(|keys|, i requires 0 <= i < |keys| =>
      var f := FieldOf(input, keys[i], date, history, host);
      (f, prompts.field(f)))
  }

  /** `buildAiPayload`: the day's date, the prompt version and prompts, the gate entries and the field entries. */
  function BuildAiPayload(date: DateKey, input: Doc, output: Record, history: seq<Entry>, host: TrendHost,
                          prompts: Prompts): (r: Payload)
    ensures r.date == date && r.promptVersion == prompts.version
    ensures r.summaryPrompt == prompts.summary && r.overallPrompt == prompts.overall
    ensures r.gates == GateEntries(Items(Lookup(output, "gates")), prompts)
    ensures r.fields == FieldEntries(PresentKeys(input), input, date, history, host, prompts)
  {
    Payload(date, prompts.version, prompts.summary, prompts.overall,
      GateEntries(Items(Lookup(output, "gates")), prompts),
      FieldEntries(PresentKeys(input), input, date, history, host, prompts))
  }

  /**
   * The keys of the field entries are exactly the coverage keys the input has: no key
   * twice, none the input lacks, none outside the coverage groups, in coverage order.
   */
  lemma PresentKeysShape(input: Doc)
    ensures var keys := PresentKeys(input);
      Distinct(keys) && Sub(keys, CoverageKeys())
      && forall k :: k in keys <==> k in input.fields && exists g :: 0 <= g < |CoverageGroups| && k in CoverageGroups[g].keys
  {
    CoverageKeysShape();
    KeptKeys(CoverageKeys(), input);
  }

  /** Keeping the keys the input has keeps an ordered, repeat-free selection. */
  lemma KeptKeys(all: seq<string>, input: Doc)
    requires Distinct(all)
    ensures var kept := Filter(all, InInput(input));
      Distinct(kept) && Sub(kept, all) && forall k :: k in kept <==> k in all && k in input.fields
  {
    FilterSub(all, InInput(input));
    SubDistinct(Filter(all, InInput(input)), all);
  }
}
