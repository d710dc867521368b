// The input object the page and the scripts run the engine on: the schema fields,
// the `__`-prefixed provenance metadata, and the pure helpers over it
// (src/inputPolicy.js, src/ui/inputBuilder.js, src/app.js,
// scripts/backfill_history.mjs, scripts/daily_autorun.mjs).

module Inputs {
  import opened Values
  import opened Text
  import opened Dates
  import opened History

  datatype FieldType = NumberField | BooleanField

  /** `Object.entries(inputSchema)`: field names with their declared `typeof`, in declaration order. */
  type Schema = seq<(string, FieldType)>

  function KeysOf(schema: Schema): (keys: seq<string>)
    ensures |keys| == |schema|
    ensures forall i :: 0 <= i < |schema| ==> keys[i] == schema[i].0
  {
    if schema == [] then [] else KeysOf(schema[..|schema| - 1]) + [schema[|schema| - 1].0]
  }

  lemma KeysOfPrefix(schema: Schema, m: nat)
    requires m <= |schema|
    ensures KeysOf(schema[..m]) == KeysOf(schema)[..m]
  {
  }

  /** The page's schema (src/app.js:270-315). */
  const AppSchema: Schema := [
    ("dxy5d", NumberField), ("dxy3dUp", BooleanField), ("us2yWeekBp", NumberField), ("fciUpWeeks", NumberField),
    ("etf10d", NumberField), ("etf5d", NumberField), ("etf1d", NumberField), ("prevEtfExtremeOutflow", BooleanField),
    ("stablecoin30d", NumberField), ("exchStableDelta", NumberField), ("policyWindow", BooleanField),
    ("preMeeting2y", NumberField), ("current2y", NumberField), ("preMeetingDxy", NumberField), ("currentDxy", NumberField),
    ("crowdingIndex", NumberField), ("liquidationUsd", NumberField), ("longWicks", BooleanField),
    ("reverseFishing", BooleanField), ("shortFailure", BooleanField), ("exchBalanceTrend", NumberField),
    ("floatDensity", NumberField), ("mcapElasticity", NumberField), ("mcapGrowth", NumberField),
    ("volumeConfirm", BooleanField), ("rsdScore", NumberField), ("lstcScore", NumberField),
    ("mappingRatioDown", BooleanField), ("netIssuanceHigh", BooleanField), ("cognitivePotential", NumberField),
    ("liquidityPotential", NumberField), ("onchainReflexivity", NumberField), ("sentimentThreshold", NumberField),
    ("topo", NumberField), ("spectral", NumberField), ("roughPath", NumberField), ("deltaES", NumberField),
    ("trendMomentum", NumberField), ("divergence", NumberField), ("distributionGateCount", NumberField),
    ("rrpChange", NumberField), ("tgaChange", NumberField), ("srfChange", NumberField), ("ism", NumberField)]

  /** The scripts' schema: the page's fields plus the spot price and the exchange TVL (scripts/backfill_history.mjs:18-65). */
  const ScriptSchema: Schema := AppSchema + [("ethSpotPrice", NumberField), ("cexTvl", NumberField)]

  /** The kind of a value matches the expected type name. */
  predicate HasType(v: Value, t: FieldType)
  {
    match t
    case NumberField => v.Num?
    case BooleanField => v.Bool?
  }

  /** A provenance map (`__sources`, `__fieldObservedAt`, ...): field name to a string or null. */
  type Stamps = map<string, Value>

  /** `obj[key]`, with an absent key read as the falsy `undefined` (here `Null`). */
  function Lookup(m: Stamps, key: string): Value
  {
    if key in m then m[key] else Null
  }

  /** The first value when it is truthy, the second otherwise. */
  function Or(a: Value, b: Value): (r: Value)
    ensures Truthy(a) ==> r == a
    ensures !Truthy(a) ==> r == b
  {
    if Truthy(a) then a else b
  }

  /** `m || {}` for an optional map. */
  function OrEmpty<K, V>(m: Option<map<K, V>>): map<K, V>
  {
    match m
    case Some(x) => x
    case None => map[]
  }

  /**
   * The metadata beside the fields: `None` is a provenance map that is missing or falsy;
   * `missing`, `errors`, `generatedAt` and `targetDate` are `__missing`, `__errors`, ...
   */
  datatype Meta = Meta(
    sources: Option<Stamps>, observedAt: Option<Stamps>, fetchedAt: Option<Stamps>,
    updatedAt: Option<Stamps>, freshness: Option<Stamps>,
    missing: seq<string>, errors: seq<string>, generatedAt: Value, targetDate: Value)

  /** An input object: its ordinary keys (schema fields, `date`, ...) and its metadata. */
  datatype Doc = Doc(fields: Record, meta: Meta)

  /** A collector payload as read back from JSON: any part may be missing. */
  datatype Received = Received(
    data: Option<Record>, sources: Option<Stamps>,
    fieldObservedAt: Option<Stamps>, fieldFetchedAt: Option<Stamps>, fieldUpdatedAt: Option<Stamps>,
    missing: Option<seq<string>>, errors: Option<seq<string>>, generatedAt: Value, targetDate: Value)

  /** `Object.fromEntries(keys.map((key) => [key, null]))`: the template of the scripts. */
  function NullTemplate(schema: Schema): (r: Record)
    ensures forall k :: k in r <==> k in KeysOf(schema)
    ensures forall k :: k in r ==> r[k] == Null
  {
    if schema == [] then map[] else NullTemplate(schema[..|schema| - 1])[schema[|schema| - 1].0 := Null]
  }

  /**
   * `buildCombinedInput`: null for a missing payload; otherwise the template overlaid by the
   * payload's data, with every metadata entry defaulting to an empty map or list.
   */
  function BuildCombinedInput(payload: Option<Received>, template: Option<Record>): (r: Option<Doc>)
    ensures r.None? <==> payload.None?
    ensures r.Some? ==> forall k :: k in r.value.fields <==> k in OrEmpty(template) || k in OrEmpty(payload.value.data)
    ensures r.Some? ==> forall k :: k in OrEmpty(payload.value.data) ==> r.value.fields[k] == payload.value.data.value[k]
    ensures r.Some? ==> forall k :: k in OrEmpty(template) && k !in OrEmpty(payload.value.data) ==> r.value.fields[k] == template.value[k]
    ensures r.Some? ==> (r.value.meta.sources.Some? && r.value.meta.observedAt.Some? && r.value.meta.fetchedAt.Some?
                         && r.value.meta.updatedAt.Some? && r.value.meta.freshness.None?)
    ensures r.Some? && payload.value.sources.None? ==> r.value.meta.sources == Some(map[])
    ensures r.Some? && payload.value.missing.None? ==> r.value.meta.missing == []
    ensures r.Some? && payload.value.errors.None? ==> r.value.meta.errors == []
  {
    match payload
    case None => None
    case Some(p) =>
      Some(Doc(OrEmpty(template) + OrEmpty(p.data),
        Meta(Some(OrEmpty(p.sources)), Some(OrEmpty(p.fieldObservedAt)), Some(OrEmpty(p.fieldFetchedAt)),
          Some(OrEmpty(p.fieldUpdatedAt)), None,
          if p.missing.Some? then p.missing.value else [], if p.errors.Some? then p.errors.value else [],
          p.generatedAt, p.targetDate)))
  }

  /** On the scripts' null template every schema key is present in the combined input. */
  lemma CombinedHasSchemaKeys(payload: Received, schema: Schema)
    ensures forall k :: k in KeysOf(schema) ==> k in BuildCombinedInput(Some(payload), Some(NullTemplate(schema))).value.fields
  {
  }

  /** `hasNullFields`: some listed key is null or undefined. */
  function HasNullFields(fields: Record, keys: seq<string>): (r: bool)
    ensures r <==> exists k :: k in keys && IsNullish(fields, k)
  {
    if keys == [] then false
    else
      assert keys[0] in keys;
      assert forall k :: k in keys ==> k == keys[0] || k in keys[1..];
      IsNullish(fields, keys[0]) || HasNullFields(fields, keys[1..])
  }

  /** Some required key is absent from the input. */
  function SomeAbsent(fields: Record, keys: seq<string>): (r: bool)
    ensures r <==> exists k :: k in keys && k !in fields
  {
    if keys == [] then false
    else
      assert keys[0] in keys;
      assert forall k :: k in keys ==> k == keys[0] || k in keys[1..];
      keys[0] !in fields || SomeAbsent(fields, keys[1..])
  }

  /** `needsAutoFetch`: no input, no sources, an absent key, or a null key. */
  function NeedsAutoFetch(input: Option<Doc>, keys: seq<string>): (r: bool)
    ensures input.None? ==> r
    ensures input.Some? && input.value.meta.sources.None? ==> r
    ensures input.Some? && input.value.meta.sources.Some? ==> (r <==> HasNullFields(input.value.fields, keys))
  {
    if input.None? then true
    else if input.value.meta.sources.None? then true
    else if SomeAbsent(input.value.fields, keys) then true
    else HasNullFields(input.value.fields, keys)
  }

  /** `refreshMissingFields`: null for anything but an array of keys gives [], else the nullish keys in order. */
  function MissingFieldsOf(fields: Record, schemaKeys: Option<seq<string>>): (r: seq<string>)
    ensures schemaKeys.None? ==> r == []
    ensures schemaKeys.Some? ==> forall k :: k in r <==> k in schemaKeys.value && IsNullish(fields, k)
    ensures schemaKeys.Some? ==> Sub(r, schemaKeys.value)
  {
    match schemaKeys
    case None => []
    case Some(keys) =>
      NullishKeysOrdered(keys, fields);
      NullishKeys(keys, fields)
  }

  /** `listMissingFields` (src/app.js): the schema keys the object does not have at all, in order. */
  function ListMissingFields(schema: Schema, fields: Record): (r: seq<string>)
    ensures forall k :: k in r <==> k in KeysOf(schema) && k !in fields
    ensures |r| <= |schema|
  {
    if schema == [] then []
    else
      var front := ListMissingFields(schema[..|schema| - 1], fields);
      var k := schema[|schema| - 1].0;
      assert KeysOf(schema) == KeysOf(schema[..|schema| - 1]) + [k];
      if k !in fields then front + [k] else front
  }

  // ---------------------------------------------------------------- validation

  /** The two wordings of the validation messages: the page and the backfill script, or the daily script. */
  datatype Wording = Chinese | English

  /** The field holds a value of its declared type (null and undefined never do). */
  predicate FieldValid(fields: Record, key: string, t: FieldType)
  {
    key in fields && HasType(fields[key], t)
  }

  predicate ValidFields(schema: Schema, fields: Record)
  {
    forall i :: 0 <= i < |schema| ==> FieldValid(fields, schema[i].0, schema[i].1)
  }

  /** The schema keys, in order, whose field is absent, null or of the wrong type. */
  function InvalidKeys(schema: Schema, fields: Record): (r: seq<string>)
    ensures |r| <= |schema|
    ensures r == [] <==> ValidFields(schema, fields)
  {
    if schema == [] then []
    else
      var n := |schema| - 1;
      var front := InvalidKeys(schema[..n], fields);
      assert ValidFields(schema, fields) <==> ValidFields(schema[..n], fields) && FieldValid(fields, schema[n].0, schema[n].1) by {
        assert forall i :: 0 <= i < n ==> schema[..n][i] == schema[i];
      }
      if FieldValid(fields, schema[n].0, schema[n].1) then front else front + [schema[n].0]
  }

  function TypeName(t: FieldType): string
  {
    match t
    case NumberField => "number"
    case BooleanField => "boolean"
  }

  /** The message for one field: absent, empty, or of the wrong type; none for a valid field. */
  function FieldError(w: Wording, fields: Record, key: string, t: FieldType): (r: Option<string>)
    ensures r.None? <==> FieldValid(fields, key, t)
    ensures r.Some? ==> Contains(r.value, key)
  {
    var (prefix, suffix) :=
      if key !in fields then (if w == Chinese then "缺少字段：" else "missing field: ", "")
      else if fields[key] == Null then (if w == Chinese then "字段为空：" else "empty field: ", "")
      else if w == Chinese then ("字段类型错误：", " 需要 " + TypeName(t))
      else ("invalid " + TypeName(t) + " field: ", "");
    ContainsAt(prefix + key + suffix, key, |prefix|);
    if FieldValid(fields, key, t) then None else Some(prefix + key + suffix)
  }

  /**
   * `validateInput`: one message per schema field that is absent, empty or mistyped, in
   * schema order, each naming its field; none exactly when every field is valid.
   */
  function ValidateInput(w: Wording, schema: Schema, fields: Record): (r: seq<string>)
    ensures |r| == |InvalidKeys(schema, fields)|
    ensures forall i :: 0 <= i < |r| ==> Contains(r[i], InvalidKeys(schema, fields)[i])
    ensures r == [] <==> ValidFields(schema, fields)
  {
    if schema == [] then []
    else
      var n := |schema| - 1;
      var front := ValidateInput(w, schema[..n], fields);
      match FieldError(w, fields, schema[n].0, schema[n].1)
      case None => front
      case Some(m) => front + [m]
  }

  // ---------------------------------------------------------------- coercion

  /** JavaScript `Number(value)`; `None` is NaN. Arrays and objects are taken as NaN. */
  function JsToNumber(v: Value): Option<real>
  {
    match v
    case Num(n) => Some(n)
    case Bool(b) => Some(if b then 1.0 else 0.0)
    case Null => Some(0.0)
    case Str(s) => JsNumber(s)
    case Obj(_) => None
    case Arr(_) => None
  }

  /**
   * One field of `coerceInputTypes`: a number field takes `Number(value)` when that is
   * finite; a boolean field maps "true"/"1" and 1 to true, "false"/"0" and 0 to false
   * (strings trimmed and lower-cased first). Every other value is kept.
   */
  function CoerceValue(v: Value, t: FieldType): (r: Value)
    ensures HasType(v, t) ==> r == v
    ensures r == v || HasType(r, t)
    ensures v != Null ==> r != Null
    ensures t == NumberField && !v.Num? ==> r == (if JsToNumber(v).Some? then Num(JsToNumber(v).value) else v)
    ensures t == BooleanField && v.Str? ==>
      var normalized := Lower(JsTrim(v.s));
      r == (if normalized == "true" || normalized == "1" then Bool(true)
            else if normalized == "false" || normalized == "0" then Bool(false) else v)
    ensures t == BooleanField && v.Num? ==> r == (if v.n == 1.0 then Bool(true) else if v.n == 0.0 then Bool(false) else v)
    ensures t == BooleanField && !v.Str? && !v.Num? ==> r == v
  {
    match t
    case NumberField =>
      if v.Num? then v
      else (match JsToNumber(v) case Some(n) => Num(n) case None => v)
    case BooleanField =>
      if v.Bool? then v
      else if v.Str? then
        var normalized := Lower(JsTrim(v.s));
        if normalized == "true" || normalized == "1" then Bool(true)
        else if normalized == "false" || normalized == "0" then Bool(false)
        else v
      else if v.Num? then
        if v.n == 1.0 then Bool(true) else if v.n == 0.0 then Bool(false) else v
      else v
  }

  /** Coercing a value twice gives what coercing it once gives. */
  lemma CoerceValueIdempotent(v: Value, t: FieldType)
    ensures CoerceValue(CoerceValue(v, t), t) == CoerceValue(v, t)
  {
  }

  /** The fields after the first `n` schema entries have been coerced; null and undefined fields are skipped. */
  function CoerceUpTo(schema: Schema, n: nat, fields: Record): (r: Record)
    requires n <= |schema|
  {
    if n == 0 then fields
    else
      var f := CoerceUpTo(schema, n - 1, fields);
      var (key, t) := schema[n - 1];
      if IsNullish(f, key) then f else f[key := CoerceValue(f[key], t)]
  }

  /** `coerceInputTypes` over the whole schema. */
  function CoercedFields(schema: Schema, fields: Record): Record
  {
    CoerceUpTo(schema, |schema|, fields)
  }

  /**
   * Coercion keeps the set of keys and which of them are null, and never changes a key
   * outside the first `n` schema entries.
   */
  lemma {:induction false} CoerceKeeps(schema: Schema, n: nat, fields: Record)
    requires n <= |schema|
    ensures forall k :: k in CoerceUpTo(schema, n, fields) <==> k in fields
    ensures forall k :: IsNullish(CoerceUpTo(schema, n, fields), k) <==> IsNullish(fields, k)
    ensures forall k :: k in fields && k !in KeysOf(schema[..n]) ==> CoerceUpTo(schema, n, fields)[k] == fields[k]
  {
    if n > 0 {
      CoerceKeeps(schema, n - 1, fields);
      assert KeysOf(schema[..n]) == KeysOf(schema[..n - 1]) + [schema[n - 1].0] by {
        assert schema[..n][..n - 1] == schema[..n - 1];
      }
    }
  }

  /**
   * With distinct schema keys (the keys of an object literal), every non-null schema
   * field ends up as its own value coerced to its declared type.
   */
  lemma {:induction false} CoercedField(schema: Schema, n: nat, fields: Record, i: nat)
    requires n <= |schema| && i < n && Distinct(KeysOf(schema))
    requires !IsNullish(fields, schema[i].0)
    ensures schema[i].0 in CoerceUpTo(schema, n, fields)
    ensures CoerceUpTo(schema, n, fields)[schema[i].0] == CoerceValue(fields[schema[i].0], schema[i].1)
  {
    var key := schema[i].0;
    if i < n - 1 {
      CoercedField(schema, n - 1, fields, i);
      assert KeysOf(schema)[i] != KeysOf(schema)[n - 1];
      CoerceOther(schema, n, fields, key);
    } else {
      CoerceKeeps(schema, n - 1, fields);
      KeysOfPrefix(schema, n - 1);
      assert key !in KeysOf(schema[..n - 1]);
      var f := CoerceUpTo(schema, n - 1, fields);
      assert f[key] == fields[key] && !IsNullish(f, key);
    }
  }

  /** A coercion step leaves every other key as it was. */
  lemma CoerceOther(schema: Schema, n: nat, fields: Record, k: string)
    requires 0 < n <= |schema| && k != schema[n - 1].0
    ensures var before := CoerceUpTo(schema, n - 1, fields); var after := CoerceUpTo(schema, n, fields);
      (k in after <==> k in before) && (k in before ==> after[k] == before[k])
  {
  }

  /** Running `coerceInputTypes` a second time changes nothing (distinct schema keys). */
  lemma CoercionIdempotent(schema: Schema, fields: Record)
    requires Distinct(KeysOf(schema))
    ensures CoercedFields(schema, CoercedFields(schema, fields)) == CoercedFields(schema, fields)
  {
    var once := CoercedFields(schema, fields);
    var twice := CoercedFields(schema, once);
    CoerceKeeps(schema, |schema|, fields);
    CoerceKeeps(schema, |schema|, once);
    assert schema[..|schema|] == schema;
    forall k | k in once
      ensures twice[k] == once[k]
    {
      if k in KeysOf(schema) && !IsNullish(fields, k) {
        var i :| 0 <= i < |schema| && KeysOf(schema)[i] == k;
        CoercedField(schema, |schema|, fields, i);
        CoercedField(schema, |schema|, once, i);
        CoerceValueIdempotent(fields[k], schema[i].1);
      }
    }
  }

  // ---------------------------------------------------------------- previous-day derived fields

  /** The record of the day before `date`; an unparseable date matches no record. */
  function PrevRecord(history: seq<Entry>, date: DateKey): (r: Option<Entry>)
    ensures r.Some? ==> date.Day? && r.value in history && r.value.date == date.n - 1
  {
    match PreviousDateKey(date)
    case Day(n) => FindDate(history, n)
    case Unparsed(_) => None
  }

  /** `prevRecord?.input?.[key]`: `None` is undefined. */
  function PrevInput(prev: Option<Entry>, key: string): Option<Value>
  {
    if prev.Some? && key in prev.value.input then Some(prev.value.input[key]) else None
  }

  /** `Boolean(prevRecord?.input?.etf1d <= -180)`, with JavaScript's numeric comparison (undefined and NaN compare false). */
  function ExtremeOutflow(prev: Option<Entry>): (r: bool)
    ensures PrevInput(prev, "etf1d").None? ==> !r
    ensures PrevInput(prev, "etf1d") == Some(Null) ==> !r
  {
    match PrevInput(prev, "etf1d")
    case None => false
    case Some(v) => (match JsToNumber(v) case Some(x) => x <= -180.0 case None => false)
  }

  /** `a - b` with JavaScript's number conversion; `None` is NaN. */
  function JsMinus(a: Value, b: Value): Option<real>
  {
    match (JsToNumber(a), JsToNumber(b))
    case (Some(x), Some(y)) => Some(x - y)
    case _ => None
  }

  /**
   * `normalizeInputForRun` of the page: a copy of the fields in which
   * prevEtfExtremeOutflow is added only when the key is absent, and exchBalanceTrend
   * becomes cexTvl minus the previous day's cexTvl when it is null, cexTvl is truthy and
   * the previous value is not undefined. An unparseable date makes `toISOString` throw.
   */
  function NormalizeForApp(fields: Record, history: seq<Entry>, date: DateKey): (r: Outcome<Record>)
    ensures r.Raised? <==> date.Unparsed?
    ensures r.Ok? ==> forall k :: k in fields ==> k in r.value
    ensures r.Ok? ==> forall k :: k in fields && k != "exchBalanceTrend" ==> r.value[k] == fields[k]
    ensures r.Ok? && "prevEtfExtremeOutflow" !in fields ==>
      Lookup(r.value, "prevEtfExtremeOutflow") == Bool(ExtremeOutflow(PrevRecord(history, date)))
    ensures r.Ok? && !IsNullish(fields, "exchBalanceTrend") ==> Lookup(r.value, "exchBalanceTrend") == fields["exchBalanceTrend"]
    ensures r.Ok? ==> forall k :: k in r.value ==> k in fields || k == "prevEtfExtremeOutflow" || k == "exchBalanceTrend"
    ensures r.Ok? && IsNullish(fields, "exchBalanceTrend") ==>
      var prevTvl := PrevInput(PrevRecord(history, date), "cexTvl");
      Lookup(r.value, "exchBalanceTrend")
        == if "cexTvl" in fields && Truthy(fields["cexTvl"]) && prevTvl.Some? && JsMinus(fields["cexTvl"], prevTvl.value).Some?
           then Num(JsMinus(fields["cexTvl"], prevTvl.value).value)
           else Lookup(fields, "exchBalanceTrend")
  {
    if date.Unparsed? then Raised("Invalid time value")
    else
      var prev := PrevRecord(history, date);
      var withOutflow :=
        if "prevEtfExtremeOutflow" !in fields then fields["prevEtfExtremeOutflow" := Bool(ExtremeOutflow(prev))]
        else fields;
      var prevTvl := PrevInput(prev, "cexTvl");
      if IsNullish(withOutflow, "exchBalanceTrend") && "cexTvl" in withOutflow && Truthy(withOutflow["cexTvl"])
        && prevTvl.Some? && JsMinus(withOutflow["cexTvl"], prevTvl.value).Some?
      then Ok(withOutflow["exchBalanceTrend" := Num(JsMinus(withOutflow["cexTvl"], prevTvl.value).value)])
      else Ok(withOutflow)
  }

  /**
   * `normalizeInputForRun` of the two scripts: prevEtfExtremeOutflow is filled when it is
   * absent or null, and exchBalanceTrend is derived only when it is null and both the
   * current and the previous cexTvl are numbers.
   */
  function NormalizeForScripts(fields: Record, history: seq<Entry>, date: DateKey): (r: Record)
    ensures forall k :: k in fields && k != "prevEtfExtremeOutflow" && k != "exchBalanceTrend" ==> k in r && r[k] == fields[k]
    ensures forall k :: k in r ==> k in fields || k == "prevEtfExtremeOutflow" || k == "exchBalanceTrend"
    ensures IsNullish(fields, "prevEtfExtremeOutflow") ==> Lookup(r, "prevEtfExtremeOutflow") == Bool(ExtremeOutflow(PrevRecord(history, date)))
    ensures !IsNullish(fields, "prevEtfExtremeOutflow") ==> Lookup(r, "prevEtfExtremeOutflow") == fields["prevEtfExtremeOutflow"]
    ensures !IsNullish(fields, "exchBalanceTrend") ==> Lookup(r, "exchBalanceTrend") == fields["exchBalanceTrend"]
    ensures IsNullish(fields, "exchBalanceTrend") ==>
      (!IsNullish(r, "exchBalanceTrend") <==>
        "cexTvl" in fields && fields["cexTvl"].Num?
        && PrevInput(PrevRecord(history, date), "cexTvl").Some? && PrevInput(PrevRecord(history, date), "cexTvl").value.Num?)
    ensures !IsNullish(r, "exchBalanceTrend") && IsNullish(fields, "exchBalanceTrend") ==>
      r["exchBalanceTrend"] == Num(fields["cexTvl"].n - PrevInput(PrevRecord(history, date), "cexTvl").value.n)
  {
    var prev := PrevRecord(history, date);
    var withOutflow :=
      if IsNullish(fields, "prevEtfExtremeOutflow") then fields["prevEtfExtremeOutflow" := Bool(ExtremeOutflow(prev))]
      else fields;
    var prevTvl := PrevInput(prev, "cexTvl");
    if IsNullish(withOutflow, "exchBalanceTrend") && "cexTvl" in withOutflow && withOutflow["cexTvl"].Num?
      && prevTvl.Some? && prevTvl.value.Num?
    then withOutflow["exchBalanceTrend" := Num(withOutflow["cexTvl"].n - prevTvl.value.n)]
    else withOutflow
  }

  /** The two variants differ on an explicit null: the page keeps it, the scripts fill it in. */
  lemma NullOutflowVariants(fields: Record, history: seq<Entry>, day: int)
    requires "prevEtfExtremeOutflow" in fields && fields["prevEtfExtremeOutflow"] == Null
    ensures Lookup(NormalizeForApp(fields, history, Day(day)).value, "prevEtfExtremeOutflow") == Null
    ensures Lookup(NormalizeForScripts(fields, history, Day(day)), "prevEtfExtremeOutflow").Bool?
  {
  }

  // ---------------------------------------------------------------- price seed (scripts/backfill_history.mjs)

  /** `resolveSeedClose`: the seed entry of that date if it is a number, else its numeric `close`, else null. */
  function ResolveSeedClose(priceByDate: Option<map<string, Value>>, dateKey: string): (r: Option<real>)
    ensures priceByDate.None? || dateKey == "" ==> r.None?
    ensures r.Some? ==> priceByDate.Some? && dateKey in priceByDate.value
    ensures r.Some? ==> var c := priceByDate.value[dateKey];
      c == Num(r.value) || (c.Obj? && "close" in c.fields && c.fields["close"] == Num(r.value))
  {
    if priceByDate.None? || dateKey == "" then None
    else
      var c := Lookup(priceByDate.value, dateKey);
      if c.Num? then Some(c.n)
      else if c.Obj? && "close" in c.fields && c.fields["close"].Num? then Some(c.fields["close"].n)
      else None
  }

  const SeedSource := "Seed: eth.price.seed.json close"

  /** `current` is a finite number above zero. */
  predicate UsablePrice(fields: Record)
  {
    "ethSpotPrice" in fields && fields["ethSpotPrice"].Num? && fields["ethSpotPrice"].n > 0.0
  }

  /**
   * `fillEthSpotPriceFromSeed` on the object: the new object and whether it filled the
   * price. `now` is the clock reading stored as the fetch time.
   */
  function SeedFilled(d: Doc, priceByDate: Option<map<string, Value>>, dateKey: string, now: Value): (r: (Doc, bool))
    ensures !r.1 ==> r.0 == d
    ensures UsablePrice(d.fields) ==> !r.1
    ensures r.1 <==> !UsablePrice(d.fields) && ResolveSeedClose(priceByDate, dateKey).Some?
    ensures r.1 ==> r.0.fields == d.fields["ethSpotPrice" := Num(ResolveSeedClose(priceByDate, dateKey).value)]
    ensures r.1 ==> r.0.meta.sources == Some(OrEmpty(d.meta.sources)["ethSpotPrice" := Str(SeedSource)])
    ensures r.1 ==> r.0.meta.observedAt.Some? && Lookup(r.0.meta.observedAt.value, "ethSpotPrice") == Str(dateKey + "T00:00:00Z")
    ensures r.1 ==> r.0.meta.updatedAt.Some? && Lookup(r.0.meta.updatedAt.value, "ethSpotPrice") == Str(dateKey + "T00:00:00Z")
  {
    if priceByDate.None? || dateKey == "" || UsablePrice(d.fields) then (d, false)
    else
      match ResolveSeedClose(priceByDate, dateKey)
      case None => (d, false)
      case Some(close) =>
        var stamp := Str(dateKey + "T00:00:00Z");
        var m := d.meta;
        (Doc(d.fields["ethSpotPrice" := Num(close)],
          m.(sources := Some(OrEmpty(m.sources)["ethSpotPrice" := Str(SeedSource)]),
             observedAt := Some(OrEmpty(m.observedAt)["ethSpotPrice" := stamp]),
             updatedAt := Some(OrEmpty(m.updatedAt)["ethSpotPrice" := stamp]),
             fetchedAt := Some(OrEmpty(m.fetchedAt)["ethSpotPrice" := now]))), true)
  }

  /**
   * `hydrateMetadata`: the payload's metadata, each entry defaulting to an empty map or list;
   * the freshness map is not touched.
   */
  function HydrateMetadata(d: Doc, p: Received): (r: Doc)
    ensures r.fields == d.fields && r.meta.freshness == d.meta.freshness
    ensures r.meta.sources == Some(OrEmpty(p.sources)) && r.meta.errors == (if p.errors.Some? then p.errors.value else [])
    ensures r.meta.missing == (if p.missing.Some? then p.missing.value else [])
    ensures Truthy(p.generatedAt) ==> r.meta.generatedAt == p.generatedAt
    ensures !Truthy(p.generatedAt) ==> r.meta.generatedAt == Null
  {
    Doc(d.fields, Meta(Some(OrEmpty(p.sources)), Some(OrEmpty(p.fieldObservedAt)), Some(OrEmpty(p.fieldFetchedAt)),
      Some(OrEmpty(p.fieldUpdatedAt)), d.meta.freshness,
      if p.missing.Some? then p.missing.value else [], if p.errors.Some? then p.errors.value else [],
      Or(p.generatedAt, Null), Or(p.targetDate, Null)))
  }

  // ---------------------------------------------------------------- backfill from history

  /** What `pickHistoryBackfillCandidate` returns: value, source label, record date, stamps and freshness. */
  datatype Candidate = Candidate(value: Value, source: Value, date: string, observedAt: Value, fetchedAt: Value, freshness: Value)

  /**
   * The history picker with the history and the target date already bound:
   * `pick(key, allowStale)`. Its cutoff rule lives outside this model.
   */
  type Picker = (string, bool) -> Option<Candidate>

  /** `classifyFieldFreshness(observedAt, targetDate, key)` with the target date bound. */
  type Classifier = (Value, string) -> Value

  /** The three copies of `backfillMissingFromHistory`: the page, the backfill script, the daily script. */
  datatype Variant = AppPage | BackfillScript | DailyScript

  /** The candidate is marked stale by its freshness. */
  predicate IsStale(c: Option<Candidate>)
  {
    c.Some? && c.value.freshness.Obj? && "level" in c.value.freshness.fields
    && c.value.freshness.fields["level"] == Str("stale")
  }

  /** Sets a key only when its current value is falsy. */
  function SetIfFalsy(m: Stamps, key: string, v: Value): (r: Stamps)
    ensures Truthy(Lookup(m, key)) ==> r == m
    ensures !Truthy(Lookup(m, key)) ==> r == m[key := v]
  {
    if Truthy(Lookup(m, key)) then m else m[key := v]
  }

  /** The time stamp of a field: when it was observed, else updated, else when the file was generated. */
  function StampFor(m: Meta, key: string): Value
  {
    Or(Lookup(OrEmpty(m.observedAt), key), Or(Lookup(OrEmpty(m.updatedAt), key), Or(m.generatedAt, Null)))
  }

  /** The provenance written for one filled field: each stamp only where it was falsy. */
  function Provenance(v: Variant, key: string, c: Candidate, m: Meta, classify: Classifier): (r: Meta)
    ensures r.missing == m.missing && r.errors == m.errors && r.generatedAt == m.generatedAt
  {
    var sources := SetIfFalsy(OrEmpty(m.sources), key, Or(c.source, Str("History cache: " + c.date)));
    var observed := SetIfFalsy(OrEmpty(m.observedAt), key, Or(c.observedAt, Null));
    var fetched := SetIfFalsy(OrEmpty(m.fetchedAt), key, Or(c.fetchedAt, Or(c.observedAt, Null)));
    var updated := SetIfFalsy(OrEmpty(m.updatedAt), key, Or(Lookup(observed, key), Null));
    var m1 := m.(sources := Some(sources), observedAt := Some(observed), fetchedAt := Some(fetched), updatedAt := Some(updated));
    match v
    case AppPage => m1.(freshness := Some(OrEmpty(m.freshness)[key := Or(c.freshness, Null)]))
    case BackfillScript => m1
    case DailyScript => m1.(freshness := Some(OrEmpty(m.freshness)[key := classify(StampFor(m1, key), key)]))
  }

  /** The object so far, the keys filled and the keys the half-life rule blocked. */
  datatype Fill = Fill(doc: Doc, filled: seq<string>, stale: seq<string>)

  /** One schema entry of the loop. */
  function StepKey(v: Variant, key: string, t: FieldType, pick: Picker, classify: Classifier, st: Fill): Fill
  {
    if !IsNullish(st.doc.fields, key) then st
    else
      match pick(key, false)
      case None => if IsStale(pick(key, true)) then st.(stale := st.stale + [key]) else st
      case Some(c) =>
        if !HasType(c.value, t) then st
        else Fill(Doc(st.doc.fields[key := c.value], Provenance(v, key, c, st.doc.meta, classify)), st.filled + [key], st.stale)
  }

  /** The loop over the first `n` schema entries. */
  function FillUpTo(v: Variant, schema: Schema, n: nat, pick: Picker, classify: Classifier, d: Doc): Fill
    requires n <= |schema|
  {
    if n == 0 then Fill(d, [], [])
    else StepKey(v, schema[n - 1].0, schema[n - 1].1, pick, classify, FillUpTo(v, schema, n - 1, pick, classify, d))
  }

  /** `hydrateFieldFreshness` (page only) over the first `n` schema keys. */
  function HydrateUpTo(schema: Schema, n: nat, classify: Classifier, m: Meta): (r: Meta)
    requires n <= |schema|
    ensures r.(freshness := m.freshness) == m
    ensures r.freshness.Some?
  {
    if n == 0 then m.(freshness := Some(OrEmpty(m.freshness)))
    else
      var h := HydrateUpTo(schema, n - 1, classify, m);
      var key := schema[n - 1].0;
      h.(freshness := Some(h.freshness.value[key := classify(StampFor(h, key), key)]))
  }

  function FilledNote(filled: seq<string>): string
  {
    "历史日期回抓：使用本地快照补齐字段 " + Join(filled, ", ")
  }

  function StaleNote(v: Variant, stale: seq<string>): string
  {
    (if v == DailyScript then "half-life blocked stale history fields: " else "半衰期拦截：以下字段本地历史已过期，未回填 ")
    + Join(stale, ", ")
  }

  /** The notes the backfill appends: the page's one "filled" note, then one note for all stale-blocked keys. */
  function BackfillNotes(v: Variant, f: Fill): (r: seq<string>)
    ensures |r| == BoolToNat(v == AppPage && f.filled != []) + BoolToNat(f.stale != []) && |r| <= 2
    ensures f.stale != [] ==> r[|r| - 1] == StaleNote(v, f.stale)
    ensures v == AppPage && f.filled != [] ==> r[0] == FilledNote(f.filled)
  {
    (if v == AppPage && f.filled != [] then [FilledNote(f.filled)] else [])
    + (if f.stale != [] then [StaleNote(v, f.stale)] else [])
  }

  /**
   * `backfillMissingFromHistory`: the object after the loop (and, on the page, after
   * `hydrateFieldFreshness`), with the notes appended to `__errors`; and the filled keys.
   */
  function Backfilled(v: Variant, schema: Schema, pick: Picker, classify: Classifier, d: Doc): (r: (Doc, seq<string>))
    ensures r.0.meta.missing == d.meta.missing
    ensures r.0.meta.errors == d.meta.errors + BackfillNotes(v, FillUpTo(v, schema, |schema|, pick, classify, d))
  {
    var f := FillUpTo(v, schema, |schema|, pick, classify, d);
    FillKeepsLists(v, schema, |schema|, pick, classify, d);
    var m := if v == AppPage then HydrateUpTo(schema, |schema|, classify, f.doc.meta) else f.doc.meta;
    (Doc(f.doc.fields, m.(errors := m.errors + BackfillNotes(v, f))), f.filled)
  }

  /** The loop leaves `__missing`, `__errors` and `__generatedAt` alone. */
  lemma {:induction false} FillKeepsLists(v: Variant, schema: Schema, n: nat, pick: Picker, classify: Classifier, d: Doc)
    requires n <= |schema|
    ensures FillUpTo(v, schema, n, pick, classify, d).doc.meta.missing == d.meta.missing
    ensures FillUpTo(v, schema, n, pick, classify, d).doc.meta.errors == d.meta.errors
    ensures FillUpTo(v, schema, n, pick, classify, d).doc.meta.generatedAt == d.meta.generatedAt
  {
    if n > 0 {
      FillKeepsLists(v, schema, n - 1, pick, classify, d);
    }
  }

  /**
   * One entry of the loop either leaves the fields and the filled list alone (adding the
   * key to the stale list only when the field is null and only stale history has it), or
   * fills a null field with a fresh value of the declared type.
   */
  lemma StepKeyCases(v: Variant, key: string, t: FieldType, pick: Picker, classify: Classifier, st: Fill)
    ensures var r := StepKey(v, key, t, pick, classify, st);
      (r.filled == st.filled && r.doc.fields == st.doc.fields
       && (r.stale == st.stale || (r.stale == st.stale + [key] && IsNullish(st.doc.fields, key) && pick(key, false).None?)))
      || (r.filled == st.filled + [key] && r.stale == st.stale && IsNullish(st.doc.fields, key)
          && pick(key, false).Some? && HasType(pick(key, false).value.value, t)
          && r.doc.fields == st.doc.fields[key := pick(key, false).value.value])
  {
  }

  /**
   * The backfill never changes a field it did not fill; it fills only fields that were
   * null or undefined, and each filled field holds a value of a type its schema entry
   * declares.
   */
  lemma {:induction false} FillOnlyNullFields(v: Variant, schema: Schema, n: nat, pick: Picker, classify: Classifier, d: Doc)
    requires n <= |schema|
    ensures var f := FillUpTo(v, schema, n, pick, classify, d);
      forall k :: k !in f.filled ==> Lookup(f.doc.fields, k) == Lookup(d.fields, k) && (k in f.doc.fields <==> k in d.fields)
    ensures var f := FillUpTo(v, schema, n, pick, classify, d);
      forall k :: k in f.filled ==>
        (IsNullish(d.fields, k) && k in f.doc.fields
         && exists i :: 0 <= i < n && schema[i].0 == k && HasType(f.doc.fields[k], schema[i].1))
  {
    if n > 0 {
      FillOnlyNullFields(v, schema, n - 1, pick, classify, d);
      var prev := FillUpTo(v, schema, n - 1, pick, classify, d);
      var key := schema[n - 1].0;
      StepKeyCases(v, key, schema[n - 1].1, pick, classify, prev);
      var f := FillUpTo(v, schema, n, pick, classify, d);
      assert f == StepKey(v, key, schema[n - 1].1, pick, classify, prev);
      assert FilledTyped(prev, schema, n - 1);
      FilledOneMore(v, schema, n, pick, classify, d);
      assert FilledTyped(f, schema, n);
      forall k | k !in f.filled
        ensures Lookup(f.doc.fields, k) == Lookup(d.fields, k) && (k in f.doc.fields <==> k in d.fields)
      {
        assert k !in prev.filled && (f.filled == prev.filled || k != key);
        assert (k in f.doc.fields <==> k in prev.doc.fields) && Lookup(f.doc.fields, k) == Lookup(prev.doc.fields, k);
      }
      forall k | k in f.filled
        ensures IsNullish(d.fields, k)
      {
        if k !in prev.filled {
          assert k == key && IsNullish(prev.doc.fields, key);
          assert Lookup(prev.doc.fields, k) == Lookup(d.fields, k) && (k in prev.doc.fields <==> k in d.fields);
        }
      }
    }
  }

  /** Every filled key holds a value of the type one of the first `n` schema entries declares for it. */
  ghost predicate FilledTyped(f: Fill, schema: Schema, n: nat)
    requires n <= |schema|
  {
    forall k :: k in f.filled ==>
      (k in f.doc.fields && exists i :: 0 <= i < n && schema[i].0 == k && HasType(f.doc.fields[k], schema[i].1))
  }

  /** The step that fills a key keeps what the earlier filled keys hold. */
  lemma FilledOneMore(v: Variant, schema: Schema, n: nat, pick: Picker, classify: Classifier, d: Doc)
    requires 0 < n <= |schema|
    requires FilledTyped(FillUpTo(v, schema, n - 1, pick, classify, d), schema, n - 1)
    ensures FilledTyped(FillUpTo(v, schema, n, pick, classify, d), schema, n)
  {
    var prev := FillUpTo(v, schema, n - 1, pick, classify, d);
    var key := schema[n - 1].0;
    StepKeyCases(v, key, schema[n - 1].1, pick, classify, prev);
    var f := FillUpTo(v, schema, n, pick, classify, d);
    assert f == StepKey(v, key, schema[n - 1].1, pick, classify, prev);
    forall k | k in f.filled
      ensures k in f.doc.fields && exists i :: 0 <= i < n && schema[i].0 == k && HasType(f.doc.fields[k], schema[i].1)
    {
      if k in prev.filled {
        var i :| 0 <= i < n - 1 && schema[i].0 == k && HasType(prev.doc.fields[k], schema[i].1);
        assert k != key ==> f.doc.fields[k] == prev.doc.fields[k];
        assert k == key ==> f.filled == prev.filled;
      } else {
        assert k == key && f.filled == prev.filled + [key];
        assert HasType(f.doc.fields[key], schema[n - 1].1);
      }
    }
  }

  /** A key still null after the loop was not filled by it. */
  lemma NullNotFilled(v: Variant, schema: Schema, n: nat, pick: Picker, classify: Classifier, d: Doc, key: string)
    requires n <= |schema|
    requires IsNullish(FillUpTo(v, schema, n, pick, classify, d).doc.fields, key)
    ensures key !in FillUpTo(v, schema, n, pick, classify, d).filled
  {
    FillOnlyNullFields(v, schema, n, pick, classify, d);
  }

  /** Which fields are null after the backfill: every stale-blocked key is still null. */
  lemma {:induction false} StaleStaysNull(v: Variant, schema: Schema, n: nat, pick: Picker, classify: Classifier, d: Doc)
    requires n <= |schema|
    ensures var f := FillUpTo(v, schema, n, pick, classify, d);
      forall k :: k in f.stale ==> IsNullish(f.doc.fields, k) && k !in f.filled && k in KeysOf(schema[..n]) && pick(k, false).None?
  {
    if n > 0 {
      StaleStaysNull(v, schema, n - 1, pick, classify, d);
      FillOnlyNullFields(v, schema, n - 1, pick, classify, d);
      var prev := FillUpTo(v, schema, n - 1, pick, classify, d);
      var key := schema[n - 1].0;
      StepKeyCases(v, key, schema[n - 1].1, pick, classify, prev);
      var f := FillUpTo(v, schema, n, pick, classify, d);
      assert f == StepKey(v, key, schema[n - 1].1, pick, classify, prev);
      assert KeysOf(schema[..n]) == KeysOf(schema[..n - 1]) + [key] by {
        assert schema[..n][..n - 1] == schema[..n - 1];
      }
      forall k | k in f.stale
        ensures IsNullish(f.doc.fields, k) && k !in f.filled && k in KeysOf(schema[..n]) && pick(k, false).None?
      {
        if k in prev.stale {
          assert k in KeysOf(schema[..n - 1]);
          assert pick(k, false).None?;
        } else {
          assert k == key && IsNullish(prev.doc.fields, key);
          NullNotFilled(v, schema, n - 1, pick, classify, d, key);
        }
      }
    }
  }

  /** The four provenance maps, each read through `|| {}`. */
  datatype StampKind = SourceStamp | ObservedStamp | FetchedStamp | UpdatedStamp

  function StampsOf(m: Meta, kind: StampKind): Stamps
  {
    match kind
    case SourceStamp => OrEmpty(m.sources)
    case ObservedStamp => OrEmpty(m.observedAt)
    case FetchedStamp => OrEmpty(m.fetchedAt)
    case UpdatedStamp => OrEmpty(m.updatedAt)
  }

  /** Filling one field writes only that field's stamps, only where they were falsy, with updatedAt defaulting to observedAt. */
  lemma ProvenanceTouchesOneKey(v: Variant, key: string, c: Candidate, m: Meta, classify: Classifier)
    ensures var r := Provenance(v, key, c, m, classify);
      forall kind, k :: k != key ==> Lookup(StampsOf(r, kind), k) == Lookup(StampsOf(m, kind), k)
    ensures var r := Provenance(v, key, c, m, classify);
      forall kind :: Truthy(Lookup(StampsOf(m, kind), key)) ==> Lookup(StampsOf(r, kind), key) == Lookup(StampsOf(m, kind), key)
    ensures var r := Provenance(v, key, c, m, classify);
      !Truthy(Lookup(StampsOf(m, UpdatedStamp), key)) ==>
        Lookup(StampsOf(r, UpdatedStamp), key) == Or(Lookup(StampsOf(r, ObservedStamp), key), Null)
  {
  }

  /** Every stamp that was truthy in `m`, or that belongs to a field `f` did not fill, is as in `m`. */
  ghost predicate StampsKept(m: Meta, f: Fill)
  {
    forall kind, k :: k !in f.filled || Truthy(Lookup(StampsOf(m, kind), k)) ==>
      Lookup(StampsOf(f.doc.meta, kind), k) == Lookup(StampsOf(m, kind), k)
  }

  /**
   * Over the whole loop: a stamp that was truthy, or that belongs to a field the loop did
   * not fill, is unchanged.
   */
  lemma {:induction false} FillKeepsStamps(v: Variant, schema: Schema, n: nat, pick: Picker, classify: Classifier, d: Doc)
    requires n <= |schema|
    ensures StampsKept(d.meta, FillUpTo(v, schema, n, pick, classify, d))
  {
    if n > 0 {
      FillKeepsStamps(v, schema, n - 1, pick, classify, d);
      var prev := FillUpTo(v, schema, n - 1, pick, classify, d);
      var f := FillUpTo(v, schema, n, pick, classify, d);
      var key := schema[n - 1].0;
      if f.filled != prev.filled {
        FillOnlyNullFields(v, schema, n - 1, pick, classify, d);
        ProvenanceTouchesOneKey(v, key, pick(key, false).value, prev.doc.meta, classify);
        assert key !in prev.filled;
        assert f.filled == prev.filled + [key];
        forall kind, k | k !in f.filled || Truthy(Lookup(StampsOf(d.meta, kind), k))
          ensures Lookup(StampsOf(f.doc.meta, kind), k) == Lookup(StampsOf(d.meta, kind), k)
        {
          assert Lookup(StampsOf(prev.doc.meta, kind), k) == Lookup(StampsOf(d.meta, kind), k);
        }
      } else {
        assert f.doc == prev.doc && f.filled == prev.filled;
        assert StampsKept(d.meta, prev);
        assert StampsKept(d.meta, f);
      }
    }
  }

  /** Every field `f` filled whose updatedAt was falsy in `m` carries its observedAt, or null, as updatedAt. */
  ghost predicate UpdatedDefaulted(m: Meta, f: Fill)
  {
    forall k :: k in f.filled && !Truthy(Lookup(StampsOf(m, UpdatedStamp), k)) ==>
      Lookup(StampsOf(f.doc.meta, UpdatedStamp), k) == Or(Lookup(StampsOf(f.doc.meta, ObservedStamp), k), Null)
  }

  /** A filled field whose updatedAt was falsy gets its observedAt (or null) as updatedAt. */
  lemma {:induction false} FillDefaultsUpdated(v: Variant, schema: Schema, n: nat, pick: Picker, classify: Classifier, d: Doc)
    requires n <= |schema|
    ensures UpdatedDefaulted(d.meta, FillUpTo(v, schema, n, pick, classify, d))
  {
    if n > 0 {
      FillDefaultsUpdated(v, schema, n - 1, pick, classify, d);
      FillKeepsStamps(v, schema, n - 1, pick, classify, d);
      var prev := FillUpTo(v, schema, n - 1, pick, classify, d);
      var key := schema[n - 1].0;
      if IsNullish(prev.doc.fields, key) {
        NullNotFilled(v, schema, n - 1, pick, classify, d, key);
      }
      assert key !in prev.filled ==> Lookup(StampsOf(prev.doc.meta, UpdatedStamp), key) == Lookup(StampsOf(d.meta, UpdatedStamp), key);
      UpdatedStep(v, key, schema[n - 1].1, pick, classify, prev, d.meta);
    }
  }

  /** One step keeps the updatedAt default: a newly filled field takes its observedAt. */
  lemma UpdatedStep(v: Variant, key: string, t: FieldType, pick: Picker, classify: Classifier, prev: Fill, m: Meta)
    requires UpdatedDefaulted(m, prev)
    requires key in prev.filled ==> !IsNullish(prev.doc.fields, key)
    requires key !in prev.filled ==> Lookup(StampsOf(prev.doc.meta, UpdatedStamp), key) == Lookup(StampsOf(m, UpdatedStamp), key)
    ensures UpdatedDefaulted(m, StepKey(v, key, t, pick, classify, prev))
  {
    StepKeyCases(v, key, t, pick, classify, prev);
    var f := StepKey(v, key, t, pick, classify, prev);
    if f.filled != prev.filled {
      ProvenanceTouchesOneKey(v, key, pick(key, false).value, prev.doc.meta, classify);
      assert f.doc.meta == Provenance(v, key, pick(key, false).value, prev.doc.meta, classify);
      forall k | k in f.filled && !Truthy(Lookup(StampsOf(m, UpdatedStamp), k))
        ensures Lookup(StampsOf(f.doc.meta, UpdatedStamp), k) == Or(Lookup(StampsOf(f.doc.meta, ObservedStamp), k), Null)
      {
        if k != key {
          assert k in prev.filled;
        }
      }
    } else {
      assert f.doc.meta == prev.doc.meta;
    }
  }

}
