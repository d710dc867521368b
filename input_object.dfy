// The input object that the page and the two scripts build for one date and then update
// in place before the decision engine runs. Each method is proved to leave the object
// exactly as the matching function of module Inputs describes.

module InputObjects {
  import opened Values
  import opened Inputs

  class InputObject {
    /** The ordinary keys: schema fields, `date`, derived fields. */
    var fields: Record
    /** The `__`-prefixed metadata keys. */
    var meta: Meta

    /** The object as a value. */
    function Current(): Doc
      reads this
    {
      Doc(fields, meta)
    }

    constructor(d: Doc)
      ensures Current() == d
    {
      fields := d.fields;
      meta := d.meta;
    }

    /**
     * `refreshMissingFields`: recompute `__missing` as the schema keys, in order, that are null
     * or undefined; anything but an array of keys gives [] and leaves the object alone.
     */
    method RefreshMissingFields(schemaKeys: Option<seq<string>>) returns (missing: seq<string>)
      modifies this
      ensures missing == MissingFieldsOf(old(fields), schemaKeys)
      ensures fields == old(fields)
      ensures schemaKeys.Some? ==> meta == old(meta).(missing := missing)
      ensures schemaKeys.None? ==> meta == old(meta)
    {
      missing := MissingFieldsOf(fields, schemaKeys);
      if schemaKeys.Some? {
        meta := meta.(missing := missing);
      }
    }

    /** `coerceInputTypes`: coerce every schema field in place, one entry at a time. */
    method CoerceInputTypes(schema: Schema)
      modifies this
      ensures fields == CoercedFields(schema, old(fields))
      ensures meta == old(meta)
    {
      var i := 0;
      while i < |schema|
        invariant 0 <= i <= |schema|
        invariant fields == CoerceUpTo(schema, i, old(fields))
        invariant meta == old(meta)
      {
        var (key, t) := schema[i];
        if !IsNullish(fields, key) {
          fields := fields[key := CoerceValue(fields[key], t)];
        }
        i := i + 1;
      }
    }

    /** `hydrateMetadata` (scripts/backfill_history.mjs): copy the payload's metadata onto the object. */
    method HydrateFromPayload(p: Received)
      modifies this
      ensures Current() == HydrateMetadata(old(Current()), p)
    {
      meta := Meta(Some(OrEmpty(p.sources)), Some(OrEmpty(p.fieldObservedAt)), Some(OrEmpty(p.fieldFetchedAt)),
        Some(OrEmpty(p.fieldUpdatedAt)), meta.freshness,
        if p.missing.Some? then p.missing.value else [], if p.errors.Some? then p.errors.value else [],
        Or(p.generatedAt, Null), Or(p.targetDate, Null));
    }

    /**
     * `fillEthSpotPriceFromSeed`: write the seed close into a missing or unusable price,
     * with its source label and stamps; `now` is the clock reading stored as fetch time.
     */
    method FillEthSpotPriceFromSeed(priceByDate: Option<map<string, Value>>, dateKey: string, now: Value) returns (filled: bool)
      modifies this
      ensures (Current(), filled) == SeedFilled(old(Current()), priceByDate, dateKey, now)
    {
      if priceByDate.None? || dateKey == "" || UsablePrice(fields) {
        return false;
      }
      var close := ResolveSeedClose(priceByDate, dateKey);
      if close.None? {
        return false;
      }
      fields := fields["ethSpotPrice" := Num(close.value)];
      var stamp := Str(dateKey + "T00:00:00Z");
      meta := meta.(sources := Some(OrEmpty(meta.sources)["ethSpotPrice" := Str(SeedSource)]),
                    observedAt := Some(OrEmpty(meta.observedAt)["ethSpotPrice" := stamp]),
                    updatedAt := Some(OrEmpty(meta.updatedAt)["ethSpotPrice" := stamp]),
                    fetchedAt := Some(OrEmpty(meta.fetchedAt)["ethSpotPrice" := now]));
      return true;
    }

    /** The provenance writes for one filled field: each stamp only where it is falsy. */
    method WriteProvenance(v: Variant, key: string, c: Candidate, classify: Classifier)
      modifies this
      ensures fields == old(fields)
      ensures meta == Provenance(v, key, c, old(meta), classify)
    {
      var sources := OrEmpty(meta.sources);
      var observed := OrEmpty(meta.observedAt);
      var fetched := OrEmpty(meta.fetchedAt);
      var updated := OrEmpty(meta.updatedAt);
      if !Truthy(Lookup(sources, key)) {
        sources := sources[key := Or(c.source, Str("History cache: " + c.date))];
      }
      if !Truthy(Lookup(observed, key)) {
        observed := observed[key := Or(c.observedAt, Null)];
      }
      if !Truthy(Lookup(fetched, key)) {
        fetched := fetched[key := Or(c.fetchedAt, Or(c.observedAt, Null))];
      }
      if !Truthy(Lookup(updated, key)) {
        updated := updated[key := Or(Lookup(observed, key), Null)];
      }
      var freshness := meta.freshness;
      meta := meta.(sources := Some(sources), observedAt := Some(observed), fetchedAt := Some(fetched), updatedAt := Some(updated));
      match v
      case AppPage =>
        meta := meta.(freshness := Some(OrEmpty(freshness)[key := Or(c.freshness, Null)]));
      case BackfillScript =>
      case DailyScript =>
        meta := meta.(freshness := Some(OrEmpty(freshness)[key := classify(StampFor(meta, key), key)]));
    }

    /** `hydrateFieldFreshness` (page only): classify every schema field's stamp. */
    method HydrateFieldFreshness(schema: Schema, classify: Classifier)
      modifies this
      ensures fields == old(fields)
      ensures meta == HydrateUpTo(schema, |schema|, classify, old(meta))
    {
      meta := meta.(freshness := Some(OrEmpty(meta.freshness)));
      var i := 0;
      while i < |schema|
        invariant 0 <= i <= |schema|
        invariant fields == old(fields)
        invariant meta == HydrateUpTo(schema, i, classify, old(meta))
      {
        var key := schema[i].0;
        meta := meta.(freshness := Some(meta.freshness.value[key := classify(StampFor(meta, key), key)]));
        i := i + 1;
      }
    }

    /** One schema entry of `backfillMissingFromHistory`. */
    method FillKey(v: Variant, key: string, t: FieldType, pick: Picker, classify: Classifier,
                   filled: seq<string>, stale: seq<string>) returns (filled': seq<string>, stale': seq<string>)
      modifies this
      ensures Fill(Current(), filled', stale') == StepKey(v, key, t, pick, classify, Fill(old(Current()), filled, stale))
    {
      filled', stale' := filled, stale;
      if IsNullish(fields, key) {
        var candidate := pick(key, false);
        if candidate.None? {
          if IsStale(pick(key, true)) {
            stale' := stale + [key];
          }
        } else if HasType(candidate.value.value, t) {
          fields := fields[key := candidate.value.value];
          filled' := filled + [key];
          WriteProvenance(v, key, candidate.value, classify);
        }
      }
    }

    /**
     * `backfillMissingFromHistory`: fill null fields from history one schema entry at a
     * time, then (page only) re-classify freshness, then append the aggregated notes.
     * Returns the filled keys.
     */
    method BackfillMissingFromHistory(v: Variant, schema: Schema, pick: Picker, classify: Classifier) returns (filled: seq<string>)
      modifies this
      ensures (Current(), filled) == Backfilled(v, schema, pick, classify, old(Current()))
    {
      ghost var start := Current();
      filled := [];
      var stale: seq<string> := [];
      var i := 0;
      while i < |schema|
        invariant 0 <= i <= |schema|
        invariant Fill(Current(), filled, stale) == FillUpTo(v, schema, i, pick, classify, start)
      {
        filled, stale := FillKey(v, schema[i].0, schema[i].1, pick, classify, filled, stale);
        i := i + 1;
      }
      ghost var looped := Fill(Current(), filled, stale);
      FillKeepsLists(v, schema, |schema|, pick, classify, start);
      if v == AppPage {
        HydrateFieldFreshness(schema, classify);
      }
      var notes: seq<string> := [];
      if v == AppPage && filled != [] {
        notes := notes + [FilledNote(filled)];
      }
      if stale != [] {
        notes := notes + [StaleNote(v, stale)];
      }
      assert notes == BackfillNotes(v, looped);
      meta := meta.(errors := meta.errors + notes);
    }
  }
}
