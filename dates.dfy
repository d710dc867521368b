// Date keys. The scripts pass dates around as `YYYY-MM-DD` strings and compare them
// with `<` or `localeCompare`; for fixed-width calendar dates (the extended format
// of section 4.1.2.2 of ISO 8601:2004) that order is the chronological one, so a
// key that names a calendar day is modelled by its day number.

module Dates {
  import opened Values
  import opened Text

  /** `/^\d{4}-\d{2}-\d{2}$/.test(s)`: the whole string has the YYYY-MM-DD shape. */
  predicate IsIsoShape(s: string)
  {
    |s| == 10 && IsoDateAt(s)
  }

  /**
   * A date key: `Day(n)` is a YYYY-MM-DD key of a real calendar day, `n` days after
   * 1970-01-01; `Unparsed(text)` is any text that `new Date(text + "T00:00:00Z")` rejects.
   */
  datatype DateKey = Day(n: int) | Unparsed(text: string)

  /** `parseIsoDate` (scripts/backfill_history.mjs, src/ui/eval.js): the day, or null. */
  function ParseIsoDate(k: DateKey): (r: Option<int>)
    ensures r.Some? <==> k.Day?
    ensures r.Some? ==> k == Day(r.value)
  {
    match k
    case Day(n) => Some(n)
    case Unparsed(_) => None
  }

  /** `isoDaysAgo(offset, base)`: `offset` UTC days earlier; an unparseable base comes back unchanged. */
  function IsoDaysAgo(offset: int, base: DateKey): (r: DateKey)
    ensures ParseIsoDate(base).None? ==> r == base
    ensures ParseIsoDate(base).Some? ==> ParseIsoDate(r) == Some(ParseIsoDate(base).value - offset)
  {
    match base
    case Day(n) => Day(n - offset)
    case Unparsed(_) => base
  }

  /** `previousDateKey`: one UTC day earlier, or the input unchanged when it does not parse. */
  function PreviousDateKey(k: DateKey): (r: DateKey)
    ensures k.Unparsed? ==> r == k
    ensures k.Day? ==> r.Day? && r.n + 1 == k.n
  {
    IsoDaysAgo(1, k)
  }

  /** `addDays` (src/ui/eval.js): null for an unparseable key, else the shifted key. */
  function AddDays(k: DateKey, days: int): (r: Option<DateKey>)
    ensures r.None? <==> k.Unparsed?
    ensures r.Some? ==> r.value == IsoDaysAgo(-days, k)
  {
    match k
    case Day(n) => Some(Day(n + days))
    case Unparsed(_) => None
  }
}
