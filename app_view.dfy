// Helpers of the page (src/app.js) that are not shared with the scripts: the CSV export
// of the history, the date check on the cached AI explanation, and the trust level shown
// beside a run.

module AppView {
  import opened Values
  import opened Text
  import opened Order
  import opened History
  import opened Inputs

  // ---------------------------------------------------------------- CSV export

  const CsvHeaders: seq<string> :=
    ["date", "state", "beta", "betaCap", "hedge", "phaseLabel", "confidence", "extremeAllowed", "fofScore"]

  /**
   * How a cell prints: `show` is JavaScript's string conversion of a value, which lies
   * outside this model; `join` prints null and undefined as the empty string.
   */
  function CellText(v: Value, show: Value -> string): string
  {
    if v == Null then "" else show(v)
  }

  /** The nine cells of one record: date, state, beta, cap, hedge ON/OFF, phase, confidence, extreme YES/NO, score. */
  function CsvCells(e: Entry, dayText: int -> string, show: Value -> string): (r: seq<string>)
    ensures |r| == |CsvHeaders| == 9
    ensures r[0] == dayText(e.date)
    ensures r[4] == (if Truthy(Lookup(e.output, "hedge")) then "ON" else "OFF")
    ensures r[7] == (if Truthy(Lookup(e.output, "extremeAllowed")) then "YES" else "NO")
    ensures forall i :: 0 <= i < 9 && i != 0 && i != 4 && i != 7 ==> r[i] == CellText(Lookup(e.output, CsvHeaders[i]), show)
  {
    [dayText(e.date), CellText(Lookup(e.output, "state"), show), CellText(Lookup(e.output, "beta"), show),
     CellText(Lookup(e.output, "betaCap"), show), if Truthy(Lookup(e.output, "hedge")) then "ON" else "OFF",
     CellText(Lookup(e.output, "phaseLabel"), show), CellText(Lookup(e.output, "confidence"), show),
     if Truthy(Lookup(e.output, "extremeAllowed")) then "YES" else "NO", CellText(Lookup(e.output, "fofScore"), show)]
  }

  function CsvRows(records: seq<Entry>, dayText: int -> string, show: Value -> string): (r: seq<string>)
    ensures |r| == |records|
    ensures forall i :: 0 <= i < |r| ==> r[i] == Join(CsvCells(records[i], dayText, show), ",")
  {
    if records == [] then [] else [Join(CsvCells(records[0], dayText, show), ",")] + CsvRows(records[1..], dayText, show)
  }

  /** The text of the export for records already in order: the header line, then one line per record. */
  function CsvText(records: seq<Entry>, dayText: int -> string, show: Value -> string): string
  {
    Join([Join(CsvHeaders, ",")] + CsvRows(records, dayText, show), "\n")
  }

  /**
   * `buildCsv`: sort the history array in place by date (a stable sort), then print it.
   * The caller's array stays sorted afterwards.
   */
  method BuildCsv(history: array<Entry>, dayText: int -> string, show: Value -> string) returns (csv: string)
    modifies history
    ensures history[..] == SortBy(old(history[..]), DateOf)
    ensures csv == CsvText(history[..], dayText, show)
  {
    var sorted := SortBy(history[..], DateOf);
    WriteAll(history, sorted);
    csv := CsvText(history[..], dayText, show);
  }

  /** Overwrite the array with `s`, one slot at a time. */
  method WriteAll(a: array<Entry>, s: seq<Entry>)
    requires |s| == a.Length
    modifies a
    ensures a[..] == s
  {
    for i := 0 to a.Length
      invariant forall k :: 0 <= k < i ==> a[k] == s[k]
    {
      a[i] := s[i];
    }
  }

  /** A record prints on one line when no day text and no printed value holds a line break. */
  predicate OneLineCells(records: seq<Entry>, dayText: int -> string, show: Value -> string)
  {
    forall i, k :: 0 <= i < |records| && 0 <= k < 9 ==> '\n' !in CsvCells(records[i], dayText, show)[k]
  }

  lemma HeaderOneLine()
    ensures '\n' !in Join(CsvHeaders, ",")
  {
    assert forall i :: 0 <= i < |CsvHeaders| ==> '\n' !in CsvHeaders[i];
    JoinAvoids(CsvHeaders, ",", '\n');
  }

  /**
   * The export has one line per record after the header, each the comma-joined cells of
   * that record, in the order of the sorted records (so dates ascend line by line).
   */
  lemma CsvLines(records: seq<Entry>, dayText: int -> string, show: Value -> string)
    requires OneLineCells(records, dayText, show)
    ensures var lines := Split(CsvText(records, dayText, show), '\n');
      |lines| == |records| + 1 && lines[0] == Join(CsvHeaders, ",")
      && forall i :: 0 <= i < |records| ==> lines[i + 1] == Join(CsvCells(records[i], dayText, show), ",")
  {
    var rows := CsvRows(records, dayText, show);
    forall i | 0 <= i < |rows|
      ensures '\n' !in rows[i]
    {
      var cells := CsvCells(records[i], dayText, show);
      assert forall k :: 0 <= k < |cells| ==> '\n' !in cells[k];
      JoinAvoids(cells, ",", '\n');
    }
    HeaderOneLine();
    var lines := [Join(CsvHeaders, ",")] + rows;
    assert forall i :: 0 <= i < |lines| ==> '\n' !in lines[i] by {
      forall i | 0 <= i < |lines|
        ensures '\n' !in lines[i]
      {
        if i > 0 {
          assert lines[i] == rows[i - 1];
        }
      }
    }
    JoinSplit(lines, '\n');
  }

  // ---------------------------------------------------------------- cached AI explanation

  /** The cached AI explanation: the date it was made for ("" when undated) and its body. */
  datatype AiCache = AiCache(date: string, body: Value)

  /**
   * `aiCacheForDate`: nothing without a cache; the cache itself when no date is asked for
   * or the cache is undated; otherwise the cache only when its date is the one asked for.
   */
  function AiCacheForDate(cached: Option<AiCache>, date: string): (r: Option<AiCache>)
    ensures r.Some? ==> r == cached
    ensures r.None? <==> cached.None? || (date != "" && cached.value.date != "" && cached.value.date != date)
    ensures r.Some? && date != "" && r.value.date != "" ==> r.value.date == date
  {
    if cached.None? then None
    else if date == "" then cached
    else if cached.value.date == "" then cached
    else if cached.value.date == date then cached
    else None
  }

  // ---------------------------------------------------------------- trust level

  /** `/fallback|blocked|cloudflare|rate limit|历史日期回抓|仅支持最新数据/i`: a note that does not make a run untrustworthy. */
  predicate SoftError(err: string)
  {
    var lowered := Lower(err);
    Contains(lowered, "fallback") || Contains(lowered, "blocked") || Contains(lowered, "cloudflare")
    || Contains(lowered, "rate limit") || Contains(err, "历史日期回抓") || Contains(err, "仅支持最新数据")
  }

  /** The trust shown for a run, with its label and its style class. */
  datatype Trust = TrustOk | TrustWarn | TrustFail
  {
    function Label(): string
    {
      match this
      case TrustOk => "OK"
      case TrustWarn => "WARN"
      case TrustFail => "FAIL"
    }

    function Level(): string
    {
      match this
      case TrustOk => "ok"
      case TrustWarn => "warn"
      case TrustFail => "danger"
    }

    function Rank(): nat
    {
      match this
      case TrustOk => 0
      case TrustWarn => 1
      case TrustFail => 2
    }
  }

  /** Every error is a soft one (`errors.every(soft)`). */
  function AllSoft(errors: seq<string>): (r: bool)
    ensures r <==> forall i :: 0 <= i < |errors| ==> SoftError(errors[i])
  {
    if errors == [] then true else SoftError(errors[0]) && AllSoft(errors[1..])
  }

  /**
   * The trust rule of `updateRunMetaFromRecord`: FAIL when some note is not soft, else
   * WARN when fields are missing or there are (soft) notes, else OK.
   */
  function TrustOf(errors: seq<string>, missing: seq<string>): (r: Trust)
    ensures r == TrustFail <==> exists i :: 0 <= i < |errors| && !SoftError(errors[i])
    ensures r == TrustWarn <==> (forall i :: 0 <= i < |errors| ==> SoftError(errors[i])) && (errors != [] || missing != [])
    ensures r == TrustOk <==> errors == [] && missing == []
  {
    var softOnly := |errors| > 0 && AllSoft(errors);
    if |errors| > 0 && !softOnly then TrustFail
    else if |missing| > 0 || softOnly then TrustWarn
    else TrustOk
  }

  /** One more note or one more missing field never raises the shown trust. */
  lemma TrustMonotone(errors: seq<string>, missing: seq<string>, e: string, k: string)
    ensures TrustOf(errors + [e], missing).Rank() >= TrustOf(errors, missing).Rank()
    ensures TrustOf(errors, missing + [k]).Rank() >= TrustOf(errors, missing).Rank()
    ensures TrustOf(errors, missing + [k]) != TrustOk
  {
    var more := errors + [e];
    if TrustOf(errors, missing) == TrustFail {
      var i :| 0 <= i < |errors| && !SoftError(errors[i]);
      assert more[i] == errors[i];
    }
  }

  /** The trust depends on the notes only through which of them there are. */
  lemma TrustOrderFree(e1: seq<string>, e2: seq<string>, missing: seq<string>)
    requires multiset(e1) == multiset(e2)
    ensures TrustOf(e1, missing) == TrustOf(e2, missing)
  {
    SameMembers(e1, e2);
    assert |e1| == |multiset(e1)| == |e2|;
    assert (exists i :: 0 <= i < |e1| && !SoftError(e1[i])) <==> (exists x :: x in e1 && !SoftError(x));
    assert (exists i :: 0 <= i < |e2| && !SoftError(e2[i])) <==> (exists x :: x in e2 && !SoftError(x));
  }
}
