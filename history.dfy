// History records and the order-based queries the scripts run over them
// (scripts/backfill_history.mjs, scripts/daily_autorun.mjs).

module History {
  import opened Values
  import opened Order

  /** A stored record `{date, input, output}`; its date key names a calendar day (see Dates). */
  datatype Entry = Entry(date: int, input: Record, output: Record)

  function DateOf(e: Entry): int { e.date }

  function Before(date: int): Entry -> bool
  {
    (e: Entry) => e.date < date
  }

  function OtherDate(date: int): Entry -> bool
  {
    (e: Entry) => e.date != date
  }

  /** `history.find((item) => item.date === day)`: the first record of that day. */
  function FindDate(history: seq<Entry>, day: int): (r: Option<Entry>)
    ensures r.Some? ==> r.value in history && r.value.date == day
    ensures r.Some? ==> exists i :: 0 <= i < |history| && history[i] == r.value && forall j :: 0 <= j < i ==> history[j].date != day
    ensures r.None? <==> forall e :: e in history ==> e.date != day
  {
    if history == [] then None
    else if history[0].date == day then Some(history[0])
    else
      assert forall e :: e in history ==> e == history[0] || e in history[1..];
      var r := FindDate(history[1..], day);
      assert r.Some? ==> exists i :: 0 <= i < |history| - 1 && history[1..][i] == r.value && forall j :: 0 <= j < i ==> history[1..][j].date != day;
      r
  }

  /**
   * `latestRecordBefore`: the records strictly before `date`, sorted by date, and the last
   * of them; null when there is none.
   */
  function LatestRecordBefore(history: seq<Entry>, date: int): (r: Option<Entry>)
    ensures r.Some? ==> r.value in history && r.value.date < date
    ensures r.Some? ==> forall e :: e in history && e.date < date ==> e.date <= r.value.date
    ensures r.None? <==> forall e :: e in history ==> e.date >= date
  {
    var earlier := Filter(history, Before(date));
    var sorted := SortBy(earlier, DateOf);
    SameMembers(sorted, earlier);
    if sorted == [] then
      assert earlier == [];
      None
    else
      SortedEnds(sorted, DateOf);
      Some(sorted[|sorted| - 1])
  }

  /**
   * `mergeHistory`: drop every record with the new record's date, append the new record
   * and sort by date.
   */
  function MergeHistory(history: seq<Entry>, record: Entry): (r: seq<Entry>)
    ensures SortedBy(r, DateOf)
    ensures multiset(r) == multiset(Filter(history, OtherDate(record.date))) + multiset{record}
  {
    SortBy(Filter(history, OtherDate(record.date)) + [record], DateOf)
  }

  /** The merged history holds the new record once, as the only record of its date, and every record of another date. */
  lemma MergeHistoryContents(history: seq<Entry>, record: Entry)
    ensures record in MergeHistory(history, record)
    ensures multiset(MergeHistory(history, record))[record] == 1
    ensures forall e :: e in MergeHistory(history, record) && e.date == record.date ==> e == record
    ensures forall e :: e in history && e.date != record.date ==> e in MergeHistory(history, record)
    ensures forall e :: e in MergeHistory(history, record) ==> e == record || e in history
  {
    var kept := Filter(history, OtherDate(record.date));
    var r := MergeHistory(history, record);
    assert record !in kept;
    assert multiset(kept)[record] == 0;
    assert multiset(kept + [record]) == multiset(r);
    SameMembers(r, kept + [record]);
    forall e | e in r
      ensures e == record || (e in kept && e.date != record.date)
    {
      assert e in kept + [record];
    }
  }
}
