// Date-indexed views over the stored history: the auto-run check (src/autoRun.js), the
// timeline index and series (src/ui/timeline.js) and the date window (src/ui/historyWindow.js).
// Date keys are day numbers, so `localeCompare` on `YYYY-MM-DD` keys is integer comparison.

module Timeline {
  import opened Values
  import opened Order
  import opened History

  function NegDateOf(e: Entry): int { -e.date }

  // ---------------------------------------------------------------- src/autoRun.js

  /** `shouldAutoRun`: no history, or the newest record (of a copy sorted newest first) is not today's. */
  function ShouldAutoRun(history: seq<Entry>, today: int): bool
  {
    history == [] || SortBy(history, NegDateOf)[0].date != today
  }

  /** The newest-first sort puts a record with the greatest date first. */
  lemma NewestFirst(history: seq<Entry>)
    requires history != []
    ensures SortBy(history, NegDateOf)[0].date == MaxKey(history, DateOf)
  {
    var sorted := SortBy(history, NegDateOf);
    SortedEnds(sorted, NegDateOf);
    SameMembers(sorted, history);
    var m := MaxKey(history, DateOf);
    var x :| x in history && x.date == m;
    assert x in sorted;
    assert sorted[0] in history;
  }

  /** No auto-run exactly when some record is today's and none is later. */
  lemma ShouldAutoRunIff(history: seq<Entry>, today: int)
    ensures !ShouldAutoRun(history, today) <==> history != [] && MaxKey(history, DateOf) == today
  {
    if history != [] {
      NewestFirst(history);
    }
  }

  /** The decision depends only on which records there are, not on their order. */
  lemma ShouldAutoRunOrderFree(h1: seq<Entry>, h2: seq<Entry>, today: int)
    requires multiset(h1) == multiset(h2)
    ensures ShouldAutoRun(h1, today) == ShouldAutoRun(h2, today)
  {
    ShouldAutoRunIff(h1, today);
    ShouldAutoRunIff(h2, today);
    if h1 != [] {
      MaxKeySameMembers(h1, h2, DateOf);
    } else {
      assert |h2| == |multiset(h2)| == 0;
    }
  }

  // ---------------------------------------------------------------- src/ui/timeline.js

  /** `e` is the record at some position `i` of `records`, of date `d`, and no later record has that date. */
  predicate LastOfDate(records: seq<Entry>, d: int, e: Entry)
  {
    exists i :: 0 <= i < |records| && records[i] == e && e.date == d
      && forall j :: i < j < |records| ==> records[j].date != d
  }

  /** `new Map(records.map((item) => [item.date, item]))`: a later record of the same date wins. */
  function IndexByDate(records: seq<Entry>): (r: map<int, Entry>)
    ensures forall d :: d in r <==> exists e :: e in records && e.date == d
    ensures forall d :: d in r ==> r[d] in records && r[d].date == d
  {
    if records == [] then map[]
    else
      var n := |records| - 1;
      var front := IndexByDate(records[..n]);
      assert records == records[..n] + [records[n]];
      front[records[n].date := records[n]]
  }

  /** The entry of a date is the last record of that date. */
  lemma {:induction false} IndexLastWins(records: seq<Entry>, d: int)
    requires d in IndexByDate(records)
    ensures LastOfDate(records, d, IndexByDate(records)[d])
  {
    var n := |records| - 1;
    var e := IndexByDate(records)[d];
    if d == records[n].date {
      assert records[n] == e;
    } else {
      var front := records[..n];
      assert IndexByDate(records)[d] == IndexByDate(front)[d];
      IndexLastWins(front, d);
      var i :| 0 <= i < n && front[i] == e && e.date == d && forall j :: i < j < n ==> front[j].date != d;
      assert records[i] == e;
      forall j | i < j < |records|
        ensures records[j].date != d
      {
        if j < n { assert front[j] == records[j]; }
      }
    }
  }

  /** The date of each record, in order. */
  function DatesOf(records: seq<Entry>): (r: seq<int>)
    ensures |r| == |records|
  {
    if records == [] then [] else [records[0].date] + DatesOf(records[1..])
  }

  lemma {:induction false} DatesOfAt(records: seq<Entry>)
    ensures forall i :: 0 <= i < |records| ==> DatesOf(records)[i] == records[i].date
  {
    if records != [] {
      DatesOfAt(records[1..]);
    }
  }

  lemma {:induction false} DatesOfAppend(a: seq<Entry>, b: seq<Entry>)
    ensures DatesOf(a + b) == DatesOf(a) + DatesOf(b)
  {
    if a != [] {
      assert (a + b)[1..] == a[1..] + b;
      DatesOfAppend(a[1..], b);
    } else {
      assert a + b == b;
    }
  }

  /** Inserting a record adds its date to the dates. */
  lemma {:induction false} DatesOfInsert(x: Entry, t: seq<Entry>)
    requires SortedBy(t, DateOf)
    ensures multiset(DatesOf(InsertBy(x, t, DateOf))) == multiset(DatesOf(t)) + multiset{x.date}
  {
    if t == [] {
      assert InsertBy(x, t, DateOf) == [x];
      DatesOfCons(x, []);
    } else if x.date < t[0].date {
      assert InsertBy(x, t, DateOf) == [x] + t;
      DatesOfCons(x, t);
    } else {
      InsertByTail(x, t);
      DatesOfInsert(x, t[1..]);
      DatesOfBehindHead(t[0], InsertBy(x, t[1..], DateOf), t[1..], x.date);
      HeadTail(t);
    }
  }

  /** A record not before the head is inserted into the tail. */
  lemma InsertByTail(x: Entry, t: seq<Entry>)
    requires SortedBy(t, DateOf) && t != [] && !(x.date < t[0].date)
    ensures SortedBy(t[1..], DateOf)
    ensures InsertBy(x, t, DateOf) == [t[0]] + InsertBy(x, t[1..], DateOf)
  {
    assert forall i :: 0 <= i < |t| - 1 ==> t[1..][i] == t[i + 1];
  }

  lemma DatesOfCons(x: Entry, t: seq<Entry>)
    ensures multiset(DatesOf([x] + t)) == multiset(DatesOf(t)) + multiset{x.date}
  {
    assert ([x] + t)[1..] == t;
  }

  /** A date gained behind a common head stays gained. */
  lemma DatesOfBehindHead(h: Entry, rest: seq<Entry>, t: seq<Entry>, d: int)
    requires multiset(DatesOf(rest)) == multiset(DatesOf(t)) + multiset{d}
    ensures multiset(DatesOf([h] + rest)) == multiset(DatesOf([h] + t)) + multiset{d}
  {
    DatesOfCons(h, rest);
    DatesOfCons(h, t);
  }

  /** The sorted copy has the same dates, as often each. */
  lemma {:induction false} DatesOfSort(s: seq<Entry>)
    ensures multiset(DatesOf(SortBy(s, DateOf))) == multiset(DatesOf(s))
  {
    if s != [] {
      var n := |s| - 1;
      FrontLast(s);
      DatesOfSort(s[..n]);
      DatesOfInsert(s[n], SortBy(s[..n], DateOf));
      DatesOfAppend(s[..n], [s[n]]);
      assert DatesOf([s[n]]) == [s[n].date];
    }
  }

  datatype TimelineIndex = TimelineIndex(dates: seq<int>, index: map<int, Entry>, latestDate: Option<int>, earliestDate: Option<int>)

  /** The oldest-first copy starts with an earliest record and ends with a latest one. */
  lemma OldestFirstEnds(history: seq<Entry>)
    requires history != []
    ensures var s := SortBy(history, DateOf);
      s[0] in history && s[|s| - 1] in history && s[|s| - 1].date == MaxKey(history, DateOf)
      && forall e :: e in history ==> s[0].date <= e.date
  {
    var sorted := SortBy(history, DateOf);
    SortedEnds(sorted, DateOf);
    SameMembers(sorted, history);
    var m := MaxKey(history, DateOf);
    var x :| x in history && x.date == m;
    assert x in sorted;
  }

  /** `buildTimelineIndex`: the dates of a copy sorted oldest first, the date index, and the two ends. */
  function BuildTimelineIndex(history: seq<Entry>): (r: TimelineIndex)
    ensures |r.dates| == |history|
    ensures forall i, j :: 0 <= i < j < |r.dates| ==> r.dates[i] <= r.dates[j]
    ensures r.latestDate.None? <==> history == []
    ensures r.earliestDate.None? <==> history == []
    ensures r.latestDate.Some? ==> r.latestDate.value == MaxKey(history, DateOf)
    ensures r.earliestDate.Some? ==> forall e :: e in history ==> r.earliestDate.value <= e.date
    ensures r.earliestDate.Some? ==> exists e :: e in history && e.date == r.earliestDate.value
    ensures forall d :: d in r.index <==> exists e :: e in history && e.date == d
    ensures forall d :: d in r.index ==> r.index[d] in history && r.index[d].date == d
  {
    var sorted := SortBy(history, DateOf);
    SameMembers(sorted, history);
    var dates := DatesOf(sorted);
    DatesOfAt(sorted);
    if history == [] then TimelineIndex([], map[], None, None)
    else
      OldestFirstEnds(history);
      TimelineIndex(dates, IndexByDate(sorted), Some(dates[|dates| - 1]), Some(dates[0]))
  }

  /** The timeline's dates are the history's dates, as often each. */
  lemma TimelineDatesPermute(history: seq<Entry>)
    ensures multiset(BuildTimelineIndex(history).dates) == multiset(DatesOf(history))
  {
    DatesOfSort(history);
  }

  /** The index keeps, for each date, the last record of that date in the oldest-first copy. */
  lemma TimelineIndexLastWins(history: seq<Entry>, d: int)
    requires d in BuildTimelineIndex(history).index
    ensures LastOfDate(SortBy(history, DateOf), d, BuildTimelineIndex(history).index[d])
  {
    if history != [] {
      IndexLastWins(SortBy(history, DateOf), d);
    }
  }

  /** `pickRecordByDate`: nothing for a falsy date, else the first record of that date. */
  function PickRecordByDate(history: seq<Entry>, date: Option<int>): (r: Option<Entry>)
    ensures date.None? ==> r.None?
    ensures r.Some? ==> r.value in history && r.value.date == date.value
    ensures date.Some? && r.None? ==> forall e :: e in history ==> e.date != date.value
    ensures r.Some? ==> exists i :: 0 <= i < |history| && history[i] == r.value && forall j :: 0 <= j < i ==> history[j].date != date.value
  {
    if date.None? then None else FindDate(history, date.value)
  }

  function AbsInt(x: int): nat { if x < 0 then -x else x }

  /** Index `i` of `dates` is nearest to `target`, and no earlier index is as near. */
  predicate NearestAt(dates: seq<int>, target: int, i: int)
  {
    0 <= i < |dates|
    && (forall j :: 0 <= j < |dates| ==> AbsInt(dates[i] - target) <= AbsInt(dates[j] - target))
    && (forall j :: 0 <= j < i ==> AbsInt(dates[j] - target) > AbsInt(dates[i] - target))
  }

  /**
   * `nearestDate`: nothing for no dates or no target; else the date nearest the target,
   * the earliest position winning a tie.
   */
  method NearestDate(dates: seq<int>, target: Option<int>) returns (best: Option<int>)
    ensures best.None? <==> dates == [] || target.None?
    ensures best.Some? ==> exists i :: NearestAt(dates, target.value, i) && dates[i] == best.value
  {
    if dates == [] || target.None? {
      return None;
    }
    var t := target.value;
    var bi := 0;
    var bestDelta := AbsInt(dates[0] - t);
    for k := 0 to |dates|
      invariant 0 <= bi < |dates| && bi <= k
      invariant bestDelta == AbsInt(dates[bi] - t)
      invariant forall j :: 0 <= j < k ==> bestDelta <= AbsInt(dates[j] - t)
      invariant forall j :: 0 <= j < bi ==> AbsInt(dates[j] - t) > bestDelta
    {
      var delta := AbsInt(dates[k] - t);
      if delta < bestDelta {
        bi := k;
        bestDelta := delta;
      }
    }
    assert NearestAt(dates, t, bi);
    return Some(dates[bi]);
  }

  /** One point of a chart series. */
  datatype Point = Point(date: int, value: Value)

  function PointsOf(records: seq<Entry>, accessor: Option<Entry -> Value>): (r: seq<Point>)
    ensures |r| == |records|
    ensures forall i :: 0 <= i < |r| ==> r[i].date == records[i].date
    ensures forall i :: 0 <= i < |r| ==> r[i].value == (if accessor.Some? then accessor.value(records[i]) else Null)
  {
    if records == [] then []
    else [Point(records[0].date, if accessor.Some? then accessor.value(records[0]) else Null)] + PointsOf(records[1..], accessor)
  }

  /** `buildSeries`: one point per record of a copy sorted oldest first; null values when there is no accessor. */
  function BuildSeries(history: seq<Entry>, accessor: Option<Entry -> Value>): (r: seq<Point>)
    ensures |r| == |history|
    ensures forall i, j :: 0 <= i < j < |r| ==> r[i].date <= r[j].date
    ensures accessor.None? ==> forall i :: 0 <= i < |r| ==> r[i].value == Null
    ensures accessor.Some? ==> forall i :: 0 <= i < |r| ==> exists e :: e in history && r[i] == Point(e.date, accessor.value(e))
  {
    var sorted := SortBy(history, DateOf);
    SameMembers(sorted, history);
    var r := PointsOf(sorted, accessor);
    assert forall i :: 0 <= i < |r| ==> sorted[i] in history;
    r
  }

  // ---------------------------------------------------------------- src/ui/historyWindow.js

  datatype DateWindow = DateWindow(dates: seq<int>, latest: Option<int>)

  /** `buildDateWindow`: `days` consecutive days ending on `today`, oldest first; empty for `days <= 0`. */
  method BuildDateWindow(today: int, days: int) returns (w: DateWindow)
    ensures |w.dates| == (if days > 0 then days else 0)
    ensures forall k :: 0 <= k < |w.dates| ==> w.dates[k] == today - (|w.dates| - 1) + k
    ensures forall k :: 0 < k < |w.dates| ==> w.dates[k] == w.dates[k - 1] + 1
    ensures w.latest.None? <==> days <= 0
    ensures w.latest.Some? ==> w.latest.value == today && w.latest.value == w.dates[|w.dates| - 1]
  {
    var result: seq<int> := [];
    var i := days - 1;
    while i >= 0
      invariant i <= days - 1 && (days > 0 ==> i >= -1) && (days <= 0 ==> i == days - 1)
      invariant |result| == days - 1 - i
      invariant forall k :: 0 <= k < |result| ==> result[k] == today - (days - 1) + k
    {
      result := result + [today - i];
      i := i - 1;
    }
    w := DateWindow(result, if result == [] then None else Some(result[|result| - 1]));
  }

}
