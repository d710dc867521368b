// The ETH price seed (scripts/eth_price_seed.py, build_seed_payload): daily close and
// volume points from the primary exchange, sorted by date, indexed by date, and
// cross-checked against a second source.

module Seed {
  import opened Values
  import opened Text

  /** One entry of the exchange's list: a dict with its `date`, `close` and `volume` (null when absent), or anything else. */
  datatype SeedItem = NotDict | Item(date: Value, close: Value, volume: Value)

  /** A point of the series. */
  datatype SeedPoint = SeedPoint(date: string, close: real, volume: real)

  /** A cross-check that failed: the date, both closes and the relative difference. */
  datatype PriceDiff = PriceDiff(date: string, close: real, crossClose: real, diff: real)

  const DefaultDiffThreshold := 0.015

  /** Python `float(v)`: numbers and booleans convert, strings parse, anything else raises (`None`). */
  function PyToFloat(v: Value): Option<real>
  {
    match v
    case Num(n) => Some(n)
    case Bool(b) => Some(if b then 1.0 else 0.0)
    case Str(s) => PyFloat(s)
    case _ => None
  }

  /**
   * The first loop's body for one item: skipped unless it is a dict with a string date,
   * a close that converts and a volume that is absent (0.0) or converts.
   */
  function ParsePoint(item: SeedItem): (r: Option<SeedPoint>)
    ensures r.Some? <==> item.Item? && item.date.Str? && PyToFloat(item.close).Some?
                         && (item.volume == Null || PyToFloat(item.volume).Some?)
    ensures r.Some? ==> r.value.date == item.date.s && r.value.close == PyToFloat(item.close).value
    ensures r.Some? && item.volume == Null ==> r.value.volume == 0.0
    ensures r.Some? && item.volume != Null ==> r.value.volume == PyToFloat(item.volume).value
  {
    match item
    case NotDict => None
    case Item(date, close, volume) =>
      if !date.Str? then None
      else
        match PyToFloat(close)
        case None => None
        case Some(c) =>
          if volume == Null then Some(SeedPoint(date.s, c, 0.0))
          else
            match PyToFloat(volume)
            case None => None
            case Some(v) => Some(SeedPoint(date.s, c, v))
  }

  /** The points the first loop appends, in input order. */
  function ParsedPoints(items: seq<SeedItem>): (r: seq<SeedPoint>)
    ensures |r| <= |items|
    ensures forall p :: p in r ==> exists i :: 0 <= i < |items| && ParsePoint(items[i]) == Some(p)
    ensures forall i :: 0 <= i < |items| && ParsePoint(items[i]).Some? ==> ParsePoint(items[i]).value in r
  {
    if items == [] then []
    else
      var n := |items| - 1;
      var front := ParsedPoints(items[..n]);
      assert forall i :: 0 <= i < n ==> items[..n][i] == items[i];
      match ParsePoint(items[n])
      case None => front
      case Some(p) => front + [p]
  }

  // ---------------------------------------------------------------- sorting by date text

  /** Python's string order: equal or below. */
  predicate StrLe(a: string, b: string)
  {
    a == b || StrLess(a, b)
  }

  predicate DateSorted(s: seq<SeedPoint>)
  {
    forall i, j :: 0 <= i < j < |s| ==> StrLe(s[i].date, s[j].date)
  }

  lemma StrLeTrans(a: string, b: string, c: string)
    requires StrLe(a, b) && StrLe(b, c)
    ensures StrLe(a, c)
  {
    if a != b && b != c {
      StrLessTrans(a, b, c);
    }
  }

  /** Insert `x` after every point whose date is not above its own (so equal dates keep their order). */
  function InsertPoint(x: SeedPoint, s: seq<SeedPoint>): (r: seq<SeedPoint>)
    requires DateSorted(s)
    ensures DateSorted(r)
    ensures multiset(r) == multiset(s) + multiset{x}
  {
    if s == [] then [x]
    else if StrLess(x.date, s[0].date) then
      InsertFront(x, s);
      [x] + s
    else
      assert DateSorted(s[1..]) by {
        forall i, j | 0 <= i < j < |s[1..]|
          ensures StrLe(s[1..][i].date, s[1..][j].date)
        {
          assert s[1..][i] == s[i + 1] && s[1..][j] == s[j + 1];
        }
      }
      var rest := InsertPoint(x, s[1..]);
      InsertAfterHead(x, s, rest);
      [s[0]] + rest
  }

  lemma InsertFront(x: SeedPoint, s: seq<SeedPoint>)
    requires DateSorted(s) && s != [] && StrLess(x.date, s[0].date)
    ensures DateSorted([x] + s)
  {
    forall j | 0 <= j < |s|
      ensures StrLe(x.date, s[j].date)
    {
      StrLeTrans(x.date, s[0].date, s[j].date);
    }
    var t := [x] + s;
    forall i, j | 0 <= i < j < |t|
      ensures StrLe(t[i].date, t[j].date)
    {
      if i > 0 {
        assert t[i] == s[i - 1] && t[j] == s[j - 1];
      } else {
        assert t[j] == s[j - 1];
      }
    }
  }

  lemma InsertAfterHead(x: SeedPoint, s: seq<SeedPoint>, rest: seq<SeedPoint>)
    requires DateSorted(s) && s != [] && !StrLess(x.date, s[0].date)
    requires DateSorted(rest) && multiset(rest) == multiset(s[1..]) + multiset{x}
    ensures DateSorted([s[0]] + rest)
    ensures multiset([s[0]] + rest) == multiset(s) + multiset{x}
  {
    StrLessTotal(x.date, s[0].date);
    assert s == [s[0]] + s[1..];
    var t := [s[0]] + rest;
    forall j | 0 <= j < |rest|
      ensures StrLe(s[0].date, rest[j].date)
    {
      assert rest[j] in multiset(rest);
      assert rest[j] == x || rest[j] in s[1..];
      if rest[j] != x {
        var k :| 0 <= k < |s[1..]| && s[1..][k] == rest[j];
        assert s[k + 1] == rest[j];
      }
    }
    forall i, j | 0 <= i < j < |t|
      ensures StrLe(t[i].date, t[j].date)
    {
      if i > 0 {
        assert t[i] == rest[i - 1] && t[j] == rest[j - 1];
      } else {
        assert t[j] == rest[j - 1];
      }
    }
  }

  /** `points.sort(key=lambda p: p["date"])`: a stable sort by date text. */
  function SortPoints(s: seq<SeedPoint>): (r: seq<SeedPoint>)
    ensures DateSorted(r)
    ensures multiset(r) == multiset(s)
  {
    if s == [] then []
    else
      var n := |s| - 1;
      assert s == s[..n] + [s[n]];
      InsertPoint(s[n], SortPoints(s[..n]))
  }

  /** The points of one date, in their order. */
  function OfDate(s: seq<SeedPoint>, d: string): seq<SeedPoint>
  {
    if s == [] then [] else (if s[0].date == d then [s[0]] else []) + OfDate(s[1..], d)
  }

  /** The points of `d` in a point followed by a list. */
  lemma OfDateCons(x: SeedPoint, s: seq<SeedPoint>, d: string)
    ensures OfDate([x] + s, d) == (if x.date == d then [x] else []) + OfDate(s, d)
  {
    assert ([x] + s)[1..] == s;
  }

  lemma {:induction false} OfDateAppend(a: seq<SeedPoint>, b: seq<SeedPoint>, d: string)
    ensures OfDate(a + b, d) == OfDate(a, d) + OfDate(b, d)
  {
    if a != [] {
      assert a + b == [a[0]] + (a[1..] + b);
      OfDateCons(a[0], a[1..] + b, d);
      OfDateAppend(a[1..], b, d);
      assert a == [a[0]] + a[1..];
      OfDateCons(a[0], a[1..], d);
    } else {
      assert a + b == b;
    }
  }

  /** The tail of a sorted list is sorted. */
  lemma TailSorted(s: seq<SeedPoint>)
    requires DateSorted(s) && s != []
    ensures DateSorted(s[1..])
  {
    forall i, j | 0 <= i < j < |s[1..]|
      ensures StrLe(s[1..][i].date, s[1..][j].date)
    {
      assert s[1..][i] == s[i + 1] && s[1..][j] == s[j + 1];
    }
  }

  /** A sorted list whose first date is above `d` holds no point of date `d`. */
  lemma {:induction false} AboveHasNone(s: seq<SeedPoint>, d: string)
    requires DateSorted(s) && s != [] && StrLess(d, s[0].date)
    ensures OfDate(s, d) == []
  {
    StrLessIrreflexive(d);
    assert s == [s[0]] + s[1..];
    OfDateCons(s[0], s[1..], d);
    if |s| > 1 {
      assert StrLe(s[0].date, s[1].date);
      if s[0].date != s[1].date {
        StrLessTrans(d, s[0].date, s[1].date);
      }
      TailSorted(s);
      AboveHasNone(s[1..], d);
    } else {
      assert s[1..] == [];
    }
  }

  /** Inserting a point puts it after the points of its own date and moves no other date's points. */
  lemma {:induction false} InsertKeepsDateOrder(x: SeedPoint, s: seq<SeedPoint>, d: string)
    requires DateSorted(s)
    ensures OfDate(InsertPoint(x, s), d) == OfDate(s, d) + (if x.date == d then [x] else [])
  {
    var own := if x.date == d then [x] else [];
    if s == [] {
      OfDateCons(x, [], d);
      assert [x] + [] == [x];
      assert OfDate([], d) + own == own;
    } else if StrLess(x.date, s[0].date) {
      InsertBefore(x, s, d);
    } else {
      TailSorted(s);
      InsertKeepsDateOrder(x, s[1..], d);
      InsertAfter(x, s, d);
    }
  }

  /** The case of an insertion in front. */
  lemma InsertBefore(x: SeedPoint, s: seq<SeedPoint>, d: string)
    requires DateSorted(s) && s != [] && StrLess(x.date, s[0].date)
    ensures OfDate(InsertPoint(x, s), d) == OfDate(s, d) + (if x.date == d then [x] else [])
  {
    assert InsertPoint(x, s) == [x] + s;
    OfDateCons(x, s, d);
    if x.date == d {
      AboveHasNone(s, d);
    }
  }

  /** A point not below the head goes into the tail. */
  lemma InsertBehindHead(x: SeedPoint, s: seq<SeedPoint>)
    requires DateSorted(s) && s != [] && !StrLess(x.date, s[0].date) && DateSorted(s[1..])
    ensures InsertPoint(x, s) == [s[0]] + InsertPoint(x, s[1..])
  {
  }

  /** The case of an insertion behind the head, given the insertion into the tail. */
  lemma InsertAfter(x: SeedPoint, s: seq<SeedPoint>, d: string)
    requires DateSorted(s) && s != [] && !StrLess(x.date, s[0].date) && DateSorted(s[1..])
    requires OfDate(InsertPoint(x, s[1..]), d) == OfDate(s[1..], d) + (if x.date == d then [x] else [])
    ensures OfDate(InsertPoint(x, s), d) == OfDate(s, d) + (if x.date == d then [x] else [])
  {
    HeadTail(s);
    InsertBehindHead(x, s);
    ConsKeepsExtra(s[0], s[1..], InsertPoint(x, s[1..]), if x.date == d then [x] else [], d);
  }

  /** Points of `d` gained behind a common head stay gained. */
  lemma ConsKeepsExtra(h: SeedPoint, t: seq<SeedPoint>, r: seq<SeedPoint>, extra: seq<SeedPoint>, d: string)
    requires OfDate(r, d) == OfDate(t, d) + extra
    ensures OfDate([h] + r, d) == OfDate([h] + t, d) + extra
  {
    OfDateCons(h, r, d);
    OfDateCons(h, t, d);
    var head := if h.date == d then [h] else [];
    assert head + (OfDate(t, d) + extra) == (head + OfDate(t, d)) + extra;
  }

  /**
   * The sort is stable: the points of each date come out in their input order. With
   * sortedness and the permutation this fixes the result.
   */
  lemma {:induction false} SortIsStable(s: seq<SeedPoint>, d: string)
    ensures OfDate(SortPoints(s), d) == OfDate(s, d)
  {
    if s != [] {
      var n := |s| - 1;
      assert s == s[..n] + [s[n]];
      assert SortPoints(s) == InsertPoint(s[n], SortPoints(s[..n]));
      SortIsStable(s[..n], d);
      InsertKeepsDateOrder(s[n], SortPoints(s[..n]), d);
      OfDateAppend(s[..n], [s[n]], d);
      OfDateCons(s[n], [], d);
      assert [s[n]] + [] == [s[n]];
    }
  }

  /** `{p["date"]: {...} for p in points}`: one entry per date, the last point of that date winning. */
  function ByDate(points: seq<SeedPoint>): (r: map<string, (real, real)>)
    ensures forall d :: d in r <==> exists i :: 0 <= i < |points| && points[i].date == d
  {
    if points == [] then map[]
    else
      var n := |points| - 1;
      var front := ByDate(points[..n]);
      assert forall i :: 0 <= i < n ==> points[..n][i] == points[i];
      assert points == points[..n] + [points[n]];
      front[points[n].date := (points[n].close, points[n].volume)]
  }

  /** The entry of a date is the close and volume of the last point of that date. */
  lemma {:induction false} ByDateLastWins(points: seq<SeedPoint>, d: string) returns (i: nat)
    requires d in ByDate(points)
    ensures i < |points| && points[i].date == d && ByDate(points)[d] == (points[i].close, points[i].volume)
    ensures forall j :: i < j < |points| ==> points[j].date != d
    decreases |points|
  {
    var n := |points| - 1;
    if points[n].date == d {
      i := n;
    } else {
      var front := points[..n];
      assert d in ByDate(front);
      i := ByDateLastWins(front, d);
      assert front[i] == points[i];
      assert forall j :: i < j < n ==> front[j] == points[j];
    }
  }

  // ---------------------------------------------------------------- cross-check

  /** `float(coingecko_by_date.get(date))`, with a missing entry or a failed conversion as None. */
  function CrossClose(cross: map<string, Value>, date: string): Option<real>
  {
    if date !in cross || cross[date] == Null then None else PyToFloat(cross[date])
  }

  /** The error for one point: only when the other close exists, is positive and differs by more than the threshold. */
  function CheckPoint(p: SeedPoint, cross: map<string, Value>, threshold: real): (r: Option<PriceDiff>)
    ensures r.Some? <==> CrossClose(cross, p.date).Some? && CrossClose(cross, p.date).value > 0.0
                         && Abs(p.close - CrossClose(cross, p.date).value) / CrossClose(cross, p.date).value > threshold
    ensures r.Some? ==> r.value.date == p.date && r.value.close == p.close && r.value.diff > threshold
  {
    match CrossClose(cross, p.date)
    case None => None
    case Some(c) =>
      if c <= 0.0 then None
      else
        var diff := Abs(p.close - c) / c;
        if diff > threshold then Some(PriceDiff(p.date, p.close, c, diff)) else None
  }

  /** The errors of the second loop, in series order. */
  function DiffErrors(points: seq<SeedPoint>, cross: map<string, Value>, threshold: real): (r: seq<PriceDiff>)
    ensures |r| <= |points|
  {
    if points == [] then []
    else
      var n := |points| - 1;
      var front := DiffErrors(points[..n], cross, threshold);
      match CheckPoint(points[n], cross, threshold)
      case None => front
      case Some(e) => front + [e]
  }

  /** The date of each error. */
  function ErrorDates(errors: seq<PriceDiff>): (r: seq<string>)
    ensures |r| == |errors| && forall i :: 0 <= i < |r| ==> r[i] == errors[i].date
  {
    if errors == [] then [] else [errors[0].date] + ErrorDates(errors[1..])
  }

  function PointDates(points: seq<SeedPoint>): (r: seq<string>)
    ensures |r| == |points| && forall i :: 0 <= i < |r| ==> r[i] == points[i].date
  {
    if points == [] then [] else [points[0].date] + PointDates(points[1..])
  }

  lemma ErrorDatesSnoc(front: seq<PriceDiff>, e: PriceDiff)
    ensures ErrorDates(front + [e]) == ErrorDates(front) + [e.date]
  {
  }

  lemma PointDatesSnoc(front: seq<SeedPoint>, p: SeedPoint)
    ensures PointDates(front + [p]) == PointDates(front) + [p.date]
  {
  }

  /** At most one error per point, in series order: the error dates are a subsequence of the point dates. */
  lemma {:induction false} DiffErrorsFollowSeries(points: seq<SeedPoint>, cross: map<string, Value>, threshold: real)
    ensures Sub(ErrorDates(DiffErrors(points, cross, threshold)), PointDates(points))
    decreases |points|
  {
    if points == [] {
      assert ErrorDates(DiffErrors(points, cross, threshold)) == [];
    } else {
      var n := |points| - 1;
      var front := DiffErrors(points[..n], cross, threshold);
      DiffErrorsFollowSeries(points[..n], cross, threshold);
      assert points == points[..n] + [points[n]];
      PointDatesSnoc(points[..n], points[n]);
      SubSnoc(ErrorDates(front), PointDates(points[..n]), points[n].date);
      var c := CheckPoint(points[n], cross, threshold);
      if c.Some? {
        ErrorDatesSnoc(front, c.value);
      }
    }
  }

  /** The errors are exactly the failed checks of the points. */
  lemma {:induction false} DiffErrorsExact(points: seq<SeedPoint>, cross: map<string, Value>, threshold: real)
    ensures forall e :: e in DiffErrors(points, cross, threshold) <==>
      exists i :: 0 <= i < |points| && CheckPoint(points[i], cross, threshold) == Some(e)
    decreases |points|
  {
    if points != [] {
      var n := |points| - 1;
      DiffErrorsExact(points[..n], cross, threshold);
      assert forall i :: 0 <= i < n ==> points[..n][i] == points[i];
    }
  }

  // ---------------------------------------------------------------- the payload

  const SeedSourceLabel := "Bitfinex candles (primary) + CoinGecko cross-check"

  datatype SeedPayload = SeedPayload(generatedAt: Value, asOfDate: Value, source: string, series: seq<SeedPoint>,
                                     byDate: map<string, (real, real)>, errors: seq<PriceDiff>)

  /**
   * `build_seed_payload`: parse the points one item at a time, sort them, index them by
   * date and cross-check each in turn. `now` is the clock reading stored as `generatedAt`.
   */
  method BuildSeedPayload(asOfDate: Value, points: Option<seq<SeedItem>>, crossByDate: Option<map<string, Value>>,
                          threshold: real, now: Value) returns (payload: SeedPayload)
    ensures payload.asOfDate == asOfDate && payload.generatedAt == now && payload.source == SeedSourceLabel
    ensures DateSorted(payload.series)
    ensures multiset(payload.series) == multiset(ParsedPoints(if points.Some? then points.value else []))
    ensures payload.series == SortPoints(ParsedPoints(if points.Some? then points.value else []))
    ensures payload.byDate == ByDate(payload.series)
    ensures payload.errors == DiffErrors(payload.series, if crossByDate.Some? then crossByDate.value else map[], threshold)
  {
    var cross := if crossByDate.Some? then crossByDate.value else map[];
    var items := if points.Some? then points.value else [];
    var series := ParseItems(items);
    series := SortPoints(series);
    var byDate := ByDate(series);
    var errors := CrossCheck(series, cross, threshold);
    payload := SeedPayload(now, asOfDate, SeedSourceLabel, series, byDate, errors);
  }

  /** The parsing loop: each item that parses becomes a point, in item order. */
  method ParseItems(items: seq<SeedItem>) returns (series: seq<SeedPoint>)
    ensures series == ParsedPoints(items)
  {
    series := [];
    for i := 0 to |items|
      invariant series == ParsedPoints(items[..i])
    {
      assert items[..i + 1][..i] == items[..i];
      match ParsePoint(items[i])
      case None =>
      case Some(p) => series := series + [p];
    }
    assert items[..|items|] == items;
  }

  /** The cross-check loop: one error per point whose check fails, in series order. */
  method CrossCheck(series: seq<SeedPoint>, cross: map<string, Value>, threshold: real) returns (errors: seq<PriceDiff>)
    ensures errors == DiffErrors(series, cross, threshold)
  {
    errors := [];
    for i := 0 to |series|
      invariant errors == DiffErrors(series[..i], cross, threshold)
    {
      assert series[..i + 1][..i] == series[..i];
      match CheckPoint(series[i], cross, threshold)
      case None =>
      case Some(e) => errors := errors + [e];
    }
    assert series[..|series|] == series;
  }
}
