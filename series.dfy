// Series arithmetic shared by the snapshot collector (scripts/collector.py:263-281)
// and its JavaScript twin (src/data/adapters.js:20-36, 38-93, 132-163). A series
// is the list of observation values, newest first.

module Series {
  import opened Values

  /** The percentage move from `previous` to `latest`; a zero base gives 0. */
  function PercentChange(latest: real, previous: real): (p: real)
    ensures previous == 0.0 ==> p == 0.0
    ensures previous != 0.0 ==> p * previous == (latest - previous) * 100.0
  {
    if previous == 0.0 then 0.0 else (latest - previous) / previous * 100.0
  }

  /** Each of the first `count` points is strictly above the one after it (the series rose `count` times in a row). */
  predicate RoseFor(values: seq<real>, count: nat)
  {
    |values| >= count + 1 && forall i :: 0 <= i < count ==> values[i] > values[i + 1]
  }

  /** The loop with early return of consecutive_up / consecutiveUp. */
  method ConsecutiveUp(values: seq<real>, count: nat) returns (up: bool)
    ensures up <==> RoseFor(values, count)
  {
    if |values| < count + 1 {
      return false;
    }
    var i := 0;
    while i < count
      invariant 0 <= i <= count
      invariant forall j :: 0 <= j < i ==> values[j] > values[j + 1]
    {
      if values[i] <= values[i + 1] {
        return false;
      }
      i := i + 1;
    }
    return true;
  }

  /** A run of rises makes the newest point the highest of the run. */
  lemma {:induction false} RoseForChain(values: seq<real>, count: nat)
    requires RoseFor(values, count)
    ensures forall k :: 0 < k <= count ==> values[0] > values[k]
  {
    if count > 0 {
      assert RoseFor(values, count - 1);
      RoseForChain(values, count - 1);
      assert values[count - 1] > values[count];
    }
  }

  /** The newest point minus the one `offset` steps back; 0 when the series is too short. */
  function Delta(values: seq<real>, offset: nat): (d: real)
    ensures |values| <= offset ==> d == 0.0
  {
    if |values| <= offset then 0.0 else values[0] - values[offset]
  }

  /** The sum of the step-by-step changes over the first `n` steps. */
  function Steps(values: seq<real>, n: nat): real
    requires n < |values|
  {
    if n == 0 then 0.0 else Steps(values, n - 1) + (values[n - 1] - values[n])
  }

  /** delta telescopes into the single-step changes, so a run of rises gives a positive delta. */
  lemma {:induction false} DeltaTelescopes(values: seq<real>, offset: nat)
    requires offset < |values|
    ensures Delta(values, offset) == Steps(values, offset)
    ensures RoseFor(values, offset) && offset > 0 ==> Delta(values, offset) > 0.0
  {
    if offset > 0 {
      DeltaTelescopes(values, offset - 1);
      assert Delta(values, offset - 1) == values[0] - values[offset - 1] || offset - 1 == 0;
      if RoseFor(values, offset) {
        RoseForChain(values, offset);
      }
    }
  }

  // ---- src/data/adapters.js:38-93, the arithmetic of fetchMacroData

  /** `nfci[0] > nfci[1] ? (nfci[1] > nfci[2] ? 2 : 1) : 0`, where a comparison with a missing point is false. */
  function FciUpWeeks(nfci: seq<real>): (w: real)
    requires |nfci| > 0
    ensures w == 0.0 || w == 1.0 || w == 2.0
    ensures w == 2.0 <==> RoseFor(nfci, 2)
    ensures w == 0.0 <==> !RoseFor(nfci, 1)
  {
    if |nfci| > 1 && nfci[0] > nfci[1] then (if |nfci| > 2 && nfci[1] > nfci[2] then 2.0 else 1.0) else 0.0
  }

  /** The value at position `k`, or the fallback when there is none. */
  function At(s: seq<real>, k: nat, fallback: real): (r: real)
    ensures k < |s| ==> r == s[k]
    ensures k >= |s| ==> r == fallback
  {
    if k < |s| then s[k] else fallback
  }

  datatype MacroBlock = MacroBlock(
    dxy5d: real, dxy3dUp: bool, us2yWeekBp: real, fciUpWeeks: real, policyWindow: bool,
    preMeeting2y: real, current2y: real, preMeetingDxy: real, currentDxy: real,
    rrpChange: real, tgaChange: real, srfChange: real, ism: real)

  /**
   * The macro block from the six FRED series. The source reads `dxy[0]`, the last
   * `dgs2` point and `nfci[0]` without a guard, so those series must be non-empty.
   */
  function MacroFromSeries(dxy: seq<real>, dgs2: seq<real>, nfci: seq<real>, rrp: seq<real>, tga: seq<real>, ism: seq<real>)
    : (m: MacroBlock)
    requires |dxy| > 0 && |dgs2| > 0 && |nfci| > 0
    ensures m.dxy5d == PercentChange(dxy[0], if |dxy| > 5 then dxy[5] else dxy[|dxy| - 1])
    ensures m.dxy3dUp <==> RoseFor(dxy, 3)
    ensures m.current2y == dgs2[0] && m.currentDxy == dxy[0]
    ensures m.preMeeting2y == (if |dgs2| > 2 then dgs2[2] else dgs2[0])
    ensures m.preMeetingDxy == (if |dxy| > 2 then dxy[2] else dxy[0])
    ensures m.us2yWeekBp == (dgs2[0] - (if |dgs2| > 5 then dgs2[5] else dgs2[|dgs2| - 1])) * 100.0
    ensures m.fciUpWeeks == FciUpWeeks(nfci)
    ensures !m.policyWindow && m.srfChange == 0.0
    ensures m.rrpChange == Delta(rrp, 5) && m.tgaChange == Delta(tga, 5)
    ensures m.ism == (if |ism| > 0 then ism[0] else 0.0)
  {
    var current2y := dgs2[0];
    var currentDxy := dxy[0];
    MacroBlock(PercentChange(dxy[0], At(dxy, 5, dxy[|dxy| - 1])), RoseFor(dxy, 3),
               (current2y - At(dgs2, 5, dgs2[|dgs2| - 1])) * 100.0, FciUpWeeks(nfci), false,
               At(dgs2, 2, current2y), current2y, At(dxy, 2, currentDxy), currentDxy,
               Delta(rrp, 5), Delta(tga, 5), 0.0, At(ism, 0, 0.0))
  }

  // ---- ETF flow sums over a flow table, newest first

  /** The sum of the newest `n` flows. */
  function SumNewest(flows: seq<real>, n: nat): real
  {
    SumReals(Take(flows, n))
  }

  lemma {:induction false} SumAppend(a: seq<real>, b: seq<real>)
    ensures SumReals(a + b) == SumReals(a) + SumReals(b)
  {
    if a != [] {
      assert (a + b)[1..] == a[1..] + b;
      SumAppend(a[1..], b);
    } else {
      assert a + b == b;
    }
  }

  /** Summing in either order gives the same total. */
  lemma {:induction false} SumReverse(s: seq<real>)
    ensures SumReals(Reverse(s)) == SumReals(s)
  {
    if s != [] {
      SumReverse(s[1..]);
      SumAppend(Reverse(s[1..]), [s[0]]);
      assert SumReals([s[0]]) == s[0];
    }
  }

  /** The oldest-first table reversed: the newest `n` flows are the last `n` rows. */
  lemma NewestAreLast(rows: seq<real>, n: nat)
    requires n <= |rows|
    ensures Take(Reverse(rows), n) == Reverse(rows[|rows| - n..])
  {
    var a := Take(Reverse(rows), n);
    var b := Reverse(rows[|rows| - n..]);
    assert |a| == n == |b| by {
      assert |Reverse(rows)| == |rows| && |rows[|rows| - n..]| == n;
    }
    forall i | 0 <= i < n ensures a[i] == b[i] {
      NewestAt(rows, n, i);
    }
  }

  lemma NewestAt(rows: seq<real>, n: nat, i: nat)
    requires i < n <= |rows|
    ensures Take(Reverse(rows), n)[i] == Reverse(rows[|rows| - n..])[i]
  {
    var t := rows[|rows| - n..];
    assert |t| == n;
    calc {
      Take(Reverse(rows), n)[i];
      == { TakeAt(Reverse(rows), n, i); }
      Reverse(rows)[i];
      == { ReverseAt(rows, i); }
      rows[|rows| - 1 - i];
      == t[n - 1 - i];
      == { ReverseAt(t, i); }
      Reverse(t)[i];
    }
  }

  /** The `i`-th of the first `n` is the `i`-th. */
  lemma TakeAt(s: seq<real>, n: nat, i: nat)
    requires i < n <= |s|
    ensures Take(s, n)[i] == s[i]
  {
  }

  /** The `i`-th of the reversal is the `i`-th from the end. */
  lemma ReverseAt(s: seq<real>, i: nat)
    requires i < |s|
    ensures Reverse(s)[i] == s[|s| - 1 - i]
  {
  }

  datatype EtfBlock = EtfBlock(etf1d: real, etf5d: real, etf10d: real, volumeConfirm: bool)

  /**
   * fetchEtfData after the fetch: the table must have a row, the last 30 rows are turned
   * newest first, and a 1-day flow of at least 100 in size confirms volume.
   */
  function EtfFromRows(rows: seq<real>): (r: Option<EtfBlock>)
    ensures r.None? <==> rows == []
    ensures r.Some? ==> r.value.etf1d == rows[|rows| - 1]
    ensures r.Some? ==> r.value.etf5d == SumReals(rows[|rows| - (if |rows| < 5 then |rows| else 5)..])
    ensures r.Some? ==> r.value.etf10d == SumReals(rows[|rows| - (if |rows| < 10 then |rows| else 10)..])
    ensures r.Some? ==> (r.value.volumeConfirm <==> Abs(r.value.etf1d) >= 100.0)
  {
    if rows == [] then None
    else
      var sorted := Reverse(TakeLast(rows, 30));
      Newest(rows, 5);
      Newest(rows, 10);
      Some(EtfBlock(sorted[0], SumNewest(sorted, 5), SumNewest(sorted, 10), Abs(sorted[0]) >= 100.0))
  }

  /** Within the last 30 rows, the newest `n` flows sum to the last `n` rows of the table. */
  lemma Newest(rows: seq<real>, n: nat)
    requires rows != [] && n <= 30
    ensures var k := if |rows| < n then |rows| else n;
      SumNewest(Reverse(TakeLast(rows, 30)), n) == SumReals(rows[|rows| - k..])
      && Reverse(TakeLast(rows, 30))[0] == rows[|rows| - 1]
  {
    var last := TakeLast(rows, 30);
    var k := if |rows| < n then |rows| else n;
    NewestAreLast(last, k);
    assert Take(Reverse(last), n) == Take(Reverse(last), k);
    assert last[|last| - k..] == rows[|rows| - k..];
    SumReverse(rows[|rows| - k..]);
  }
}
