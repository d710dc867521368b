// The phase timer of the daily run (src/ui/etaTimer.js): named phases with a start
// and an end stamp in milliseconds, their summed duration, and its text in seconds.

module EtaTimer {
  import opened Values
  import opened Text

  /** One phase: when it started and, once it has, when it ended. */
  datatype Phase = Phase(start: int, end: Option<int>)

  /** `Math.max(0, end - start)` for an ended phase; a running phase counts nothing. */
  function Duration(p: Phase): (d: nat)
    ensures p.end.Some? && p.end.value >= p.start ==> d == p.end.value - p.start
    ensures p.end.None? || p.end.value <= p.start ==> d == 0
  {
    if p.end.Some? && p.end.value >= p.start then p.end.value - p.start else 0
  }

  /** The summed durations of the phases named in `names`. */
  function Total(names: seq<string>, phases: map<string, Phase>): int
    requires forall n :: n in names ==> n in phases
  {
    if names == [] then 0
    else Total(names[..|names| - 1], phases) + Duration(phases[names[|names| - 1]])
  }

  /** A sum of non-negative durations is non-negative. */
  lemma {:induction false} TotalNonNegative(names: seq<string>, phases: map<string, Phase>)
    requires forall n :: n in names ==> n in phases
    ensures Total(names, phases) >= 0
  {
    if names != [] {
      TotalNonNegative(names[..|names| - 1], phases);
    }
  }

  /** Replacing one named phase changes the total by the change of that phase's duration alone. */
  lemma {:induction false} TotalReplace(names: seq<string>, phases: map<string, Phase>, name: string, p: Phase)
    requires Distinct(names) && forall n :: n in names ==> n in phases
    requires name in names
    ensures Total(names, phases[name := p]) == Total(names, phases) - Duration(phases[name]) + Duration(p)
  {
    var front := names[..|names| - 1];
    var last := names[|names| - 1];
    assert forall n :: n in front ==> n in names;
    if last == name {
      assert name !in front by {
        assert forall i :: 0 <= i < |front| ==> front[i] == names[i];
      }
      TotalUntouched(front, phases, name, p);
    } else {
      assert name in front by { assert names == front + [last]; }
      assert Distinct(front) by {
        forall i, j | 0 <= i < j < |front| ensures front[i] != front[j] { assert names[i] == front[i] && names[j] == front[j]; }
      }
      TotalReplace(front, phases, name, p);
    }
  }

  /** A phase outside `names` does not count in their total. */
  lemma {:induction false} TotalUntouched(names: seq<string>, phases: map<string, Phase>, name: string, p: Phase)
    requires forall n :: n in names ==> n in phases
    requires name !in names
    ensures Total(names, phases[name := p]) == Total(names, phases)
  {
    if names != [] {
      var front := names[..|names| - 1];
      assert forall n :: n in front ==> n in names;
      TotalUntouched(front, phases, name, p);
    }
  }

  /**
   * The timer owns a `Map` of phases; `names` is that map's insertion order, the order
   * `forEach` visits it in.
   */
  class Timer {
    var phases: map<string, Phase>
    var names: seq<string>

    ghost predicate Valid()
      reads this
    {
      Distinct(names) && forall n :: n in phases <==> n in names
    }

    /** `createEtaTimer`: no phases yet. */
    constructor ()
      ensures Valid() && phases == map[] && names == []
    {
      phases := map[];
      names := [];
    }

    /** Records a name the first time it is set, keeping the map's insertion order. */
    method Remember(name: string)
      requires Valid()
      modifies this
      ensures names == if name in old(phases) then old(names) else old(names) + [name]
      ensures phases == old(phases)
      ensures forall n :: n in names <==> n in old(names) || n == name
      ensures Distinct(names)
    {
      if name !in phases {
        names := names + [name];
      }
    }

    /** `start(name, ts)`: the phase restarts at `ts` with no end, whatever it held before. */
    method Start(name: string, ts: int)
      requires Valid()
      modifies this
      ensures Valid()
      ensures phases == old(phases)[name := Phase(ts, None)]
      ensures names == if name in old(phases) then old(names) else old(names) + [name]
    {
      Remember(name);
      phases := phases[name := Phase(ts, None)];
    }

    /**
     * `end(name, ts)`: the phase ends at `ts`; an unknown phase is created as starting at
     * `ts` too, so it lasts nothing.
     */
    method End(name: string, ts: int)
      requires Valid()
      modifies this
      ensures Valid()
      ensures name in old(phases) ==> phases == old(phases)[name := Phase(old(phases)[name].start, Some(ts))]
      ensures name !in old(phases) ==> phases == old(phases)[name := Phase(ts, Some(ts))]
      ensures names == if name in old(phases) then old(names) else old(names) + [name]
    {
      var phase := if name in phases then phases[name] else Phase(ts, None);
      phase := phase.(end := Some(ts));
      Remember(name);
      phases := phases[name := phase];
    }

    /** `totalMs`: visits the phases in order and adds each ended phase's duration. */
    method TotalMs() returns (total: int)
      requires Valid()
      ensures total == Total(names, phases)
      ensures total >= 0
    {
      total := 0;
      for i := 0 to |names|
        invariant total == Total(names[..i], phases)
      {
        assert names[..i + 1][..i] == names[..i];
        total := total + Duration(phases[names[i]]);
      }
      assert names[..|names|] == names;
      TotalNonNegative(names, phases);
    }
  }

  /** Restarting a phase takes its duration out of the total. */
  lemma StartDropsPhase(names: seq<string>, phases: map<string, Phase>, name: string, ts: int)
    requires Distinct(names) && forall n :: n in phases <==> n in names
    ensures var names' := if name in phases then names else names + [name];
      Total(names', phases[name := Phase(ts, None)]) == Total(names, phases) - (if name in phases then Duration(phases[name]) else 0)
  {
    var p := Phase(ts, None);
    if name in phases {
      TotalReplace(names, phases, name, p);
    } else {
      var names' := names + [name];
      assert names'[..|names'| - 1] == names;
      TotalUntouched(names, phases, name, p);
    }
  }

  /** Ending an unknown phase leaves the total as it was. */
  lemma EndUnknownAddsNothing(names: seq<string>, phases: map<string, Phase>, name: string, ts: int)
    requires forall n :: n in phases <==> n in names
    requires name !in phases
    ensures Total(names + [name], phases[name := Phase(ts, Some(ts))]) == Total(names, phases)
  {
    var names' := names + [name];
    assert names'[..|names'| - 1] == names;
    TotalUntouched(names, phases, name, Phase(ts, Some(ts)));
  }

  /**
   * `formatMs`: "--" for a value that is not finite (`None`), else the whole seconds,
   * rounded half up and never below zero, followed by "s".
   */
  function FormatMs(ms: Option<real>): (r: string)
    ensures ms.None? <==> r == "--"
    ensures ms.Some? ==> (|r| >= 2 && r[|r| - 1] == 's' && AllDigits(r[..|r| - 1])
      && DigitsValue(r[..|r| - 1]) == MaxInt(0, (ms.value / 1000.0 + 0.5).Floor))
  {
    match ms
    case None => "--"
    case Some(v) =>
      var secs: nat := MaxInt(0, (v / 1000.0 + 0.5).Floor);
      var digits := NatText(secs);
      NatTextValue(secs);
      assert (digits + "s")[..|digits|] == digits;
      digits + "s"
  }
}
