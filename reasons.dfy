// Ranking of decision reasons (src/engine/pipeline.js:494-497): a stable sort
// by weight, heaviest first, then the first three.

module Reasons {
  import opened Values

  datatype Reason = Reason(text: string, weight: nat, gateId: string)

  /** The `{ text, gateId }` projection the output keeps. */
  datatype ReasonRef = ReasonRef(text: string, gateId: string)

  predicate Descending(s: seq<Reason>)
  {
    forall i, j :: 0 <= i < j < |s| ==> s[i].weight >= s[j].weight
  }

  /** Inserts `x` after every element at least as heavy, so equal weights keep arrival order. */
  function Insert(x: Reason, s: seq<Reason>): (r: seq<Reason>)
    requires Descending(s)
    ensures Descending(r)
    ensures multiset(r) == multiset(s) + multiset{x}
    ensures |r| == |s| + 1
    ensures r[0] == x || (s != [] && r[0] == s[0])
  {
    if s == [] then [x]
    else if x.weight > s[0].weight then [x] + s
    else
      var rest := Insert(x, s[1..]);
      assert s == [s[0]] + s[1..];
      [s[0]] + rest
  }

  /** `Array.prototype.sort` with the comparator `b.weight - a.weight` (a stable sort). */
  function SortByWeight(s: seq<Reason>): (r: seq<Reason>)
    ensures Descending(r)
    ensures multiset(r) == multiset(s)
    ensures |r| == |s|
  {
    if s == [] then []
    else
      assert s == s[..|s| - 1] + [s[|s| - 1]];
      Insert(s[|s| - 1], SortByWeight(s[..|s| - 1]))
  }

  /** The reasons of weight `w`, in their order in `s`. */
  function OfWeight(s: seq<Reason>, w: nat): seq<Reason>
  {
    if s == [] then [] else (if s[0].weight == w then [s[0]] else []) + OfWeight(s[1..], w)
  }

  lemma {:induction false} OfWeightAppend(a: seq<Reason>, b: seq<Reason>, w: nat)
    ensures OfWeight(a + b, w) == OfWeight(a, w) + OfWeight(b, w)
    decreases |a|
  {
    if a != [] {
      assert (a + b)[1..] == a[1..] + b;
      OfWeightAppend(a[1..], b, w);
    } else {
      assert a + b == b;
    }
  }

  /** The tail of a descending list is descending. */
  lemma TailDescending(s: seq<Reason>)
    requires Descending(s) && s != []
    ensures Descending(s[1..])
  {
    forall i, j | 0 <= i < j < |s[1..]|
      ensures s[1..][i].weight >= s[1..][j].weight
    {
      assert s[1..][i] == s[i + 1] && s[1..][j] == s[j + 1];
    }
  }

  /** A descending list headed by a reason lighter than `w` holds none of weight `w`. */
  lemma {:induction false} LighterHasNone(s: seq<Reason>, w: nat)
    requires Descending(s) && s != [] && s[0].weight < w
    ensures OfWeight(s, w) == []
    decreases |s|
  {
    if |s| > 1 {
      assert s[1].weight <= s[0].weight;
      TailDescending(s);
      LighterHasNone(s[1..], w);
    } else {
      assert s[1..] == [];
    }
  }

  /** Inserting a reason puts it after the reasons of its own weight and moves no other weight's reasons. */
  lemma {:induction false} InsertKeepsWeightOrder(x: Reason, s: seq<Reason>, w: nat)
    requires Descending(s)
    ensures OfWeight(Insert(x, s), w) == OfWeight(s, w) + (if x.weight == w then [x] else [])
    decreases |s|
  {
    if s == [] {
      assert Insert(x, s) == [x];
      assert [x][1..] == [];
    } else if x.weight > s[0].weight {
      InsertAhead(x, s, w);
    } else {
      TailDescending(s);
      InsertKeepsWeightOrder(x, s[1..], w);
      InsertBehind(x, s, w);
    }
  }

  /** The case of a reason heavier than the head. */
  lemma InsertAhead(x: Reason, s: seq<Reason>, w: nat)
    requires Descending(s) && s != [] && x.weight > s[0].weight
    ensures OfWeight(Insert(x, s), w) == OfWeight(s, w) + (if x.weight == w then [x] else [])
  {
    assert Insert(x, s) == [x] + s;
    assert ([x] + s)[1..] == s;
    if x.weight == w {
      LighterHasNone(s, w);
    }
  }

  /** The case of a reason no heavier than the head, given the insertion into the tail. */
  lemma InsertBehind(x: Reason, s: seq<Reason>, w: nat)
    requires Descending(s) && s != [] && x.weight <= s[0].weight && Descending(s[1..])
    requires OfWeight(Insert(x, s[1..]), w) == OfWeight(s[1..], w) + (if x.weight == w then [x] else [])
    ensures OfWeight(Insert(x, s), w) == OfWeight(s, w) + (if x.weight == w then [x] else [])
  {
    HeadTail(s);
    var r := Insert(x, s[1..]);
    assert Insert(x, s) == [s[0]] + r;
    WeightConsKeepsExtra(s[0], s[1..], r, if x.weight == w then [x] else [], w);
  }

  /** Reasons of weight `w` gained behind a common head stay gained. */
  lemma WeightConsKeepsExtra(h: Reason, t: seq<Reason>, r: seq<Reason>, extra: seq<Reason>, w: nat)
    requires OfWeight(r, w) == OfWeight(t, w) + extra
    ensures OfWeight([h] + r, w) == OfWeight([h] + t, w) + extra
  {
    assert ([h] + r)[1..] == r && ([h] + t)[1..] == t;
    var head := if h.weight == w then [h] else [];
    assert head + (OfWeight(t, w) + extra) == (head + OfWeight(t, w)) + extra;
  }

  function Refs(s: seq<Reason>): (r: seq<ReasonRef>)
    ensures |r| == |s|
    ensures forall i :: 0 <= i < |s| ==> r[i] == ReasonRef(s[i].text, s[i].gateId)
  {
    if s == [] then [] else [ReasonRef(s[0].text, s[0].gateId)] + Refs(s[1..])
  }

  /**
   * The sort is stable: the reasons of each weight come out in the order they were pushed,
   * so among equal weights the earlier reason ranks first.
   */
  lemma {:induction false} SortByWeightStable(s: seq<Reason>, w: nat)
    ensures OfWeight(SortByWeight(s), w) == OfWeight(s, w)
    decreases |s|
  {
    if s != [] {
      var n := |s| - 1;
      assert s == s[..n] + [s[n]];
      assert SortByWeight(s) == Insert(s[n], SortByWeight(s[..n]));
      SortByWeightStable(s[..n], w);
      InsertKeepsWeightOrder(s[n], SortByWeight(s[..n]), w);
      OfWeightAppend(s[..n], [s[n]], w);
      assert [s[n]][1..] == [];
    }
  }

  /** In a descending list, every element of a prefix weighs at least as much as every element after it. */
  lemma HeavierPrefix(sorted: seq<Reason>, k: nat)
    requires Descending(sorted) && k <= |sorted|
    ensures forall x: Reason, y: Reason :: x in multiset(sorted[k..]) && y in sorted[..k] ==> y.weight >= x.weight
  {
    forall x: Reason, y: Reason | x in multiset(sorted[k..]) && y in sorted[..k]
      ensures y.weight >= x.weight
    {
      var i :| 0 <= i < k && sorted[..k][i] == y;
      var j :| 0 <= j < |sorted| - k && sorted[k..][j] == x;
      assert sorted[i] == y && sorted[k + j] == x;
    }
  }

  /** The three heaviest reasons: heaviest first, and none left out outweighs one kept. */
  lemma TopThreeAreHeaviest(reasons: seq<Reason>)
    ensures var top := Take(SortByWeight(reasons), 3);
      && |top| == (if |reasons| < 3 then |reasons| else 3)
      && Descending(top)
      && multiset(top) <= multiset(reasons)
      && forall x: Reason, y: Reason :: x in multiset(reasons) - multiset(top) && y in top ==> y.weight >= x.weight
  {
    var sorted := SortByWeight(reasons);
    var k := if |sorted| < 3 then |sorted| else 3;
    assert Take(sorted, 3) == sorted[..k];
    assert sorted == sorted[..k] + sorted[k..];
    assert multiset(sorted) == multiset(sorted[..k]) + multiset(sorted[k..]);
    HeavierPrefix(sorted, k);
  }

  /** Ranks the reasons and keeps the first three, dropping the weights. */
  function TopReasons(reasons: seq<Reason>): (top: seq<ReasonRef>)
    ensures |top| <= 3 && |top| <= |reasons|
    ensures |reasons| >= 3 ==> |top| == 3
  {
    Refs(Take(SortByWeight(reasons), 3))
  }
}
