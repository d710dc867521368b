// Ordering helpers shared by the history utilities: a stable insertion sort keyed by
// day number (the stand-in for `a.date.localeCompare(b.date)` on fixed-width
// YYYY-MM-DD keys), filtering, and the maximum of a key over a sequence.

module Order {
  import opened Values

  /** Ascending by `key`. */
  predicate SortedBy<T>(s: seq<T>, key: T -> int)
  {
    forall i, j :: 0 <= i < j < |s| ==> key(s[i]) <= key(s[j])
  }

  /** Inserts `x` after every element whose key is not greater, so equal keys keep their order. */
  function InsertBy<T(==)>(x: T, s: seq<T>, key: T -> int): (r: seq<T>)
    requires SortedBy(s, key)
    ensures SortedBy(r, key)
    ensures multiset(r) == multiset(s) + multiset{x}
    ensures |r| == |s| + 1
  {
    if s == [] then [x]
    else if key(x) < key(s[0]) then [x] + s
    else
      var rest := InsertBy(x, s[1..], key);
      InsertBehindHead(x, s, key, rest);
      [s[0]] + rest
  }

  /** Behind a head whose key is not greater than `x`'s, the insertion into the tail stays sorted. */
  lemma InsertBehindHead<T>(x: T, s: seq<T>, key: T -> int, rest: seq<T>)
    requires s != [] && SortedBy(s, key) && key(s[0]) <= key(x)
    requires SortedBy(rest, key) && multiset(rest) == multiset(s[1..]) + multiset{x}
    ensures SortedBy([s[0]] + rest, key)
    ensures multiset([s[0]] + rest) == multiset(s) + multiset{x}
  {
    HeadBelowTail(x, s, key, rest);
    SortedCons(s[0], rest, key);
    HeadTail(s);
  }

  /** Every element of the insertion into the tail has a key no smaller than the head's. */
  lemma HeadBelowTail<T>(x: T, s: seq<T>, key: T -> int, rest: seq<T>)
    requires s != [] && SortedBy(s, key) && key(s[0]) <= key(x)
    requires multiset(rest) == multiset(s[1..]) + multiset{x}
    ensures forall j :: 0 <= j < |rest| ==> key(s[0]) <= key(rest[j])
  {
    forall j | 0 <= j < |rest|
      ensures key(s[0]) <= key(rest[j])
    {
      assert rest[j] in multiset(rest);
      assert rest[j] == x || rest[j] in multiset(s[1..]);
      assert rest[j] == x || rest[j] in s[1..];
      assert forall y :: y in s[1..] ==> key(s[0]) <= key(y) by {
        assert forall i :: 0 <= i < |s| - 1 ==> s[1..][i] == s[i + 1];
      }
    }
  }

  /** A head whose key is at most every key of a sorted tail gives a sorted sequence. */
  lemma SortedCons<T>(h: T, rest: seq<T>, key: T -> int)
    requires SortedBy(rest, key) && forall j :: 0 <= j < |rest| ==> key(h) <= key(rest[j])
    ensures SortedBy([h] + rest, key)
  {
    var r := [h] + rest;
    assert forall i :: 1 <= i < |r| ==> r[i] == rest[i - 1];
  }

  /** `Array.prototype.sort` with a key comparator: stable, ascending by `key`. */
  function SortBy<T(==)>(s: seq<T>, key: T -> int): (r: seq<T>)
    ensures SortedBy(r, key)
    ensures multiset(r) == multiset(s)
    ensures |r| == |s|
  {
    if s == [] then []
    else
      FrontLast(s);
      InsertBy(s[|s| - 1], SortBy(s[..|s| - 1], key), key)
  }

  /** A permutation has the same members. */
  lemma SameMembers<T>(a: seq<T>, b: seq<T>)
    requires multiset(a) == multiset(b)
    ensures forall x :: x in a <==> x in b
  {
    forall x
      ensures x in a <==> x in b
    {
      assert x in a <==> x in multiset(a);
      assert x in b <==> x in multiset(b);
    }
  }

  /** The elements satisfying `p`, in their order. */
  function Filter<T(!new)>(s: seq<T>, p: T -> bool): (r: seq<T>)
    ensures |r| <= |s|
    ensures forall x :: x in r <==> x in s && p(x)
  {
    if s == [] then []
    else
      assert s == [s[0]] + s[1..];
      (if p(s[0]) then [s[0]] else []) + Filter(s[1..], p)
  }

  /** A filter keeps its elements in their order. */
  lemma {:induction false} FilterSub<T(!new)>(s: seq<T>, p: T -> bool)
    ensures Sub(Filter(s, p), s)
  {
    if s != [] {
      FilterSub(s[1..], p);
      var rest := Filter(s[1..], p);
      if p(s[0]) {
        assert Filter(s, p) == [s[0]] + rest;
        assert ([s[0]] + rest)[1..] == rest;
      } else {
        assert Filter(s, p) == rest;
        SubCons(rest, s[1..], s[0]);
        assert [s[0]] + s[1..] == s;
      }
    }
  }

  /** The greatest key in a non-empty sequence. */
  function MaxKey<T(==, !new)>(s: seq<T>, key: T -> int): (m: int)
    requires s != []
    ensures forall x :: x in s ==> key(x) <= m
    ensures exists x :: x in s && key(x) == m
  {
    if |s| == 1 then
      assert s[0] in s;
      key(s[0])
    else
      var m := MaxKey(s[1..], key);
      assert forall x :: x in s ==> x == s[0] || x in s[1..];
      assert s[0] in s;
      var w :| w in s[1..] && key(w) == m;
      assert w in s;
      if key(s[0]) >= m then key(s[0]) else m
  }

  /** The first element of a sorted sequence has the least key, the last the greatest. */
  lemma SortedEnds<T>(s: seq<T>, key: T -> int)
    requires s != [] && SortedBy(s, key)
    ensures forall x :: x in s ==> key(s[0]) <= key(x) <= key(s[|s| - 1])
  {
    forall x | x in s
      ensures key(s[0]) <= key(x) <= key(s[|s| - 1])
    {
      var i :| 0 <= i < |s| && s[i] == x;
    }
  }

  /** Sequences with the same elements have the same greatest key. */
  lemma MaxKeySameMembers<T(!new)>(a: seq<T>, b: seq<T>, key: T -> int)
    requires a != [] && multiset(a) == multiset(b)
    ensures b != [] && MaxKey(a, key) == MaxKey(b, key)
  {
    SameMembers(a, b);
    assert a[0] in b;
    var xa :| xa in a && key(xa) == MaxKey(a, key);
    var xb :| xb in b && key(xb) == MaxKey(b, key);
    assert xa in b && xb in a;
  }

  /** An element whose key is at least every key of `s` is inserted at the end. */
  lemma {:induction false} InsertLast<T>(x: T, s: seq<T>, key: T -> int)
    requires SortedBy(s, key)
    requires forall i :: 0 <= i < |s| ==> key(s[i]) <= key(x)
    ensures InsertBy(x, s, key) == s + [x]
  {
    if s != [] {
      InsertLast(x, s[1..], key);
      assert s == [s[0]] + s[1..];
    }
  }

  /** Sorting a sorted sequence changes nothing. */
  lemma {:induction false} SortBySorted<T>(s: seq<T>, key: T -> int)
    requires SortedBy(s, key)
    ensures SortBy(s, key) == s
  {
    if s != [] {
      var n := |s| - 1;
      var front := s[..n];
      assert forall i :: 0 <= i < n ==> front[i] == s[i];
      assert SortedBy(front, key);
      SortBySorted(front, key);
      assert forall i :: 0 <= i < n ==> key(front[i]) <= key(s[n]);
      InsertLast(s[n], front, key);
      FrontLast(s);
    }
  }
}
