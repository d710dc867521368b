// Shared value model: JSON-like values, records keyed by field name,
// and small sequence helpers used across the dashboard model.

module Values {

  datatype Option<T> = None | Some(value: T)

  /** A JSON-like value as stored in a snapshot record. */
  datatype Value = Num(n: real) | Bool(b: bool) | Str(s: string) | Null | Obj(fields: map<string, Value>) | Arr(items: seq<Value>)

  /** A snapshot record: field name to value; an absent key is JavaScript `undefined`. */
  type Record = map<string, Value>

  /**
   * What a collector fetcher returns: data, the source label of each key, the keys it
   * could not supply and extra notes (empty for the fetchers that return a triple).
   */
  datatype Block = Block(data: Record, sources: map<string, string>, missing: seq<string>, errors: seq<string>)

  /** JavaScript truthiness (NaN is not modelled, so every non-zero number is truthy). */
  predicate Truthy(v: Value)
  {
    match v
    case Num(n) => n != 0.0
    case Bool(b) => b
    case Str(s) => s != ""
    case Null => false
    case Obj(_) => true
    case Arr(_) => true
  }

  /** `record[key] == null` in JavaScript: the key is absent or holds null. */
  predicate IsNullish(r: Record, key: string)
  {
    key !in r || r[key] == Null
  }

  /** `keys.filter((key) => record[key] == null)`: the keys, in order, that are absent or null. */
  function NullishKeys(keys: seq<string>, data: Record): (r: seq<string>)
    ensures forall k :: k in r <==> k in keys && IsNullish(data, k)
  {
    if keys == [] then []
    else
      var front := NullishKeys(keys[..|keys| - 1], data);
      var k := keys[|keys| - 1];
      assert keys == keys[..|keys| - 1] + [k];
      if IsNullish(data, k) then front + [k] else front
  }

  /** The nullish keys keep the order of `keys`. */
  lemma {:induction false} NullishKeysOrdered(keys: seq<string>, data: Record)
    ensures Sub(NullishKeys(keys, data), keys)
    decreases |keys|
  {
    if keys != [] {
      var n := |keys| - 1;
      NullishKeysOrdered(keys[..n], data);
      assert keys[..n + 1] == keys;
      SubStep(NullishKeys(keys[..n], data), keys, n, IsNullish(data, keys[n]));
    } else {
      assert NullishKeys(keys, data) == [];
    }
  }

  predicate IsNum(v: Value) { v.Num? }
  predicate IsBool(v: Value) { v.Bool? }

  /** A non-empty sequence is its head followed by its tail. */
  lemma HeadTail<T>(s: seq<T>)
    requires s != []
    ensures [s[0]] + s[1..] == s
  {
  }

  /** A non-empty sequence is its front followed by its last element. */
  lemma FrontLast<T>(s: seq<T>)
    requires s != []
    ensures s[..|s| - 1] + [s[|s| - 1]] == s
  {
  }

  /** `s` is an order-preserving subsequence of `full`. */
  predicate Sub<T(==)>(s: seq<T>, full: seq<T>)
    decreases |full|
  {
    if s == [] then true
    else if full == [] then false
    else if s[0] == full[0] then Sub(s[1..], full[1..])
    else Sub(s, full[1..])
  }

  /** Appending to both sides, or to the full sequence only, keeps a subsequence. */
  lemma {:induction false} SubSnoc<T>(s: seq<T>, full: seq<T>, x: T)
    requires Sub(s, full)
    ensures Sub(s + [x], full + [x]) && Sub(s, full + [x])
    decreases |full|
  {
    if s == [] {
      if full != [] {
        SubSnoc(s, full[1..], x);
        assert (full + [x])[1..] == full[1..] + [x];
      }
    } else {
      assert (s + [x])[1..] == s[1..] + [x];
      assert (full + [x])[1..] == full[1..] + [x];
      if s[0] == full[0] {
        SubSnoc(s[1..], full[1..], x);
      } else {
        SubSnoc(s, full[1..], x);
      }
    }
  }

  /** One conditional push of the next label in a fixed order keeps the list an ordered subsequence of that order. */
  lemma SubStep<T>(s: seq<T>, full: seq<T>, k: nat, take: bool)
    requires k < |full| && Sub(s, full[..k])
    ensures Sub(if take then s + [full[k]] else s, full[..k + 1])
  {
    assert full[..k + 1] == full[..k] + [full[k]];
    SubSnoc(s, full[..k], full[k]);
  }

  /** Dropping the head of a subsequence keeps a subsequence. */
  lemma {:induction false} SubTail<T>(s: seq<T>, full: seq<T>)
    requires s != [] && Sub(s, full)
    ensures Sub(s[1..], full)
    decreases |full|, 0
  {
    if s[0] == full[0] {
      SubCons(s[1..], full[1..], full[0]);
      assert [full[0]] + full[1..] == full;
    } else {
      SubTail(s, full[1..]);
      SubCons(s[1..], full[1..], full[0]);
      assert [full[0]] + full[1..] == full;
    }
  }

  /** Prepending to the full sequence keeps a subsequence. */
  lemma {:induction false} SubCons<T>(s: seq<T>, full: seq<T>, y: T)
    requires Sub(s, full)
    ensures Sub(s, [y] + full)
    decreases |full|, 1
  {
    assert ([y] + full)[1..] == full;
    if s != [] && s[0] == y {
      SubTail(s, full);
    }
  }

  /** Subsequences of two sequences concatenate to a subsequence of their concatenation. */
  lemma {:induction false} SubConcat<T>(a: seq<T>, full: seq<T>, b: seq<T>, rest: seq<T>)
    requires Sub(a, full) && Sub(b, rest)
    ensures Sub(a + b, full + rest)
    decreases |full|
  {
    if a == [] {
      assert a + b == b;
      SubPrefix(b, full, rest);
    } else {
      assert (a + b)[1..] == a[1..] + b;
      assert (full + rest)[1..] == full[1..] + rest;
      if a[0] == full[0] {
        SubConcat(a[1..], full[1..], b, rest);
      } else {
        SubConcat(a, full[1..], b, rest);
      }
    }
  }

  lemma {:induction false} SubPrefix<T>(b: seq<T>, full: seq<T>, rest: seq<T>)
    requires Sub(b, rest)
    ensures Sub(b, full + rest)
    decreases |full|
  {
    if full != [] {
      SubPrefix(b, full[1..], rest);
      SubCons(b, full[1..] + rest, full[0]);
      assert [full[0]] + (full[1..] + rest) == full + rest;
    } else {
      assert full + rest == rest;
    }
  }

  /** A subsequence is no longer than the full sequence. */
  lemma {:induction false} SubLength<T>(s: seq<T>, full: seq<T>)
    requires Sub(s, full)
    ensures |s| <= |full|
    decreases |full|
  {
    if s != [] {
      if s[0] == full[0] {
        SubLength(s[1..], full[1..]);
      } else {
        SubLength(s, full[1..]);
      }
    }
  }

  /** Every element of a subsequence occurs in the full sequence. */
  lemma {:induction false} SubIn<T>(s: seq<T>, full: seq<T>, x: T)
    requires Sub(s, full) && x in s
    ensures x in full
    decreases |full|
  {
    if s[0] == full[0] {
      if x != s[0] {
        assert x in s[1..];
        SubIn(s[1..], full[1..], x);
      }
    } else {
      SubIn(s, full[1..], x);
    }
  }

  /** Appends `x` when the condition holds. */
  function PushIf<T(!new)>(acc: seq<T>, x: T, cond: bool): (r: seq<T>)
    ensures r == if cond then acc + [x] else acc
    ensures forall y :: y in r <==> y in acc || (cond && y == x)
  {
    if cond then acc + [x] else acc
  }

  /** No element occurs twice. */
  predicate Distinct<T(==)>(s: seq<T>)
  {
    forall i, j :: 0 <= i < j < |s| ==> s[i] != s[j]
  }

  /** `Array.prototype.join(sep)` over strings. */
  function Join(parts: seq<string>, sep: string): string
  {
    if |parts| == 0 then ""
    else if |parts| == 1 then parts[0]
    else parts[0] + sep + Join(parts[1..], sep)
  }

  /** `s.slice(0, n)`: the first `n` elements, or all of them. */
  function Take<T>(s: seq<T>, n: nat): (r: seq<T>)
    ensures |r| <= n && |r| <= |s|
    ensures r == s[..|r|]
    ensures |s| <= n ==> r == s
    ensures n <= |s| ==> |r| == n
  {
    if |s| <= n then s else s[..n]
  }

  /** `s.slice(-n)`: the last `n` elements, or all of them. */
  function TakeLast<T>(s: seq<T>, n: nat): (r: seq<T>)
    ensures |r| <= n && |r| <= |s|
    ensures r == s[|s| - |r|..]
    ensures |s| <= n ==> r == s
  {
    if |s| <= n then s else s[|s| - n..]
  }

  function Reverse<T>(s: seq<T>): (r: seq<T>)
    ensures |r| == |s|
    ensures forall i :: 0 <= i < |s| ==> r[i] == s[|s| - 1 - i]
  {
    if s == [] then [] else Reverse(s[1..]) + [s[0]]
  }

  function SumReals(s: seq<real>): real
  {
    if s == [] then 0.0 else s[0] + SumReals(s[1..])
  }

  function BoolToNat(b: bool): nat { if b then 1 else 0 }

  /** `part / total` for a non-zero total and a part no larger lies in [0, 1] and undoes the division. */
  lemma RatioBounds(part: nat, total: nat)
    requires part <= total && total > 0
    ensures 0.0 <= part as real / total as real <= 1.0
    ensures (part as real / total as real) * total as real == part as real
  {
  }

  function Abs(x: real): real { if x < 0.0 then -x else x }

  function MaxReal(a: real, b: real): real { if a >= b then a else b }

  function MinReal(a: real, b: real): real { if a <= b then a else b }

  function MaxInt(a: int, b: int): int { if a >= b then a else b }

  /** The elements of `s` without repeats, each at its first occurrence: the order of a JavaScript `Set`. */
  function Dedup<T(==, !new)>(s: seq<T>): (r: seq<T>)
    ensures Distinct(r)
    ensures forall x :: x in r <==> x in s
  {
    if s == [] then []
    else
      var d := Dedup(s[..|s| - 1]);
      assert s == s[..|s| - 1] + [s[|s| - 1]];
      if s[|s| - 1] in d then d else d + [s[|s| - 1]]
  }

  /** Appending one element to the input appends it to the result unless it was there already. */
  lemma DedupSnoc<T(!new)>(s: seq<T>, x: T)
    ensures Dedup(s + [x]) == if x in Dedup(s) then Dedup(s) else Dedup(s) + [x]
  {
    var t := s + [x];
    assert t[..|t| - 1] == s;
  }

  /** `v?.[name]`: a property of an object; anything else (and an absent key) reads as undefined. */
  function Prop(v: Value, name: string): Value
  {
    if v.Obj? && name in v.fields then v.fields[name] else Null
  }

  /** A value inside a template literal: a string as it is, anything else through `String()`. */
  function Shown(v: Value, show: Value -> string): string
  {
    if v.Str? then v.s else show(v)
  }

  /** The items of an array value; a missing list reads as empty. */
  function Items(v: Value): seq<Value>
  {
    if v.Arr? then v.items else []
  }

  /** `f` applied to each element, in order. */
  function MapSeq<T, U>(xs: seq<T>, f: T -> U): (r: seq<U>)
    ensures |r| == |xs| && forall i :: 0 <= i < |xs| ==> r[i] == f(xs[i])
  {
    seq(|xs|, i requires 0 <= i < |xs| => f(xs[i]))
  }

  /** Mapping one more element appends its image. */
  lemma MapSeqSnoc<T, U>(xs: seq<T>, f: T -> U, k: nat)
    requires k < |xs|
    ensures MapSeq(xs[..k + 1], f) == MapSeq(xs[..k], f) + [f(xs[k])]
  {
    var a := MapSeq(xs[..k + 1], f);
    var b := MapSeq(xs[..k], f) + [f(xs[k])];
    forall i | 0 <= i < |a| ensures a[i] == b[i] {
      assert xs[..k + 1][i] == xs[i];
      if i < k {
        assert xs[..k][i] == xs[i];
      }
    }
  }

  /** The position of the first occurrence of `x`. */
  function FirstIndex<T(==)>(s: seq<T>, x: T): (i: nat)
    requires x in s
    ensures i < |s| && s[i] == x && x !in s[..i]
  {
    if s[0] == x then 0
    else
      var j := FirstIndex(s[1..], x);
      assert s[..j + 1] == [s[0]] + s[1..][..j];
      j + 1
  }

  /** A position holding `x` with no `x` before it is the first occurrence. */
  lemma FirstIndexUnique<T>(s: seq<T>, x: T, i: nat)
    requires i < |s| && s[i] == x && x !in s[..i]
    ensures FirstIndex(s, x) == i
  {
    var k := FirstIndex(s, x);
    assert forall j :: 0 <= j < i ==> s[..i][j] == s[j];
    assert forall j :: 0 <= j < k ==> s[..k][j] == s[j];
  }

  /** Dedup lists the elements in the order of their first occurrences. */
  lemma {:induction false} DedupFirstOrder<T(!new)>(s: seq<T>)
    ensures forall i, j :: 0 <= i < j < |Dedup(s)| ==> FirstIndex(s, Dedup(s)[i]) < FirstIndex(s, Dedup(s)[j])
    decreases |s|
  {
    if s != [] {
      var front := s[..|s| - 1];
      var x := s[|s| - 1];
      assert front + [x] == s;
      DedupFirstOrder(front);
      DedupSnoc(front, x);
      var d := Dedup(front);
      var r := Dedup(s);
      forall y | y in front ensures FirstIndex(s, y) == FirstIndex(front, y) {
        var i := FirstIndex(front, y);
        assert s[..i] == front[..i];
        FirstIndexUnique(s, y, i);
      }
      forall i, j | 0 <= i < j < |r| ensures FirstIndex(s, r[i]) < FirstIndex(s, r[j]) {
        assert r[i] == d[i] && r[i] in front;
        if j < |d| {
          assert r[j] == d[j] && r[j] in front;
        } else {
          assert r[j] == x && x !in front;
          assert s[..|front|] == front;
          FirstIndexUnique(s, x, |front|);
        }
      }
    }
  }

  /** A subsequence of a sequence without repeats has none either. */
  lemma {:induction false} SubDistinct<T>(s: seq<T>, full: seq<T>)
    requires Sub(s, full) && Distinct(full)
    ensures Distinct(s)
    decreases |full|
  {
    if s != [] && full != [] {
      assert Distinct(full[1..]) by {
        forall i, j | 0 <= i < j < |full| - 1 ensures full[1..][i] != full[1..][j] {
          assert full[1..][i] == full[i + 1] && full[1..][j] == full[j + 1];
        }
      }
      if s[0] == full[0] {
        SubDistinct(s[1..], full[1..]);
        SubMembers(s[1..], full[1..]);
        assert s[0] !in full[1..] by {
          assert forall k :: 0 <= k < |full| - 1 ==> full[1..][k] == full[k + 1];
        }
        forall i, j | 0 <= i < j < |s| ensures s[i] != s[j] {
          if i == 0 {
            assert s[j] == s[1..][j - 1] && s[j] in s[1..];
          } else {
            assert s[i] == s[1..][i - 1] && s[j] == s[1..][j - 1];
          }
        }
      } else {
        SubDistinct(s, full[1..]);
      }
    }
  }

  /** The elements of a subsequence are elements of the sequence. */
  lemma {:induction false} SubMembers<T>(s: seq<T>, full: seq<T>)
    requires Sub(s, full)
    ensures forall x :: x in s ==> x in full
    decreases |full|
  {
    if s != [] && full != [] {
      if s[0] == full[0] {
        SubMembers(s[1..], full[1..]);
        assert forall x :: x in s ==> x == s[0] || x in s[1..];
      } else {
        SubMembers(s, full[1..]);
      }
    }
  }
}
