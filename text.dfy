// String primitives the collector's parsers rest on: Python `str.strip`,
// `str.split`, `str.lower`, substring tests, the two date patterns searched for in
// ETF flow tables, and the decimal literals `float()` / `Number()` accept.

module Text {
  import opened Values

  /** A Python call that either returns a value or raises an exception with a message. */
  datatype Outcome<T> = Ok(value: T) | Raised(message: string)

  /** Which language's notion of whitespace applies. */
  datatype Dialect = Python | JavaScript

  predicate IsSpace(d: Dialect, c: char)
  {
    if d == Python then PySpace(c) else JsSpace(c)
  }

  /** The code points Python's `str.isspace` (and so `str.strip` and regex `\s`) treats as whitespace. */
  predicate PySpace(c: char)
  {
    var n := c as int;
    (9 <= n <= 13) || (28 <= n <= 32) || n == 0x85 || n == 0xA0 || n == 0x1680
    || (0x2000 <= n <= 0x200A) || n == 0x2028 || n == 0x2029 || n == 0x202F || n == 0x205F || n == 0x3000
  }

  /** The ECMAScript WhiteSpace and LineTerminator code points (`String.prototype.trim`, regex `\s`). */
  predicate JsSpace(c: char)
  {
    var n := c as int;
    (9 <= n <= 13) || n == 32 || n == 0xA0 || n == 0xFEFF || n == 0x1680
    || (0x2000 <= n <= 0x200A) || n == 0x2028 || n == 0x2029 || n == 0x202F || n == 0x205F || n == 0x3000
  }

  function TrimStart(s: string, d: Dialect): (r: string)
    ensures |r| <= |s|
    ensures r == [] || !IsSpace(d, r[0])
    ensures s == [] || !IsSpace(d, s[0]) ==> r == s
  {
    if s != [] && IsSpace(d, s[0]) then TrimStart(s[1..], d) else s
  }

  /** TrimStart keeps a suffix and every character it drops is a space. */
  lemma {:induction false} TrimStartDrops(s: string, d: Dialect)
    ensures var r := TrimStart(s, d);
      r == s[|s| - |r|..] && forall i :: 0 <= i < |s| - |r| ==> IsSpace(d, s[i])
  {
    if s != [] && IsSpace(d, s[0]) {
      TrimStartDrops(s[1..], d);
      var r := TrimStart(s, d);
      assert r == TrimStart(s[1..], d);
      assert s[1..][|s| - 1 - |r|..] == s[|s| - |r|..];
      forall i | 0 <= i < |s| - |r| ensures IsSpace(d, s[i]) {
        if i > 0 {
          assert s[i] == s[1..][i - 1];
        }
      }
    }
  }

  function TrimEnd(s: string, d: Dialect): (r: string)
    ensures |r| <= |s|
    ensures r == [] || (!IsSpace(d, r[|r| - 1]) && r[0] == s[0])
    ensures s == [] || !IsSpace(d, s[|s| - 1]) ==> r == s
  {
    if s != [] && IsSpace(d, s[|s| - 1]) then TrimEnd(s[..|s| - 1], d) else s
  }

  /** TrimEnd keeps a prefix and every character it drops is a space. */
  lemma {:induction false} TrimEndDrops(s: string, d: Dialect)
    ensures var r := TrimEnd(s, d);
      r == s[..|r|] && forall i :: |r| <= i < |s| ==> IsSpace(d, s[i])
  {
    if s != [] && IsSpace(d, s[|s| - 1]) {
      TrimEndDrops(s[..|s| - 1], d);
      var r := TrimEnd(s, d);
      assert r == TrimEnd(s[..|s| - 1], d);
      assert s[..|s| - 1][..|r|] == s[..|r|];
      forall i | |r| <= i < |s| ensures IsSpace(d, s[i]) {
        if i < |s| - 1 {
          assert s[i] == s[..|s| - 1][i];
        }
      }
    }
  }

  /** Drops the dialect's whitespace from both ends. */
  function Trim(s: string, d: Dialect): (r: string)
    ensures |r| <= |s|
    ensures r == [] || (!IsSpace(d, r[0]) && !IsSpace(d, r[|r| - 1]))
  {
    TrimEnd(TrimStart(s, d), d)
  }

  /** A trimmed string is its own trim exactly when it has no space at either end; trimming twice is trimming once. */
  lemma TrimFixpoint(s: string, d: Dialect)
    ensures Trim(s, d) == s <==> (s == [] || (!IsSpace(d, s[0]) && !IsSpace(d, s[|s| - 1])))
    ensures Trim(Trim(s, d), d) == Trim(s, d)
  {
    var t := Trim(s, d);
    var u := TrimStart(s, d);
    TrimEndDrops(u, d);
    if t != [] {
      assert t[0] == u[0];
    }
  }

  function PyStrip(s: string): (r: string)
    ensures |r| <= |s|
    ensures r == [] || (!PySpace(r[0]) && !PySpace(r[|r| - 1]))
  {
    Trim(s, Python)
  }

  function JsTrim(s: string): (r: string)
    ensures |r| <= |s|
    ensures r == [] || (!JsSpace(r[0]) && !JsSpace(r[|r| - 1]))
  {
    Trim(s, JavaScript)
  }

  /** `str.split(sep)` / `String.prototype.split(sep)` with a one-character separator: empty pieces are kept. */
  function Split(s: string, sep: char): (parts: seq<string>)
    ensures |parts| >= 1
    ensures forall i :: 0 <= i < |parts| ==> sep !in parts[i]
    decreases |s|
  {
    if s == [] then [""]
    else
      var rest := Split(s[1..], sep);
      if s[0] == sep then [""] + rest else [[s[0]] + rest[0]] + rest[1..]
  }

  /** Splitting and joining back with the separator is the identity. */
  lemma {:induction false} SplitJoin(s: string, sep: char)
    ensures Join(Split(s, sep), [sep]) == s
    decreases |s|
  {
    if s != [] {
      var rest := Split(s[1..], sep);
      SplitJoin(s[1..], sep);
      if s[0] == sep {
        assert Split(s, sep)[1..] == rest;
        assert s == [sep] + s[1..];
      } else if |rest| == 1 {
        assert s == [s[0]] + s[1..];
      } else {
        var parts := Split(s, sep);
        assert parts[1..] == rest[1..];
        assert Join(rest, [sep]) == rest[0] + [sep] + Join(rest[1..], [sep]);
        assert s == [s[0]] + s[1..];
      }
    }
  }

  /** A piece without the separator stays glued to the first piece of what follows it. */
  lemma {:induction false} SplitGlue(a: string, rest: string, sep: char)
    requires sep !in a
    ensures Split(a + rest, sep) == [a + Split(rest, sep)[0]] + Split(rest, sep)[1..]
    decreases |a|
  {
    if a != [] {
      assert a[0] in a;
      assert forall c :: c in a[1..] ==> c in a;
      SplitGlue(a[1..], rest, sep);
      assert (a + rest)[0] == a[0] != sep;
      assert (a + rest)[1..] == a[1..] + rest;
      assert [a[0]] + (a[1..] + Split(rest, sep)[0]) == a + Split(rest, sep)[0];
    } else {
      var parts := Split(rest, sep);
      assert a + rest == rest && a + parts[0] == parts[0];
      assert parts == [parts[0]] + parts[1..];
    }
  }

  /** Joining pieces free of the separator and splitting again gives the pieces back. */
  lemma {:induction false} JoinSplit(parts: seq<string>, sep: char)
    requires |parts| >= 1 && forall i :: 0 <= i < |parts| ==> sep !in parts[i]
    ensures Split(Join(parts, [sep]), sep) == parts
    decreases |parts|
  {
    if |parts| == 1 {
      SplitGlue(parts[0], "", sep);
      assert parts[0] + "" == parts[0];
    } else {
      var tail := Join(parts[1..], [sep]);
      JoinSplit(parts[1..], sep);
      assert Join(parts, [sep]) == parts[0] + ([sep] + tail);
      SplitGlue(parts[0], [sep] + tail, sep);
      assert ([sep] + tail)[1..] == tail;
      assert Split([sep] + tail, sep) == [""] + Split(tail, sep);
      assert parts[0] + "" == parts[0];
      assert parts == [parts[0]] + parts[1..];
    }
  }

  predicate StartsWith(s: string, prefix: string)
  {
    |prefix| <= |s| && s[..|prefix|] == prefix
  }

  predicate EndsWith(s: string, suffix: string)
  {
    |suffix| <= |s| && s[|s| - |suffix|..] == suffix
  }

  /** `sub in s`: `sub` occurs somewhere in `s`. */
  predicate Contains(s: string, sub: string)
    decreases |s|
  {
    StartsWith(s, sub) || (s != [] && Contains(s[1..], sub))
  }

  /** An occurrence at a position is an occurrence. */
  lemma {:induction false} ContainsAt(s: string, sub: string, i: nat)
    requires i + |sub| <= |s| && s[i..i + |sub|] == sub
    ensures Contains(s, sub)
    decreases i
  {
    if i > 0 {
      assert s[1..][i - 1..i - 1 + |sub|] == sub;
      ContainsAt(s[1..], sub, i - 1);
    }
  }

  /** An occurrence has a position. */
  lemma {:induction false} ContainsFind(s: string, sub: string) returns (i: nat)
    requires Contains(s, sub)
    ensures i + |sub| <= |s| && s[i..i + |sub|] == sub
    decreases |s|
  {
    if StartsWith(s, sub) {
      i := 0;
    } else {
      var j := ContainsFind(s[1..], sub);
      assert s[1..][j..j + |sub|] == s[j + 1..j + 1 + |sub|];
      i := j + 1;
    }
  }

  /** What occurs in either half occurs in the concatenation. */
  lemma ContainsInConcat(s: string, t: string, sub: string)
    ensures Contains(s, sub) ==> Contains(s + t, sub)
    ensures Contains(t, sub) ==> Contains(s + t, sub)
  {
    if Contains(s, sub) {
      var i := ContainsFind(s, sub);
      assert (s + t)[i..i + |sub|] == s[i..i + |sub|];
      ContainsAt(s + t, sub, i);
    }
    if Contains(t, sub) {
      var i := ContainsFind(t, sub);
      assert (s + t)[|s| + i..|s| + i + |sub|] == t[i..i + |sub|];
      ContainsAt(s + t, sub, |s| + i);
    }
  }

  /** What occurs in one of the parts occurs in their join. */
  lemma {:induction false} JoinContains(parts: seq<string>, sep: string, i: nat, sub: string)
    requires i < |parts| && Contains(parts[i], sub)
    ensures Contains(Join(parts, sep), sub)
    decreases i
  {
    if |parts| > 1 {
      var rest := Join(parts[1..], sep);
      if i == 0 {
        assert Join(parts, sep) == parts[0] + (sep + rest);
        ContainsInConcat(parts[0], sep + rest, sub);
      } else {
        JoinContains(parts[1..], sep, i - 1, sub);
        ContainsInConcat(parts[0] + sep, rest, sub);
      }
    }
  }

  /** A character absent from every part and from the separator is absent from the join. */
  lemma {:induction false} JoinAvoids(parts: seq<string>, sep: string, c: char)
    requires c !in sep && forall i :: 0 <= i < |parts| ==> c !in parts[i]
    ensures c !in Join(parts, sep)
    decreases |parts|
  {
    if |parts| > 1 {
      JoinAvoids(parts[1..], sep, c);
      assert Join(parts, sep) == parts[0] + sep + Join(parts[1..], sep);
    }
  }

  /** `str.lower` on the ASCII letters. */
  function Lower(s: string): (r: string)
    ensures |r| == |s|
    ensures forall i :: 0 <= i < |s| ==> r[i] == (if 'A' <= s[i] <= 'Z' then (s[i] as int + 32) as char else s[i])
  {
    if s == [] then []
    else [if 'A' <= s[0] <= 'Z' then (s[0] as int + 32) as char else s[0]] + Lower(s[1..])
  }

  /** `toUpperCase` on the ASCII letters. */
  function Upper(s: string): (r: string)
    ensures |r| == |s|
    ensures forall i :: 0 <= i < |s| ==> r[i] == (if 'a' <= s[i] <= 'z' then (s[i] as int - 32) as char else s[i])
  {
    if s == [] then []
    else [if 'a' <= s[0] <= 'z' then (s[0] as int - 32) as char else s[0]] + Upper(s[1..])
  }

  predicate IsDigit(c: char) { '0' <= c <= '9' }

  /** Regex `\w` on ASCII input. */
  predicate IsWordChar(c: char) { IsDigit(c) || 'a' <= c <= 'z' || 'A' <= c <= 'Z' || c == '_' }

  /** `\d{4}-\d{2}-\d{2}` matches at the start of `s`. */
  predicate IsoDateAt(s: string)
  {
    |s| >= 10 && IsDigit(s[0]) && IsDigit(s[1]) && IsDigit(s[2]) && IsDigit(s[3]) && s[4] == '-'
    && IsDigit(s[5]) && IsDigit(s[6]) && s[7] == '-' && IsDigit(s[8]) && IsDigit(s[9])
  }

  /** `\d{2}\s\w{3}\s\d{4}` matches at the start of `s`, with the dialect's `\s`. */
  predicate DayMonYearAt(s: string, d: Dialect)
  {
    |s| >= 11 && IsDigit(s[0]) && IsDigit(s[1]) && IsSpace(d, s[2])
    && IsWordChar(s[3]) && IsWordChar(s[4]) && IsWordChar(s[5]) && IsSpace(d, s[6])
    && IsDigit(s[7]) && IsDigit(s[8]) && IsDigit(s[9]) && IsDigit(s[10])
  }

  /** `re.search(r"\d{4}-\d{2}-\d{2}", s)`: a match starts at some position. */
  predicate HasIsoDate(s: string)
    decreases |s|
  {
    IsoDateAt(s) || (s != [] && HasIsoDate(s[1..]))
  }

  /** A search for `\d{2}\s\w{3}\s\d{4}` (Python `re.search`, JavaScript `RegExp.test`). */
  predicate HasDayMonYear(s: string, d: Dialect)
    decreases |s|
  {
    DayMonYearAt(s, d) || (s != [] && HasDayMonYear(s[1..], d))
  }

  /** A search finds a match exactly when one starts at some position. */
  lemma {:induction false} HasIsoDateAt(s: string)
    ensures HasIsoDate(s) <==> exists i :: 0 <= i <= |s| && IsoDateAt(s[i..])
    decreases |s|
  {
    if s != [] {
      HasIsoDateAt(s[1..]);
      if HasIsoDate(s[1..]) {
        var i :| 0 <= i <= |s[1..]| && IsoDateAt(s[1..][i..]);
        assert s[1..][i..] == s[i + 1..];
        assert 0 <= i + 1 <= |s| && IsoDateAt(s[i + 1..]);
      }
      if IsoDateAt(s) {
        assert s[0..] == s;
        assert IsoDateAt(s[0..]);
      }
      if exists i :: 0 <= i <= |s| && IsoDateAt(s[i..]) {
        var i :| 0 <= i <= |s| && IsoDateAt(s[i..]);
        if i > 0 {
          assert s[1..][i - 1..] == s[i..];
          assert 0 <= i - 1 <= |s[1..]| && IsoDateAt(s[1..][i - 1..]);
          assert HasIsoDate(s[1..]);
        } else {
          assert s[i..] == s;
          assert IsoDateAt(s);
        }
        assert HasIsoDate(s);
      }
    } else {
      assert forall i :: 0 <= i <= |s| ==> s[i..] == s;
    }
  }

  /** A date pattern needs at least ten characters. */
  lemma {:induction false} ShortHasNoDate(s: string)
    requires |s| < 10
    ensures !HasIsoDate(s) && !HasDayMonYear(s, Python) && !HasDayMonYear(s, JavaScript)
    decreases |s|
  {
    if s != [] {
      ShortHasNoDate(s[1..]);
    }
  }

  predicate AllDigits(s: string) { forall i :: 0 <= i < |s| ==> IsDigit(s[i]) }

  /** The value of a string of decimal digits. */
  function DigitsValue(s: string): nat
    requires AllDigits(s)
    decreases |s|
  {
    if s == [] then 0 else DigitsValue(s[..|s| - 1]) * 10 + (s[|s| - 1] as int - '0' as int)
  }

  /** `String(n)` for a count: its decimal digits. */
  function NatText(n: nat): (r: string)
    ensures r != [] && AllDigits(r)
    decreases n
  {
    if n < 10 then [('0' as int + n) as char] else NatText(n / 10) + [('0' as int + n % 10) as char]
  }

  /** `String(n)` for a whole number: a minus sign before the digits of a negative one. */
  function IntText(n: int): string
  {
    if n >= 0 then NatText(n) else "-" + NatText(-n)
  }

  /** The digits read back as the count. */
  lemma {:induction false} NatTextValue(n: nat)
    ensures DigitsValue(NatText(n)) == n
    decreases n
  {
    if n >= 10 {
      NatTextValue(n / 10);
      var s := NatText(n);
      assert s[..|s| - 1] == NatText(n / 10);
    }
  }

  /** Leading zeros do not change a digit string's value. */
  lemma {:induction false} LeadingZero(s: string)
    requires AllDigits(s)
    ensures AllDigits("0" + s) && DigitsValue("0" + s) == DigitsValue(s)
    decreases |s|
  {
    if s != [] {
      assert ("0" + s)[..|"0" + s| - 1] == "0" + s[..|s| - 1];
      LeadingZero(s[..|s| - 1]);
    }
  }

  /** The value of the digits after a decimal point: `0.d1d2...` is `(d1 + 0.d2...) / 10`. */
  function FractionValue(s: string): (f: real)
    requires AllDigits(s)
    ensures 0.0 <= f < 1.0
  {
    if s == [] then 0.0 else ((s[0] as int - '0' as int) as real + FractionValue(s[1..])) / 10.0
  }

  /** The first position of `c` in `s`. */
  function IndexOf(s: string, c: char): (i: nat)
    requires c in s
    ensures i < |s| && s[i] == c && c !in s[..i]
  {
    if s[0] == c then 0 else
      assert c in s[1..];
      var j := IndexOf(s[1..], c);
      assert s[..j + 1] == [s[0]] + s[1..][..j];
      j + 1
  }

  /**
   * An unsigned decimal literal: `digits`, `digits.digits`, `digits.` or `.digits`, with at
   * least one digit. Anything else is not a number.
   */
  function UnsignedDecimal(s: string): (r: Option<real>)
    ensures r.Some? ==> r.value >= 0.0
    ensures s != [] && AllDigits(s) ==> r == Some(DigitsValue(s) as real)
  {
    if '.' in s then
      var i := IndexOf(s, '.');
      var whole := s[..i];
      var frac := s[i + 1..];
      if AllDigits(whole) && AllDigits(frac) && |whole| + |frac| > 0 then
        Some(DigitsValue(whole) as real + FractionValue(frac))
      else None
    else if s != [] && AllDigits(s) then Some(DigitsValue(s) as real)
    else None
  }

  /** An optional `+` or `-` before an unsigned decimal literal. */
  function SignedDecimal(s: string): (r: Option<real>)
    ensures s != [] && s[0] == '-' ==> r == (match UnsignedDecimal(s[1..]) case Some(v) => Some(-v) case None => None)
    ensures s != [] && s[0] != '-' && s[0] != '+' ==> r == UnsignedDecimal(s)
  {
    if s != [] && s[0] == '-' then
      match UnsignedDecimal(s[1..])
      case Some(v) => Some(-v)
      case None => None
    else if s != [] && s[0] == '+' then UnsignedDecimal(s[1..])
    else UnsignedDecimal(s)
  }

  /** Python `float(s)` on decimal literals; `None` is the ValueError. */
  function PyFloat(s: string): (r: Option<real>)
    ensures PyStrip(s) == [] ==> r.None?
    ensures PyStrip(s) != [] && AllDigits(PyStrip(s)) ==> r == Some(DigitsValue(PyStrip(s)) as real)
  {
    SignedDecimal(PyStrip(s))
  }

  /** JavaScript `Number(s)` on decimal literals: blank text is 0, `None` is NaN. */
  function JsNumber(s: string): (r: Option<real>)
    ensures JsTrim(s) == [] ==> r == Some(0.0)
  {
    var t := JsTrim(s);
    if t == [] then Some(0.0) else SignedDecimal(t)
  }

  /** The message of the ValueError `float()` raises. */
  function FloatError(s: string): string
  {
    "could not convert string to float: '" + s + "'"
  }

  /** `replace("(", "-").replace(")", "").replace(",", "")`, and the same character map of the JavaScript parser. */
  function Clean(s: string): (r: string)
    ensures '(' !in r && ')' !in r && ',' !in r
    ensures |r| <= |s|
  {
    if s == [] then []
    else
      var rest := Clean(s[1..]);
      if s[0] == '(' then "-" + rest
      else if s[0] == ')' || s[0] == ',' then rest
      else [s[0]] + rest
  }

  /** Clean leaves a string without parentheses and commas alone, so cleaning twice is cleaning once. */
  lemma {:induction false} CleanIdentity(s: string)
    requires '(' !in s && ')' !in s && ',' !in s
    ensures Clean(s) == s
  {
    if s != [] {
      CleanIdentity(s[1..]);
      assert s == [s[0]] + s[1..];
    }
  }

  /** Clean distributes over concatenation. */
  lemma {:induction false} CleanAppend(a: string, b: string)
    ensures Clean(a + b) == Clean(a) + Clean(b)
  {
    if a != [] {
      assert (a + b)[1..] == a[1..] + b;
      CleanAppend(a[1..], b);
    } else {
      assert a + b == b;
    }
  }

  /** The text with every comma removed. */
  function DropCommas(s: string): (r: string)
    ensures ',' !in r
    ensures forall c :: c in r <==> c in s && c != ','
  {
    if s == [] then [] else (if s[0] == ',' then [] else [s[0]]) + DropCommas(s[1..])
  }

  predicate MoneyChar(c: char) { c == '-' || c == '.' || IsDigit(c) }

  /** The longest prefix of `s` made of digits, minus signs and points: the regex group `[-\d.]+`. */
  function MoneyRun(s: string): (r: string)
    ensures |r| <= |s| && r == s[..|r|]
    ensures forall i :: 0 <= i < |r| ==> MoneyChar(r[i])
    ensures |r| == |s| || !MoneyChar(s[|r|])
  {
    if s != [] && MoneyChar(s[0]) then [s[0]] + MoneyRun(s[1..]) else []
  }

  // ---- Python's ordering of strings and `sorted(set(...))`

  /** Python's `<` on strings: lexicographic order of code points. */
  predicate StrLess(a: string, b: string)
    decreases |a|
  {
    if a == [] then b != []
    else if b == [] then false
    else if a[0] != b[0] then a[0] < b[0]
    else StrLess(a[1..], b[1..])
  }

  lemma {:induction false} StrLessIrreflexive(a: string)
    ensures !StrLess(a, a)
    decreases |a|
  {
    if a != [] {
      StrLessIrreflexive(a[1..]);
    }
  }

  lemma {:induction false} StrLessTotal(a: string, b: string)
    ensures a == b || StrLess(a, b) || StrLess(b, a)
    decreases |a|
  {
    if a != [] && b != [] && a[0] == b[0] {
      StrLessTotal(a[1..], b[1..]);
      if a[1..] == b[1..] {
        assert a == [a[0]] + a[1..] && b == [b[0]] + b[1..];
      }
    }
  }

  lemma {:induction false} StrLessTrans(a: string, b: string, c: string)
    requires StrLess(a, b) && StrLess(b, c)
    ensures StrLess(a, c)
    decreases |a|
  {
    if a != [] && a[0] == b[0] && b[0] == c[0] {
      StrLessTrans(a[1..], b[1..], c[1..]);
    }
  }

  /** Each string is below the next. */
  predicate StrictlySorted(s: seq<string>)
  {
    forall i :: 0 <= i < |s| - 1 ==> StrLess(s[i], s[i + 1])
  }

  /** A strictly sorted list has every earlier string below every later one, so no repeats. */
  lemma {:induction false} StrictlySortedDistinct(s: seq<string>)
    requires StrictlySorted(s)
    ensures forall i, j :: 0 <= i < j < |s| ==> StrLess(s[i], s[j])
    ensures Distinct(s)
  {
    forall i, j | 0 <= i < j < |s|
      ensures StrLess(s[i], s[j])
    {
      var k := i + 1;
      while k < j
        invariant i + 1 <= k <= j && StrLess(s[i], s[k])
      {
        StrLessTrans(s[i], s[k], s[k + 1]);
        k := k + 1;
      }
    }
    forall i, j | 0 <= i < j < |s|
      ensures s[i] != s[j]
    {
      StrLessIrreflexive(s[i]);
    }
  }

  /** Insert `x` into a strictly sorted list unless it is already there. */
  function InsertUnique(x: string, s: seq<string>): (r: seq<string>)
    requires StrictlySorted(s)
    ensures StrictlySorted(r)
    ensures forall y :: y in r <==> y == x || y in s
    ensures r != [] && (r[0] == x || (s != [] && r[0] == s[0]))
  {
    if s == [] then [x]
    else if x == s[0] then s
    else if StrLess(x, s[0]) then [x] + s
    else
      StrLessTotal(x, s[0]);
      var rest := InsertUnique(x, s[1..]);
      assert s[1..] != [] ==> StrLess(s[0], s[1]);
      [s[0]] + rest
  }

  /** `sorted(set(s))`: the distinct strings of `s` in ascending order. */
  function SortedSet(s: seq<string>): (r: seq<string>)
    ensures StrictlySorted(r)
    ensures forall y :: y in r <==> y in s
  {
    if s == [] then [] else InsertUnique(s[0], SortedSet(s[1..]))
  }
}
