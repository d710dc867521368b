// The ETF flow parsers of the snapshot collector (scripts/collector.py:396-530)
// and of its JavaScript twin (src/data/adapters.js:113-146): number and money
// strings, the pipe-delimited Farside table, the bot-wall test and the fallback
// to the proxied copy of a page. HTTP is a function from URL to response text.

module Farside {
  import opened Values
  import opened Text
  import Series

  // ---- scripts/collector.py:396-420

  /** The three dash spellings the flow tables use for "no flow". */
  predicate IsDash(s: string) { |s| == 1 && (s[0] == '-' || s[0] == '—' || s[0] == '–') }

  /** parse_number: blank text or a dash is 0; otherwise `(` becomes `-`, `)` and `,` go, and `float()` reads the rest. */
  function ParseNumber(value: string): (r: Outcome<real>)
    ensures value == "" ==> r == Ok(0.0)
    ensures r.Raised? ==> r.message == FloatError(Clean(PyStrip(value)))
  {
    if value == "" then Ok(0.0)
    else
      var raw := PyStrip(value);
      if IsDash(raw) then Ok(0.0)
      else
        var cleaned := Clean(raw);
        match PyFloat(cleaned)
        case Some(v) => Ok(v)
        case None => Raised(FloatError(cleaned))
  }

  /** A cell holding only a dash, padded or not, reads as no flow. */
  lemma DashIsZero(value: string)
    requires IsDash(PyStrip(value))
    ensures ParseNumber(value) == Ok(0.0)
  {
  }

  /** The characters of a decimal literal are digits and at most the point. */
  lemma DecimalChars(u: string)
    requires UnsignedDecimal(u).Some?
    ensures u != [] && forall i :: 0 <= i < |u| ==> IsDigit(u[i]) || u[i] == '.'
  {
    if '.' in u {
      var i := IndexOf(u, '.');
      assert u == u[..i] + "." + u[i + 1..];
      forall k | 0 <= k < |u| ensures IsDigit(u[k]) || u[k] == '.' {
        if k < i {
          assert u[k] == u[..i][k];
        } else if k > i {
          assert u[k] == u[i + 1..][k - i - 1];
        }
      }
    }
  }

  /** A literal with no space at either end is its own strip. */
  lemma StripBare(s: string)
    requires s != [] && !PySpace(s[0]) && !PySpace(s[|s| - 1])
    ensures PyStrip(s) == s
  {
    TrimFixpoint(s, Python);
  }

  /** A plain decimal parses to its value, and the same decimal in parentheses to its negation. */
  lemma ParenthesizedIsNegative(u: string)
    requires UnsignedDecimal(u).Some?
    ensures ParseNumber(u) == Ok(UnsignedDecimal(u).value)
    ensures ParseNumber("(" + u + ")") == Ok(-UnsignedDecimal(u).value)
  {
    PlainParses(u);
    var w := "(" + u + ")";
    StripBare(w);
    ParenCleans(u);
    NegatedParses(u);
    assert !IsDash(w);
  }

  lemma PlainParses(u: string)
    requires UnsignedDecimal(u).Some?
    ensures '(' !in u && ')' !in u && ',' !in u
    ensures ParseNumber(u) == Ok(UnsignedDecimal(u).value)
  {
    DecimalChars(u);
    assert '(' !in u && ')' !in u && ',' !in u by {
      forall i | 0 <= i < |u| ensures u[i] != '(' && u[i] != ')' && u[i] != ',' {
        assert IsDigit(u[i]) || u[i] == '.';
      }
    }
    CleanIdentity(u);
    StripBare(u);
    assert !IsDash(u);
    assert SignedDecimal(u) == UnsignedDecimal(u);
  }

  /** The parentheses of a decimal become a leading minus. */
  lemma ParenCleans(u: string)
    requires '(' !in u && ')' !in u && ',' !in u
    ensures Clean("(" + u + ")") == "-" + u
  {
    CleanIdentity(u);
    CleanAppend("(" + u, ")");
    CleanAppend("(", u);
    assert Clean(")") == "";
    assert Clean("(") == "-";
  }

  /** A minus before a decimal negates its value. */
  lemma NegatedParses(u: string)
    requires UnsignedDecimal(u).Some?
    ensures PyFloat("-" + u) == Some(-UnsignedDecimal(u).value)
  {
    DecimalChars(u);
    var m := "-" + u;
    assert m[0] == '-' && m[|m| - 1] == u[|u| - 1] && m[1..] == u;
    assert IsDigit(u[|u| - 1]) || u[|u| - 1] == '.';
    StripBare(m);
    assert SignedDecimal(m) == Some(-UnsignedDecimal(u).value);
  }

  /** Thousands separators are ignored. */
  lemma CommaIgnored(a: string, b: string)
    requires a != [] && b != [] && !PySpace(a[0]) && !PySpace(b[|b| - 1])
    ensures ParseNumber(a + "," + b) == ParseNumber(a + b)
  {
    var s := a + "," + b;
    var t := a + b;
    StripBare(s);
    StripBare(t);
    CleanAppend(a + ",", b);
    CleanAppend(a, ",");
    CleanAppend(a, b);
    assert Clean(",") == "";
    assert Clean(a) + "" == Clean(a);
    assert Clean(s) == Clean(t);
    assert |t| >= 2 && |s| >= 2;
    assert !IsDash(s) && !IsDash(t);
  }

  /** A number scaled by the K, M or B that starts `rest`, matched case-insensitively; any other text leaves it alone. */
  function WithUnit(v: real, rest: string): (x: real)
    ensures rest == [] || (rest[0] != 'K' && rest[0] != 'k' && rest[0] != 'M' && rest[0] != 'm' && rest[0] != 'B' && rest[0] != 'b') ==> x == v
    ensures rest != [] && (rest[0] == 'K' || rest[0] == 'k') ==> x == v * 1000.0
    ensures rest != [] && (rest[0] == 'M' || rest[0] == 'm') ==> x == v * 1000000.0
    ensures rest != [] && (rest[0] == 'B' || rest[0] == 'b') ==> x == v * 1000000000.0
  {
    if rest == [] then v
    else if rest[0] == 'K' || rest[0] == 'k' then v * 1000.0
    else if rest[0] == 'M' || rest[0] == 'm' then v * 1000000.0
    else if rest[0] == 'B' || rest[0] == 'b' then v * 1000000000.0
    else v
  }

  /**
   * parse_money: commas go, the leading run of digits, minus signs and points is the
   * number, and a K/M/B after optional spaces scales it. No leading number gives 0;
   * a run `float()` cannot read raises.
   */
  function ParseMoney(value: Option<string>): (r: Outcome<real>)
    ensures value.None? ==> r == Ok(0.0)
    ensures value.Some? && (var raw := DropCommas(PyStrip(value.value)); raw == [] || !MoneyChar(raw[0])) ==> r == Ok(0.0)
  {
    match value
    case None => Ok(0.0)
    case Some(text) => ScaledMoney(DropCommas(PyStrip(text)))
  }

  /** The regex match and the unit scaling of parse_money, on the stripped text without commas. */
  function ScaledMoney(raw: string): (r: Outcome<real>)
    ensures raw == [] || !MoneyChar(raw[0]) ==> r == Ok(0.0)
    ensures r.Raised? ==> r.message == FloatError(MoneyRun(raw))
  {
    var number := MoneyRun(raw);
    if number == [] then Ok(0.0)
    else
      match PyFloat(number)
      case Some(v) => Ok(WithUnit(v, TrimStart(raw[|number|..], Python)))
      case None => Raised(FloatError(number))
  }

  lemma {:induction false} DropCommasIdentity(s: string)
    requires ',' !in s
    ensures DropCommas(s) == s
  {
    if s != [] {
      DropCommasIdentity(s[1..]);
      assert s == [s[0]] + s[1..];
    }
  }

  lemma {:induction false} MoneyRunStops(u: string, rest: string)
    requires forall i :: 0 <= i < |u| ==> MoneyChar(u[i])
    requires rest == [] || !MoneyChar(rest[0])
    ensures MoneyRun(u + rest) == u
  {
    if u != [] {
      assert (u + rest)[1..] == u[1..] + rest;
      MoneyRunStops(u[1..], rest);
      assert u == [u[0]] + u[1..];
    } else {
      assert u + rest == rest;
    }
  }

  /** A decimal with a unit letter right after it is the decimal times the unit, whatever the letter's case. */
  lemma MoneyWithUnit(u: string, unit: char)
    requires UnsignedDecimal(u).Some?
    requires !PySpace(unit) && !MoneyChar(unit) && unit != ','
    ensures ParseMoney(Some(u + [unit])) == Ok(WithUnit(UnsignedDecimal(u).value, [unit]))
  {
    DecimalChars(u);
    var s := u + [unit];
    StripBare(s);
    assert ',' !in s by {
      forall i | 0 <= i < |s| ensures s[i] != ',' {
        if i < |u| {
          assert s[i] == u[i];
        }
      }
    }
    DropCommasIdentity(s);
    assert DropCommas(PyStrip(s)) == s;
    MoneyRunStops(u, [unit]);
    assert MoneyRun(s) == u;
    assert s[|u|..] == [unit];
    assert TrimStart([unit], Python) == [unit];
    StripBare(u);
    assert u[0] != '-' && u[0] != '+';
    assert PyFloat(u) == Some(UnsignedDecimal(u).value);
    assert ScaledMoney(s) == Ok(WithUnit(UnsignedDecimal(u).value, [unit]));
  }

  /** "12.5" reads as twelve and a half. */
  lemma TwelvePointFive()
    ensures UnsignedDecimal("12.5") == Some(12.5)
  {
    assert IndexOf("12.5", '.') == 2;
    assert "12.5"[..2] == "12" && "12.5"[3..] == "5";
    assert "5"[1..] == "" && "5"[0] == '5';
    assert FractionValue("5") == (5.0 + FractionValue("")) / 10.0;
    assert DigitsValue("12") == 12 && FractionValue("5") == 0.5;
  }

  /** "12.5M" is 12,500,000. */
  lemma TwelveAndAHalfMillion()
    ensures ParseMoney(Some("12.5M")) == Ok(12500000.0)
  {
    TwelvePointFive();
    MoneyWithUnit("12.5", 'M');
    assert "12.5" + ['M'] == "12.5M";
  }

  /** The unit letter is read in either case. */
  lemma UnitIgnoresCase(u: string)
    requires UnsignedDecimal(u).Some?
    ensures ParseMoney(Some(u + ['m'])) == ParseMoney(Some(u + ['M']))
    ensures ParseMoney(Some(u + ['k'])) == ParseMoney(Some(u + ['K']))
    ensures ParseMoney(Some(u + ['b'])) == ParseMoney(Some(u + ['B']))
  {
    UnitPair(u, 'm', 'M');
    UnitPair(u, 'k', 'K');
    UnitPair(u, 'b', 'B');
  }

  /** Two spellings of a unit letter that scale alike read alike. */
  lemma UnitPair(u: string, lower: char, upper: char)
    requires UnsignedDecimal(u).Some?
    requires (lower, upper) in {('m', 'M'), ('k', 'K'), ('b', 'B')}
    ensures ParseMoney(Some(u + [lower])) == ParseMoney(Some(u + [upper]))
  {
    MoneyWithUnit(u, lower);
    MoneyWithUnit(u, upper);
    assert WithUnit(UnsignedDecimal(u).value, [lower]) == WithUnit(UnsignedDecimal(u).value, [upper]);
  }

  // ---- scripts/collector.py:423-436, parse_farside_table

  datatype FlowRow = FlowRow(date: string, total: real)

  /** A line of a pipe table: once stripped it starts with `|`. */
  predicate IsPipeLine(line: string) { StartsWith(PyStrip(line), "|") }

  function StripAll(parts: seq<string>): (cells: seq<string>)
    ensures |cells| == |parts|
    ensures forall i :: 0 <= i < |parts| ==> cells[i] == PyStrip(parts[i])
  {
    if parts == [] then [] else [PyStrip(parts[0])] + StripAll(parts[1..])
  }

  /** The cells of a pipe-separated line, each stripped of white space. */
  function Cells(line: string): seq<string>
  {
    StripAll(Split(line, '|'))
  }

  /** A cell holding a yyyy-mm-dd or a "dd Mon yyyy" date somewhere. */
  predicate FlowDate(cell: string) { HasIsoDate(cell) || HasDayMonYear(cell, Python) }

  /** A kept line: a pipe line with more than three cells and a date in its second cell. */
  predicate IsFlowLine(line: string)
  {
    IsPipeLine(line) && |Cells(line)| > 3 && FlowDate(Cells(line)[1])
  }

  /** The cell lists of the kept lines, in table order. */
  function TableRows(lines: seq<string>): (rows: seq<seq<string>>)
    ensures |rows| <= |lines|
    ensures forall j :: 0 <= j < |rows| ==> |rows[j]| > 3 && FlowDate(rows[j][1])
  {
    if lines == [] then []
    else
      var rest := TableRows(lines[..|lines| - 1]);
      var line := lines[|lines| - 1];
      if IsFlowLine(line) then rest + [Cells(line)] else rest
  }

  /** Every row has more than three cells, as every kept line does. */
  predicate Wide(rows: seq<seq<string>>)
  {
    forall j :: 0 <= j < |rows| ==> |rows[j]| > 3
  }

  /** The list comprehension over the kept rows: the date cell and the total from the next-to-last cell; the first unreadable total raises. */
  function ParseTotals(rows: seq<seq<string>>): (r: Outcome<seq<FlowRow>>)
    requires Wide(rows)
    ensures r.Ok? ==> |r.value| <= |rows|
  {
    if rows == [] then Ok([])
    else
      match ParseTotals(rows[..|rows| - 1])
      case Raised(m) => Raised(m)
      case Ok(front) =>
        var row := rows[|rows| - 1];
        if row[1] == "" then Ok(front)
        else
          match ParseNumber(row[|row| - 2])
          case Raised(m) => Raised(m)
          case Ok(total) => Ok(front + [FlowRow(row[1], total)])
  }

  /** When every row has a date cell, each row gives one entry: its date and its parsed total. */
  lemma {:induction false} DatedTotals(rows: seq<seq<string>>)
    requires Wide(rows) && forall j :: 0 <= j < |rows| ==> rows[j][1] != ""
    requires ParseTotals(rows).Ok?
    ensures var parsed := ParseTotals(rows).value;
      |parsed| == |rows| && forall j :: 0 <= j < |rows| ==> DatedEntry(rows[j], parsed[j])
  {
    if rows != [] {
      var front := rows[..|rows| - 1];
      var row := rows[|rows| - 1];
      assert forall j :: 0 <= j < |front| ==> front[j] == rows[j];
      DatedStep(rows);
      DatedTotals(front);
      var parsed := ParseTotals(rows).value;
      var before := ParseTotals(front).value;
      var last := FlowRow(row[1], ParseNumber(row[|row| - 2]).value);
      assert parsed == before + [last];
      assert DatedEntry(row, last);
      assert forall j :: 0 <= j < |front| ==> parsed[j] == before[j];
    }
  }

  /** The entry a dated row gives: its date and its parsed total. */
  predicate DatedEntry(row: seq<string>, entry: FlowRow)
    requires |row| > 3
  {
    entry.date == row[1] && ParseNumber(row[|row| - 2]) == Ok(entry.total)
  }

  /** A dated last row adds one entry to what the rows before it give. */
  lemma DatedStep(rows: seq<seq<string>>)
    requires rows != [] && Wide(rows)
    requires rows[|rows| - 1][1] != "" && ParseTotals(rows).Ok?
    ensures var row := rows[|rows| - 1]; var front := rows[..|rows| - 1];
      Wide(front) && ParseTotals(front).Ok? && ParseNumber(row[|row| - 2]).Ok?
      && ParseTotals(rows).value == ParseTotals(front).value + [FlowRow(row[1], ParseNumber(row[|row| - 2]).value)]
  {
    var front := rows[..|rows| - 1];
    assert forall j :: 0 <= j < |front| ==> front[j] == rows[j];
  }

  /** What parse_farside_table returns: the last 30 parsed rows, newest first. */
  function FarsideTable(text: string): Outcome<seq<FlowRow>>
  {
    TableOf(TableRows(Split(text, '\n')))
  }

  /** The tail of parse_farside_table on the kept rows: the last 30 parsed rows, reversed. */
  function TableOf(rows: seq<seq<string>>): Outcome<seq<FlowRow>>
    requires Wide(rows)
  {
    if rows == [] then Ok([])
    else
      match ParseTotals(rows)
      case Raised(m) => Raised(m)
      case Ok(parsed) => Ok(Reverse(TakeLast(parsed, 30)))
  }

  /** The append loop of parse_farside_table: the cell lists of the kept lines. */
  method CollectRows(lines: seq<string>) returns (rows: seq<seq<string>>)
    ensures rows == TableRows(lines)
  {
    rows := [];
    var i := 0;
    while i < |lines|
      invariant 0 <= i <= |lines|
      invariant rows == TableRows(lines[..i])
    {
      assert lines[..i + 1][..i] == lines[..i];
      var line := lines[i];
      if IsPipeLine(line) {
        var parts := Cells(line);
        if |parts| > 3 && FlowDate(parts[1]) {
          rows := rows + [parts];
        }
      }
      i := i + 1;
    }
    assert lines[..|lines|] == lines;
  }

  /** parse_farside_table: the kept rows, then the comprehension and the reversal. */
  method ParseFarsideTable(text: string) returns (r: Outcome<seq<FlowRow>>)
    ensures r == FarsideTable(text)
  {
    var rows := CollectRows(Split(text, '\n'));
    if |rows| <= 0 {
      return Ok([]);
    }
    var parsed := ParseTotals(rows);
    if parsed.Raised? {
      return Raised(parsed.message);
    }
    r := Ok(Reverse(TakeLast(parsed.value, 30)));
  }

  /** A kept row's date cell is not blank, since it holds a date. */
  lemma DatedCells(rows: seq<seq<string>>)
    requires forall j :: 0 <= j < |rows| ==> |rows[j]| > 3 && FlowDate(rows[j][1])
    ensures forall j :: 0 <= j < |rows| ==> rows[j][1] != ""
  {
    forall j | 0 <= j < |rows| ensures rows[j][1] != "" {
      if rows[j][1] == "" {
        ShortHasNoDate(rows[j][1]);
      }
    }
  }

  /** At most 30 rows, each dated. */
  lemma TableShape(rows: seq<seq<string>>)
    requires forall j :: 0 <= j < |rows| ==> |rows[j]| > 3 && FlowDate(rows[j][1])
    requires TableOf(rows).Ok?
    ensures var t := TableOf(rows).value;
      |t| <= 30 && forall j :: 0 <= j < |t| ==> FlowDate(t[j].date)
  {
    if rows != [] {
      DatedCells(rows);
      DatedTotals(rows);
      var parsed := ParseTotals(rows).value;
      var t := Reverse(TakeLast(parsed, 30));
      assert TableOf(rows).value == t;
      assert forall k :: 0 <= k < |parsed| ==> parsed[k].date == rows[k][1];
      forall j | 0 <= j < |t| ensures FlowDate(t[j].date) {
        RecentAt(parsed, 30, j);
      }
    }
  }

  /** The `j`-th of the newest `n` entries, newest first, is the `j`-th from the end. */
  lemma RecentAt<T>(s: seq<T>, n: nat, j: nat)
    requires j < |Reverse(TakeLast(s, n))|
    ensures |s| - 1 - j >= 0 && Reverse(TakeLast(s, n))[j] == s[|s| - 1 - j]
  {
    var last := TakeLast(s, n);
    assert last[|last| - 1 - j] == s[|s| - |last|..][|last| - 1 - j];
  }

  /** The first row returned is the last kept line: its date and its parsed total. */
  lemma NewestFirst(rows: seq<seq<string>>)
    requires forall j :: 0 <= j < |rows| ==> |rows[j]| > 3 && FlowDate(rows[j][1])
    requires TableOf(rows).Ok? && TableOf(rows).value != []
    ensures rows != [] && var row := rows[|rows| - 1];
      TableOf(rows).value[0].date == row[1]
      && ParseNumber(row[|row| - 2]) == Ok(TableOf(rows).value[0].total)
  {
    DatedCells(rows);
    DatedTotals(rows);
    var parsed := ParseTotals(rows).value;
    var last := TakeLast(parsed, 30);
    assert last[|last| - 1] == parsed[|parsed| - 1];
    assert Reverse(last)[0] == last[|last| - 1];
  }

  // ---- scripts/collector.py:439-453, parse_farside_rows

  /** A checksum row: the total cell and the sum of the component cells. */
  datatype CheckRow = CheckRow(date: string, total: real, sum: real)

  /** The stripped cells of a pipe-separated line, blank cells dropped. */
  function NonEmptyCells(parts: seq<string>): (cells: seq<string>)
    ensures |cells| <= |parts|
    ensures forall i :: 0 <= i < |cells| ==> cells[i] != ""
  {
    if parts == [] then []
    else (if PyStrip(parts[0]) == "" then [] else [PyStrip(parts[0])]) + NonEmptyCells(parts[1..])
  }

  /** `[parse_number(val) for val in cells]`; the first unreadable cell raises. */
  function ParseAll(cells: seq<string>): (r: Outcome<seq<real>>)
    ensures r.Ok? ==> |r.value| == |cells|
    ensures r.Ok? ==> forall i :: 0 <= i < |cells| ==> ParseNumber(cells[i]) == Ok(r.value[i])
  {
    if cells == [] then Ok([])
    else
      match ParseNumber(cells[0])
      case Raised(m) => Raised(m)
      case Ok(v) =>
        match ParseAll(cells[1..])
        case Raised(m) => Raised(m)
        case Ok(vs) =>
          assert forall i :: 1 <= i < |cells| ==> cells[i] == cells[1..][i - 1];
          Ok([v] + vs)
  }

  /** The row one line contributes, if any: a dated first cell and at least two numbers after it. */
  function CheckRowOf(line: string): Outcome<Option<CheckRow>>
  {
    if !IsPipeLine(line) then Ok(None)
    else
      var parts := NonEmptyCells(Split(line, '|'));
      if parts == [] || !FlowDate(parts[0]) then Ok(None)
      else
        match ParseAll(parts[1..])
        case Raised(m) => Raised(m)
        case Ok(values) =>
          if |values| < 2 then Ok(None)
          else Ok(Some(CheckRow(parts[0], values[|values| - 1], SumReals(values[..|values| - 1]))))
  }

  /** The rows of the lines in order; the first line that raises ends the parse. */
  function CheckRows(lines: seq<string>): Outcome<seq<CheckRow>>
  {
    if lines == [] then Ok([])
    else
      match CheckRows(lines[..|lines| - 1])
      case Raised(m) => Raised(m)
      case Ok(rows) =>
        match CheckRowOf(lines[|lines| - 1])
        case Raised(m) => Raised(m)
        case Ok(None) => Ok(rows)
        case Ok(Some(row)) => Ok(rows + [row])
  }

  /** Once a prefix of the lines raises, the whole parse raises the same error. */
  lemma {:induction false} RaisedPrefix(lines: seq<string>, i: nat)
    requires i <= |lines| && CheckRows(lines[..i]).Raised?
    ensures CheckRows(lines) == CheckRows(lines[..i])
    decreases |lines| - i
  {
    if i < |lines| {
      var next := lines[..i + 1];
      assert next[..i] == lines[..i];
      assert CheckRows(next) == CheckRows(lines[..i]);
      RaisedPrefix(lines, i + 1);
    } else {
      assert lines[..i] == lines;
    }
  }

  method ParseFarsideRows(text: string) returns (r: Outcome<seq<CheckRow>>)
    ensures r == CheckRows(Split(text, '\n'))
  {
    var lines := Split(text, '\n');
    var rows: seq<CheckRow> := [];
    var i := 0;
    while i < |lines|
      invariant 0 <= i <= |lines|
      invariant CheckRows(lines[..i]) == Ok(rows)
    {
      assert lines[..i + 1][..i] == lines[..i];
      var one := CheckRowOf(lines[i]);
      if one.Raised? {
        assert CheckRows(lines[..i + 1]) == Raised(one.message);
        RaisedPrefix(lines, i + 1);
        return Raised(one.message);
      }
      if one.value.Some? {
        rows := rows + [one.value.value];
      }
      i := i + 1;
    }
    assert lines[..|lines|] == lines;
    r := Ok(rows);
  }

  /** Every checksum row has a dated first cell, and its sum leaves out the total. */
  lemma CheckRowShape(line: string)
    requires CheckRowOf(line).Ok? && CheckRowOf(line).value.Some?
    ensures var row := CheckRowOf(line).value.value;
      FlowDate(row.date)
      && exists values: seq<real> :: |values| >= 2 && row.total == values[|values| - 1] && row.sum == SumReals(values[..|values| - 1])
  {
    var parts := NonEmptyCells(Split(line, '|'));
    var values := ParseAll(parts[1..]).value;
    assert |values| >= 2;
  }

  // ---- scripts/collector.py:455-459

  /** is_cloudflare_blocked: empty text, or one of the bot-wall markers in any case. */
  function IsCloudflareBlocked(text: string): (b: bool)
    ensures text == "" ==> b
  {
    if text == "" then true
    else
      var lowered := Lower(text);
      Contains(lowered, "just a moment") || Contains(lowered, "cf-browser-verification") || Contains(lowered, "cloudflare")
  }

  lemma {:induction false} LowerTwice(s: string)
    ensures Lower(Lower(s)) == Lower(s)
  {
    if s != [] {
      LowerTwice(s[1..]);
    }
  }

  /** The test ignores letter case: a page and its lower-case copy are blocked alike. */
  lemma BlockedIgnoresCase(text: string)
    ensures IsCloudflareBlocked(Lower(text)) == IsCloudflareBlocked(text)
  {
    LowerTwice(text);
  }

  /** A page with the bot wall's "Just a moment" title anywhere in it is blocked. */
  lemma JustAMomentIsBlocked(before: string, after: string)
    ensures IsCloudflareBlocked(before + "Just a moment" + after)
  {
    var text := before + "Just a moment" + after;
    var lowered := Lower(text);
    var n := |before|;
    forall k | 0 <= k < 13 ensures lowered[n..n + 13][k] == "just a moment"[k] {
      assert text[n + k] == "Just a moment"[k];
    }
    assert lowered[n..n + 13] == "just a moment";
    ContainsAt(lowered, "just a moment", n);
  }

  // ---- scripts/collector.py:462-496, fetch_farside_source

  /** The proxy that serves a page as markdown. */
  const JinaPrefix := "https://r.jina.ai/"

  /** The result triple: parsed rows, the source tag (None when nothing parsed) and the notes. */
  datatype SourceResult = SourceResult(parsed: seq<FlowRow>, source: Option<string>, errors: seq<string>)

  function BlockedNote(tag: string): string { tag + " direct blocked, fallback to jina" }

  /** The notes list after the block test: the block note or nothing. */
  function BlockNotes(tag: string, blocked: bool): (e: seq<string>)
    ensures blocked <==> e == [BlockedNote(tag)]
    ensures !blocked <==> e == []
  {
    if blocked then [BlockedNote(tag)] else []
  }

  /** The notes carry a two-decimal rendering of the gap; `fmt` is that formatting. */
  function ComponentNote(tag: string, gap: real, fmt: real -> string): string
  {
    tag + " total mismatch vs components: " + fmt(gap)
  }

  function CrossNote(tag: string, gap: real, fmt: real -> string): string
  {
    tag + " direct vs jina mismatch: " + fmt(gap)
  }

  /** The checksum of the first table row: its total against the sum of its components, with a 0.1 tolerance. */
  function ComponentErrors(tag: string, rows: seq<CheckRow>, fmt: real -> string): (e: seq<string>)
    ensures |e| <= 1
    ensures e != [] <==> rows != [] && Abs(rows[0].total - rows[0].sum) > 0.1
  {
    if rows != [] && Abs(rows[0].total - rows[0].sum) > 0.1 then [ComponentNote(tag, Abs(rows[0].total - rows[0].sum), fmt)]
    else []
  }

  function CrossErrors(tag: string, direct: seq<FlowRow>, jina: seq<FlowRow>, fmt: real -> string): (e: seq<string>)
    ensures |e| <= 1
    ensures e != [] <==> direct != [] && jina != [] && Abs(direct[0].total - jina[0].total) > 0.1
  {
    if direct != [] && jina != [] && Abs(direct[0].total - jina[0].total) > 0.1 then
      [CrossNote(tag, Abs(direct[0].total - jina[0].total), fmt)]
    else []
  }

  /**
   * The decision of fetch_farside_source once both copies of the page are read: `direct`
   * and `jina` are the two table parses, `directRows` and `jinaRows` the two checksum
   * parses (each consulted only on the path that calls it).
   */
  function SourceOf(tag: string, blocked: bool, direct: Outcome<seq<FlowRow>>, jina: Outcome<seq<FlowRow>>,
                    directRows: Outcome<seq<CheckRow>>, jinaRows: Outcome<seq<CheckRow>>, fmt: real -> string): Outcome<SourceResult>
  {
    match direct
    case Raised(m) => Raised(m)
    case Ok(parsed) =>
      var first := BlockNotes(tag, blocked);
      if (blocked || parsed == []) && jina.Raised? then Raised(jina.message)
      else if (blocked || parsed == []) && jina.value != [] then
        match jinaRows
        case Raised(m) => Raised(m)
        case Ok(rows) => Ok(SourceResult(jina.value, Some(tag + " (Jina)"), first + ComponentErrors(tag, rows, fmt)))
      else if parsed != [] then
        var proxied := if jina.Ok? then jina.value else [];
        match directRows
        case Raised(m) => Raised(m)
        case Ok(rows) =>
          Ok(SourceResult(parsed, Some(tag), first + CrossErrors(tag, parsed, proxied, fmt) + ComponentErrors(tag, rows, fmt)))
      else Ok(SourceResult([], None, first))
  }

  /** What fetch_farside_source returns for the page `url`, with `fetch` the HTTP text of a URL. */
  function FarsideSource(url: string, tag: string, fetch: string -> string, fmt: real -> string): Outcome<SourceResult>
  {
    var directText := fetch(url);
    var jinaText := fetch(JinaPrefix + url);
    SourceOf(tag, IsCloudflareBlocked(directText), FarsideTable(directText), FarsideTable(jinaText),
             CheckRows(Split(directText, '\n')), CheckRows(Split(jinaText, '\n')), fmt)
  }

  /** The steps of fetch_farside_source, with its notes list appended to along the way. */
  method FetchFarsideSource(url: string, tag: string, fetch: string -> string, fmt: real -> string)
    returns (r: Outcome<SourceResult>)
    ensures r == FarsideSource(url, tag, fetch, fmt)
  {
    var directText := fetch(url);
    var directBlocked := IsCloudflareBlocked(directText);
    var directParsed := ParseFarsideTable(directText);
    var jinaText := fetch(JinaPrefix + url);
    r := Decide(tag, directText, directBlocked, directParsed, jinaText, fmt);
  }

  /** The branches of fetch_farside_source after the direct fetch. */
  method Decide(tag: string, directText: string, directBlocked: bool, directParsed: Outcome<seq<FlowRow>>,
                jinaText: string, fmt: real -> string) returns (r: Outcome<SourceResult>)
    ensures r == SourceOf(tag, directBlocked, directParsed, FarsideTable(jinaText),
                          CheckRows(Split(directText, '\n')), CheckRows(Split(jinaText, '\n')), fmt)
  {
    var errors: seq<string> := [];
    if directParsed.Raised? {
      return Raised(directParsed.message);
    }
    if directBlocked || directParsed.value == [] {
      if directBlocked {
        errors := errors + [BlockedNote(tag)];
      }
      assert errors == BlockNotes(tag, directBlocked);
      var jinaParsed := ParseFarsideTable(jinaText);
      if jinaParsed.Raised? {
        return Raised(jinaParsed.message);
      }
      if jinaParsed.value != [] {
        var rows := ParseFarsideRows(jinaText);
        if rows.Raised? {
          return Raised(rows.message);
        }
        var notes := ComponentCheck(tag, rows.value, fmt);
        errors := errors + notes;
        return Ok(SourceResult(jinaParsed.value, Some(tag + " (Jina)"), errors));
      }
    }
    assert errors == BlockNotes(tag, directBlocked);
    if directParsed.value != [] {
      var attempt := ParseFarsideTable(jinaText);
      var jinaParsed := if attempt.Ok? then attempt.value else [];
      var cross := CrossCheck(tag, directParsed.value, jinaParsed, fmt);
      errors := errors + cross;
      var rows := ParseFarsideRows(directText);
      if rows.Raised? {
        return Raised(rows.message);
      }
      var notes := ComponentCheck(tag, rows.value, fmt);
      errors := errors + notes;
      return Ok(SourceResult(directParsed.value, Some(tag), errors));
    }
    return Ok(SourceResult([], None, errors));
  }

  /** The cross-check step: a note when the two copies' newest totals differ by more than 0.1. */
  method CrossCheck(tag: string, direct: seq<FlowRow>, jina: seq<FlowRow>, fmt: real -> string) returns (notes: seq<string>)
    ensures notes == CrossErrors(tag, direct, jina, fmt)
  {
    notes := [];
    if direct != [] && jina != [] {
      var gap := Abs(direct[0].total - jina[0].total);
      if gap > 0.1 {
        notes := [CrossNote(tag, gap, fmt)];
      }
    }
  }

  /** The checksum step: a note when the first row's total and component sum differ by more than 0.1. */
  method ComponentCheck(tag: string, rows: seq<CheckRow>, fmt: real -> string) returns (notes: seq<string>)
    ensures notes == ComponentErrors(tag, rows, fmt)
  {
    notes := [];
    if rows != [] {
      var gap := Abs(rows[0].total - rows[0].sum);
      if gap > 0.1 {
        notes := [ComponentNote(tag, gap, fmt)];
      }
    }
  }

  /**
   * A blocked or empty direct page falls back to the proxied copy: its rows, the tag
   * marked "(Jina)", and first the note that the direct fetch was blocked.
   */
  lemma FallbackToJina(tag: string, blocked: bool, direct: Outcome<seq<FlowRow>>, jina: Outcome<seq<FlowRow>>,
                       directRows: Outcome<seq<CheckRow>>, jinaRows: Outcome<seq<CheckRow>>, fmt: real -> string)
    requires direct.Ok? && jina.Ok? && jinaRows.Ok?
    requires blocked || direct.value == []
    requires jina.value != []
    ensures var r := SourceOf(tag, blocked, direct, jina, directRows, jinaRows, fmt);
      r.Ok? && r.value.parsed == jina.value
      && r.value.source == Some(tag + " (Jina)")
      && r.value.errors == (if blocked then [BlockedNote(tag)] else []) + ComponentErrors(tag, jinaRows.value, fmt)
      && (blocked ==> r.value.errors[0] == BlockedNote(tag))
  {
  }

  /** When neither copy of the page parses to a row, the result is no rows, no source and at most the block note. */
  lemma NothingParses(tag: string, blocked: bool, directRows: Outcome<seq<CheckRow>>, jinaRows: Outcome<seq<CheckRow>>,
                      fmt: real -> string)
    ensures SourceOf(tag, blocked, Ok([]), Ok([]), directRows, jinaRows, fmt)
      == Ok(SourceResult([], None, if blocked then [BlockedNote(tag)] else []))
  {
  }

  /**
   * An unblocked page that parses is used as is; the proxied copy and the component sums
   * only add notes, each when its gap exceeds 0.1; a proxied copy that raises is ignored.
   */
  lemma DirectAccepted(tag: string, direct: Outcome<seq<FlowRow>>, jina: Outcome<seq<FlowRow>>,
                       directRows: Outcome<seq<CheckRow>>, jinaRows: Outcome<seq<CheckRow>>, fmt: real -> string)
    requires direct.Ok? && direct.value != [] && directRows.Ok?
    ensures var r := SourceOf(tag, false, direct, jina, directRows, jinaRows, fmt);
      var d := direct.value;
      var crossed := jina.Ok? && jina.value != [] && Abs(d[0].total - jina.value[0].total) > 0.1;
      r.Ok? && r.value.parsed == d && r.value.source == Some(tag)
      && (crossed ==> r.value.errors == [CrossNote(tag, Abs(d[0].total - jina.value[0].total), fmt)] + ComponentErrors(tag, directRows.value, fmt))
      && (!crossed ==> r.value.errors == ComponentErrors(tag, directRows.value, fmt))
  {
  }

  /** Every note of a source starts with its tag. */
  lemma NotesCarryLabel(tag: string, blocked: bool, direct: Outcome<seq<FlowRow>>, jina: Outcome<seq<FlowRow>>,
                        directRows: Outcome<seq<CheckRow>>, jinaRows: Outcome<seq<CheckRow>>, fmt: real -> string)
    requires SourceOf(tag, blocked, direct, jina, directRows, jinaRows, fmt).Ok?
    ensures forall e :: e in SourceOf(tag, blocked, direct, jina, directRows, jinaRows, fmt).value.errors ==> StartsWith(e, tag)
  {
    var r := SourceOf(tag, blocked, direct, jina, directRows, jinaRows, fmt).value;
    forall e | e in r.errors ensures StartsWith(e, tag) {
      assert e == BlockedNote(tag) || (exists g :: e == ComponentNote(tag, g, fmt)) || (exists g :: e == CrossNote(tag, g, fmt));
    }
  }

  // ---- scripts/collector.py:499-530, fetch_farside

  /** The two flow pages, tried in order. */
  const FarsidePages: seq<(string, string)> := [
    ("https://farside.co.uk/ethereum-etf-flow/", "Farside: ethereum-etf-flow"),
    ("https://farside.co.uk/bitcoin-etf-flow/", "Farside: bitcoin-etf-flow")]

  function Totals(rows: seq<FlowRow>): (t: seq<real>)
    ensures |t| == |rows|
    ensures forall i :: 0 <= i < |rows| ==> t[i] == rows[i].total
  {
    if rows == [] then [] else [rows[0].total] + Totals(rows[1..])
  }

  const EtfKeys := ["etf1d", "etf5d", "etf10d"]

  /** The ETF block of fetch_farside from the rows of the page used (newest first). */
  function EtfBlock(parsed: seq<FlowRow>, source: Option<string>, errors: seq<string>): (b: Block)
    ensures b.data.Keys == b.sources.Keys == {"etf1d", "etf5d", "etf10d", "prevEtfExtremeOutflow"}
    ensures b.missing == (if parsed == [] then EtfKeys else [])
    ensures b.data["etf1d"] == Num(if parsed == [] then 0.0 else parsed[0].total)
    ensures b.data["etf5d"] == Num(Series.SumNewest(Totals(parsed), 5))
    ensures b.data["etf10d"] == Num(Series.SumNewest(Totals(parsed), 10))
    ensures b.data["prevEtfExtremeOutflow"] == Bool(false)
    ensures b.errors == errors
  {
    var tag := if source.Some? then source.value else "Farside: 未获取";
    Block(
      map["etf1d" := Num(if parsed == [] then 0.0 else parsed[0].total),
          "etf5d" := Num(Series.SumNewest(Totals(parsed), 5)),
          "etf10d" := Num(Series.SumNewest(Totals(parsed), 10)),
          "prevEtfExtremeOutflow" := Bool(false)],
      map["etf1d" := tag, "etf5d" := tag, "etf10d" := tag,
          "prevEtfExtremeOutflow" := "Derived: prior day ETF extreme"],
      if parsed == [] then EtfKeys else [],
      errors)
  }

  /** The first page's result unless it parsed nothing, then the second page's; the notes of both are kept. */
  function FirstFlows(eth: Outcome<SourceResult>, btc: Outcome<SourceResult>): (r: Outcome<Block>)
    ensures eth.Raised? ==> r == Raised(eth.message)
    ensures eth.Ok? && eth.value.parsed != [] ==> r == Ok(EtfBlock(eth.value.parsed, eth.value.source, eth.value.errors))
    ensures eth.Ok? && eth.value.parsed == [] && btc.Raised? ==> r == Raised(btc.message)
    ensures eth.Ok? && eth.value.parsed == [] && btc.Ok? ==>
      r == Ok(EtfBlock(btc.value.parsed, btc.value.source, eth.value.errors + btc.value.errors))
  {
    match eth
    case Raised(m) => Raised(m)
    case Ok(e) =>
      if e.parsed != [] then Ok(EtfBlock(e.parsed, e.source, e.errors))
      else
        match btc
        case Raised(m) => Raised(m)
        case Ok(b) => Ok(EtfBlock(b.parsed, b.source, e.errors + b.errors))
  }

  /** The result of fetch_farside_source for the i-th flow page. */
  function PageSource(i: nat, fetch: string -> string, fmt: real -> string): Outcome<SourceResult>
    requires i < |FarsidePages|
  {
    FarsideSource(FarsidePages[i].0, FarsidePages[i].1, fetch, fmt)
  }

  /**
   * fetch_farside: the first page that parses supplies the flows; the notes of every
   * page tried are kept; an exception from a parser propagates.
   */
  method FetchFarside(fetch: string -> string, fmt: real -> string) returns (r: Outcome<Block>)
    ensures r == FirstFlows(PageSource(0, fetch, fmt), PageSource(1, fetch, fmt))
  {
    var parsed: seq<FlowRow> := [];
    var source: Option<string> := None;
    var errors: seq<string> := [];
    var i := 0;
    while i < |FarsidePages|
      invariant 0 <= i <= |FarsidePages|
      invariant i == 0 ==> parsed == [] && source == None && errors == []
      invariant i >= 1 ==> var eth := PageSource(0, fetch, fmt);
        eth.Ok? && eth.value.parsed == []
        && (i == 1 ==> parsed == [] && source == eth.value.source && errors == eth.value.errors)
      invariant i == 2 ==> var btc := PageSource(1, fetch, fmt);
        btc.Ok? && parsed == btc.value.parsed && source == btc.value.source
        && errors == PageSource(0, fetch, fmt).value.errors + btc.value.errors
    {
      var one := FetchFarsideSource(FarsidePages[i].0, FarsidePages[i].1, fetch, fmt);
      assert one == PageSource(i, fetch, fmt);
      if one.Raised? {
        assert Raised(one.message) == FirstFlows(PageSource(0, fetch, fmt), PageSource(1, fetch, fmt));
        return Raised(one.message);
      }
      parsed, source := one.value.parsed, one.value.source;
      errors := errors + one.value.errors;
      if parsed != [] {
        assert i == 0 ==> errors == one.value.errors;
        assert Ok(EtfBlock(parsed, source, errors)) == FirstFlows(PageSource(0, fetch, fmt), PageSource(1, fetch, fmt));
        break;
      }
      i := i + 1;
    }
    r := Ok(EtfBlock(parsed, source, errors));
  }

  /** etf1d is the newest total, and etf5d and etf10d sum the newest five and ten. */
  lemma EtfSumsNewest(parsed: seq<FlowRow>, source: Option<string>, errors: seq<string>)
    requires parsed != []
    ensures var b := EtfBlock(parsed, source, errors);
      b.data["etf1d"] == Num(parsed[0].total)
      && b.data["etf5d"] == Num(SumReals(Totals(parsed[..if |parsed| < 5 then |parsed| else 5])))
      && b.data["etf10d"] == Num(SumReals(Totals(parsed[..if |parsed| < 10 then |parsed| else 10])))
      && b.missing == []
  {
    TotalsPrefix(parsed, 5);
    TotalsPrefix(parsed, 10);
  }

  lemma TotalsPrefix(rows: seq<FlowRow>, n: nat)
    ensures Take(Totals(rows), n) == Totals(rows[..if |rows| < n then |rows| else n])
  {
    var m := if |rows| < n then |rows| else n;
    var a := Take(Totals(rows), n);
    var b := Totals(rows[..m]);
    TotalsLengths(rows, n);
    forall i | 0 <= i < m ensures a[i] == b[i] {
      TotalAt(rows, n, i);
    }
  }

  lemma TotalsLengths(rows: seq<FlowRow>, n: nat)
    ensures var m := if |rows| < n then |rows| else n;
      |Take(Totals(rows), n)| == m == |Totals(rows[..m])|
  {
    var m := if |rows| < n then |rows| else n;
    assert |Totals(rows)| == |rows| && |rows[..m]| == m;
  }

  lemma TotalAt(rows: seq<FlowRow>, n: nat, i: nat)
    requires i < n && i < |rows|
    ensures Take(Totals(rows), n)[i] == Totals(rows[..if |rows| < n then |rows| else n])[i]
  {
    var m := if |rows| < n then |rows| else n;
    var t := rows[..m];
    assert |t| == m && t[i] == rows[i];
    assert Take(Totals(rows), n)[i] == Totals(rows)[i] == rows[i].total;
  }

  // ---- src/data/adapters.js:113-130

  /** parseNumber: blank is 0; `(` becomes `-`, `)` and `,` go; what `Number()` cannot read is 0. */
  function JsParseNumber(value: string): (r: real)
    ensures value == "" ==> r == 0.0
    ensures JsNumber(Clean(value)).None? ==> r == 0.0
    ensures JsNumber(Clean(value)).Some? && value != "" ==> r == JsNumber(Clean(value)).value
  {
    if value == "" then 0.0
    else
      match JsNumber(Clean(value))
      case Some(n) => n
      case None => 0.0
  }

  /** The lines that start with a pipe once trimmed. */
  function JsPipeLines(lines: seq<string>): (r: seq<string>)
    ensures |r| <= |lines|
    ensures forall i :: 0 <= i < |r| ==> StartsWith(JsTrim(r[i]), "|")
  {
    if lines == [] then []
    else (if StartsWith(JsTrim(lines[0]), "|") then [lines[0]] else []) + JsPipeLines(lines[1..])
  }

  function JsCells(line: string): (cells: seq<string>)
    ensures |cells| == |Split(line, '|')|
  {
    var parts := Split(line, '|');
    seq(|parts|, i requires 0 <= i < |parts| => JsTrim(parts[i]))
  }

  /** The rows kept after the header and separator lines: more than three cells and a "dd Mon yyyy" date in the second. */
  function JsTableRows(lines: seq<string>): (rows: seq<FlowRow>)
    ensures |rows| <= |lines|
    ensures forall j :: 0 <= j < |rows| ==> HasDayMonYear(rows[j].date, JavaScript)
  {
    if lines == [] then []
    else
      var cells := JsCells(lines[0]);
      var kept := if |cells| > 3 && HasDayMonYear(cells[1], JavaScript) then
        [FlowRow(cells[1], JsParseNumber(if cells[|cells| - 2] == "" then "0" else cells[|cells| - 2]))]
      else [];
      kept + JsTableRows(lines[1..])
  }

  /** parseFarsideTable: table order (oldest first), the first two pipe lines skipped. */
  function JsParseFarsideTable(raw: string): (rows: seq<FlowRow>)
    ensures |rows| + 2 <= |JsPipeLines(Split(raw, '\n'))| || rows == []
  {
    var lines := JsPipeLines(Split(raw, '\n'));
    if |lines| <= 2 then [] else JsTableRows(lines[2..])
  }

  /** fetchEtfData after the fetch: an empty table is an error, otherwise the flows of the last 30 rows. */
  function EtfFromTable(raw: string): (r: Option<Series.EtfBlock>)
    ensures r.None? <==> JsParseFarsideTable(raw) == []
    ensures r.Some? ==> r.value.etf1d == JsParseFarsideTable(raw)[|JsParseFarsideTable(raw)| - 1].total
  {
    Series.EtfFromRows(Totals(JsParseFarsideTable(raw)))
  }
}
