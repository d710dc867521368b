// The page's deep links (src/ui/deepLink.js): `?date=YYYY-MM-DD&tab=...#section`
// opens a given day on a given tab and scrolls to a section.

module DeepLink {
  import opened Values
  import opened Text
  import opened Dates

  const AllowedTabs: set<string> := {"decision", "explain", "audit", "data"}

  /** What a link selects; `None` is null. */
  datatype Link = Link(date: Option<string>, tab: Option<string>, hash: string)

  /** A string parameter as it is; anything else reads as the empty string. */
  function StringOr(v: Value): string
  {
    if v.Str? then v.s else ""
  }

  /** The form decoding of a query name or value: each '+' is a space. */
  function FormDecode(s: string): (r: string)
    ensures |r| == |s|
    ensures forall i :: 0 <= i < |s| ==> r[i] == (if s[i] == '+' then ' ' else s[i])
  {
    seq(|s|, i requires 0 <= i < |s| => if s[i] == '+' then ' ' else s[i])
  }

  /** One `name=value` piece: the name runs up to the first '=', the value is the rest. */
  function PairOf(piece: string): (string, string)
  {
    if '=' in piece then
      var i := IndexOf(piece, '=');
      (FormDecode(piece[..i]), FormDecode(piece[i + 1..]))
    else (FormDecode(piece), "")
  }

  /** `new URLSearchParams(query)`: the pieces between '&', in order (an empty piece names nothing asked for). */
  function Params(query: string): (r: seq<(string, string)>)
  {
    var pieces := Split(query, '&');
    seq(|pieces|, i requires 0 <= i < |pieces| => PairOf(pieces[i]))
  }

  /** `params.get(name) || ""`: the value of the first pair with that name (an empty piece names nothing). */
  function Get(params: seq<(string, string)>, name: string): (r: string)
    ensures r != "" ==> exists i :: 0 <= i < |params| && params[i] == (name, r)
  {
    if params == [] then ""
    else if params[0].0 == name then params[0].1
    else
      var r := Get(params[1..], name);
      assert r != "" ==> exists i :: 0 <= i < |params| - 1 && params[1..][i] == (name, r);
      r
  }

  /** The query without one leading '?'. */
  function QueryOf(search: string): string
  {
    if StartsWith(search, "?") then search[1..] else search
  }

  /**
   * `parseDeepLink`: a date only when the trimmed parameter has the YYYY-MM-DD shape, a
   * tab only when it is one of the four tabs, and the hash only when it starts with '#'.
   * Anything but a string reads as "".
   */
  function ParseDeepLink(search: Value, hash: Value): (r: Link)
    ensures var params := Params(QueryOf(StringOr(search)));
      var d := JsTrim(Get(params, "date"));
      var t := JsTrim(Get(params, "tab"));
      (r.date.Some? <==> IsIsoShape(d)) && (r.date.Some? ==> r.date.value == d)
      && (r.tab.Some? <==> t in AllowedTabs) && (r.tab.Some? ==> r.tab.value == t)
    ensures r.date.Some? ==> IsIsoShape(r.date.value)
    ensures r.tab.Some? ==> r.tab.value in AllowedTabs
    ensures (r.hash == StringOr(hash) && StartsWith(r.hash, "#")) || (r.hash == "" && !StartsWith(StringOr(hash), "#"))
  {
    var params := Params(QueryOf(StringOr(search)));
    var d := JsTrim(Get(params, "date"));
    var t := JsTrim(Get(params, "tab"));
    var h := StringOr(hash);
    Link(if IsIsoShape(d) then Some(d) else None, if t in AllowedTabs then Some(t) else None,
         if h != "" && StartsWith(h, "#") then h else "")
  }

  /** One extra leading '?' is what the parser strips, so it reads the same link. */
  lemma QuestionMarkOptional(query: string, hash: Value)
    requires !StartsWith(query, "?")
    ensures ParseDeepLink(Str("?" + query), hash) == ParseDeepLink(Str(query), hash)
  {
    assert StartsWith("?" + query, "?") && ("?" + query)[1..] == query;
  }

  /** The link the notifier sends is read back as that day on the named tab. */
  lemma LinkRoundTrip(date: string, tab: string, section: string)
    requires IsIsoShape(date) && tab in AllowedTabs
    ensures ParseDeepLink(Str("?date=" + date + "&tab=" + tab), Str("#" + section))
      == Link(Some(date), Some(tab), "#" + section)
  {
    QueryParams(date, tab);
    PlainDate(date);
    PlainTab(tab);
    assert StartsWith("#" + section, "#");
  }

  /** The query of such a link names that date and that tab. */
  lemma QueryParams(date: string, tab: string)
    requires IsIsoShape(date) && tab in AllowedTabs
    ensures var params := Params(QueryOf("?date=" + date + "&tab=" + tab));
      Get(params, "date") == date && Get(params, "tab") == tab
  {
    QueryPieces(date, tab);
    PiecesOfLink(date, tab);
    GetOfLink(date, tab);
  }

  /** Each piece of such a link reads as its pair. */
  lemma PiecesOfLink(date: string, tab: string)
    requires IsIsoShape(date) && tab in AllowedTabs
    ensures [PairOf("date=" + date), PairOf("tab=" + tab)] == [("date", date), ("tab", tab)]
  {
    DatePiece(date);
    TabPiece(tab);
  }

  lemma DatePiece(date: string)
    requires IsIsoShape(date)
    ensures PairOf("date=" + date) == ("date", date)
  {
    PlainDate(date);
    PairOfPlain("date", date);
    assert "date" + "=" + date == "date=" + date;
  }

  lemma TabPiece(tab: string)
    requires tab in AllowedTabs
    ensures PairOf("tab=" + tab) == ("tab", tab)
  {
    PlainTab(tab);
    PairOfPlain("tab", tab);
    assert "tab" + "=" + tab == "tab=" + tab;
  }

  lemma GetOfLink(date: string, tab: string)
    ensures Get([("date", date), ("tab", tab)], "date") == date
    ensures Get([("date", date), ("tab", tab)], "tab") == tab
  {
    var params := [("date", date), ("tab", tab)];
    assert params[1..] == [("tab", tab)];
  }

  /** The query of such a link is its two pieces. */
  lemma QueryPieces(date: string, tab: string)
    requires IsIsoShape(date) && tab in AllowedTabs
    ensures Params(QueryOf("?date=" + date + "&tab=" + tab)) == [PairOf("date=" + date), PairOf("tab=" + tab)]
  {
    PlainDate(date);
    PlainTab(tab);
    var first := "date=" + date;
    var second := "tab=" + tab;
    NoCharInPair("date", date, '&');
    NoCharInPair("tab", tab, '&');
    var query := "?date=" + date + "&tab=" + tab;
    assert QueryOf(query) == first + "&" + second by { assert query == "?" + (first + "&" + second); }
    ParamsOfQuery(first, second);
  }

  /** Two pieces joined by '&' read as their two pairs. */
  lemma ParamsOfQuery(first: string, second: string)
    requires '&' !in first && '&' !in second
    ensures Params(first + "&" + second) == [PairOf(first), PairOf(second)]
  {
    assert Join([first, second], "&") == first + "&" + second;
    JoinSplit([first, second], '&');
  }

  /** A date key holds no separator, no '+' and no outer whitespace. */
  lemma PlainDate(date: string)
    requires IsIsoShape(date)
    ensures '&' !in date && '+' !in date && '=' !in date && JsTrim(date) == date
  {
    assert forall i :: 0 <= i < |date| ==> IsDigit(date[i]) || date[i] == '-';
    JsTrimKeeps(date);
  }

  lemma PlainTab(tab: string)
    requires tab in AllowedTabs
    ensures '&' !in tab && '+' !in tab && '=' !in tab && JsTrim(tab) == tab
  {
    assert tab != [] && forall i :: 0 <= i < |tab| ==> 'a' <= tab[i] <= 'z';
    JsTrimKeeps(tab);
  }

  lemma NoCharInPair(name: string, v: string, c: char)
    requires c !in name && c != '=' && c !in v
    ensures c !in name + "=" + v
  {
  }

  /** A `name=value` piece without '+' reads back as that pair. */
  lemma PairOfPlain(name: string, v: string)
    requires '=' !in name && '+' !in name && '+' !in v
    ensures PairOf(name + "=" + v) == (name, v)
  {
    var piece := name + "=" + v;
    assert piece[|name|] == '=' && piece[..|name|] == name && piece[|name| + 1..] == v;
    assert IndexOf(piece, '=') == |name|;
    PlainDecodes(name);
    PlainDecodes(v);
  }

  /** Text without '+' decodes to itself. */
  lemma PlainDecodes(s: string)
    requires '+' !in s
    ensures FormDecode(s) == s
  {
  }

  /** Trimming leaves a word without outer whitespace as it is. */
  lemma JsTrimKeeps(s: string)
    requires s == [] || (!JsSpace(s[0]) && !JsSpace(s[|s| - 1]))
    ensures JsTrim(s) == s
  {
    TrimFixpoint(s, JavaScript);
  }
}
