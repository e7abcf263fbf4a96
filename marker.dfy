/**
 * The divergence marker written into the "Diff Behind" / "Diff Ahead" columns
 * (`printInfo`) and the sort value the table derives from it.
 */
module Marker {
  import opened Wrappers
  import opened Text
  import opened Records

  /** A string without the characters that could open a tag or close an attribute. */
  predicate NoMarkup(s: string) {
    forall i :: 0 <= i < |s| ==> s[i] != '<' && s[i] != '>' && s[i] != '"' && s[i] != '\''
  }

  /** The replacement of one character by the escape map (js/main.js:477-483). */
  function EscapeChar(c: char): string {
    match c
    case '<' => "&lt;"
    case '>' => "&gt;"
    case '&' => "&amp;"
    case '"' => "&quot;"
    case '\'' => "&apos;"
    case _ => [c]
  }

  /** `s.replace(/[<>&"']/g, ...)`: every special character replaced by its entity. */
  function Escape(s: string): (r: string)
    ensures NoMarkup(r)
    ensures |r| >= |s|
  {
    if s == [] then [] else EscapeChar(s[0]) + Escape(s[1..])
  }

  /** Decodes the five entities `Escape` produces; the reference inverse of the escape map. */
  function Unescape(s: string): string
    decreases |s|
  {
    if s == [] then []
    else if IsPrefix("&lt;", s) then "<" + Unescape(s[4..])
    else if IsPrefix("&gt;", s) then ">" + Unescape(s[4..])
    else if IsPrefix("&amp;", s) then "&" + Unescape(s[5..])
    else if IsPrefix("&quot;", s) then "\"" + Unescape(s[6..])
    else if IsPrefix("&apos;", s) then "'" + Unescape(s[6..])
    else [s[0]] + Unescape(s[1..])
  }

  lemma UnescapeEntity(e: string, c: char, rest: string)
    requires e == EscapeChar(c) && |e| > 1
    ensures Unescape(e + rest) == [c] + Unescape(rest)
  {
    var s := e + rest;
    assert s[|e|..] == rest;
    assert s[..|e|] == e;
    if c == '>' {
      assert s[..4] != "&lt;" by { assert s[1] == 'g'; }
    } else if c == '&' {
      assert s[..4] != "&lt;" && s[..4] != "&gt;" by { assert s[1] == 'a'; }
    } else if c == '"' {
      assert s[..4] != "&lt;" && s[..4] != "&gt;" && s[..5] != "&amp;" by { assert s[1] == 'q'; }
    } else if c == '\'' {
      assert s[..4] != "&lt;" && s[..4] != "&gt;" && s[..5] != "&amp;" && s[..6] != "&quot;" by { assert s[1] == 'a' && s[2] == 'p'; }
    }
  }

  lemma UnescapePlain(c: char, rest: string)
    requires |EscapeChar(c)| == 1
    ensures Unescape([c] + rest) == [c] + Unescape(rest)
  {
    var t := [c] + rest;
    assert t[0] == c && c != '&' && t[1..] == rest;
    assert !IsPrefix("&lt;", t) && !IsPrefix("&gt;", t) && !IsPrefix("&amp;", t);
    assert !IsPrefix("&quot;", t) && !IsPrefix("&apos;", t);
  }

  /** Escaping loses nothing: the escaped text decodes back to the original. */
  lemma {:induction false} UnescapeEscape(s: string)
    ensures Unescape(Escape(s)) == s
  {
    if s != [] {
      UnescapeEscape(s[1..]);
      var e := EscapeChar(s[0]);
      assert Escape(s) == e + Escape(s[1..]);
      if |e| > 1 {
        UnescapeEntity(e, s[0], Escape(s[1..]));
      } else {
        assert e == [s[0]];
        UnescapePlain(s[0], Escape(s[1..]));
      }
      assert s == [s[0]] + s[1..];
    }
  }

  /** The message column of a commit line: first line, trimmed, at most 100 characters (js/main.js:472). */
  function Headline(message: string): (r: string)
    ensures '\n' !in r
    ensures var t := Trim(FirstField(message, '\n'));
            IsPrefix(r, t) && |r| == if |t| <= 100 then |t| else 100
  {
    var first := FirstField(message, '\n');
    var trimmed := Trim(first);
    assert '\n' !in trimmed by {
      var d := DropWhile(first, IsWhitespace);
      assert forall i :: 0 <= i < |d| ==> d[i] == first[|first| - |d| + i];
      assert forall i :: 0 <= i < |trimmed| ==> trimmed[i] == d[i];
    }
    Take(trimmed, 100)
  }

  /** The date column: the date part of the ISO timestamp (js/main.js:466). */
  function DayOf(date: string): string {
    FirstField(date, 'T')
  }

  /** The commit column of a popover line: the sha linked to its commit page (js/main.js:469). */
  function ShaLink(owner: string, name: string, sha: string): string {
    "<a href=\"https://github.com/" + (owner + "/" + name + "/commit/" + sha + "\">" + sha + "</a>")
  }

  /**
   * One line of the popover (js/main.js:465-475), before escaping: the sha link and
   * the day, then the author or "-", " - " and the headline.
   */
  function CommitLine(owner: string, name: string, c: Commit): (r: string)
    ensures IsPrefix(ShaLink(owner, name, c.sha) + (" " + DayOf(c.date) + " "), r)
    ensures IsSuffix(c.authorLogin.GetOr("-") + (" - " + Headline(c.message)), r)
    ensures |r| == |ShaLink(owner, name, c.sha) + (" " + DayOf(c.date) + " ")|
                   + |c.authorLogin.GetOr("-") + (" - " + Headline(c.message))|
    ensures IsPrefix("<a href=\"https://github.com/", r) && IsSuffix(" - " + Headline(c.message), r)
    ensures ('\n' !in owner && '\n' !in name && '\n' !in c.sha && '\n' !in c.date
             && '\n' !in c.authorLogin.GetOr("-")) ==> '\n' !in r
  {
    var head := "<a href=\"https://github.com/";
    var rest := owner + "/" + name + "/commit/" + c.sha + "\">" + c.sha + "</a>";
    var day := DayOf(c.date);
    var mid := " " + day + " ";
    var author := c.authorLogin.GetOr("-");
    var tail := " - " + Headline(c.message);
    Framing(head, rest, mid, author, tail);
    assert '\n' !in c.date ==> '\n' !in day by {
      assert forall i :: 0 <= i < |day| ==> day[i] == c.date[i];
    }
    LinkPiecesHaveNoBreak();
    (head + rest + mid) + (author + tail)
  }

  /** The parts of a line built as `(h + x + m) + (a + t)`: it starts with `h` and ends with `t`. */
  lemma Framing(h: string, x: string, m: string, a: string, t: string)
    ensures var r := (h + x + m) + (a + t);
            && IsPrefix(h + x + m, r) && IsSuffix(a + t, r) && |r| == |h + x + m| + |a + t|
            && IsPrefix(h, r) && IsSuffix(t, r)
  {
    var r := (h + x + m) + (a + t);
    assert r[..|h + x + m|] == h + x + m;
    assert r[..|h|] == h;
    assert r[|r| - |a + t|..] == a + t;
    assert r[|r| - |t|..] == t;
  }

  /** The fixed pieces of a commit line hold no line break. */
  lemma LinkPiecesHaveNoBreak()
    ensures '\n' !in "<a href=\"https://github.com/" && '\n' !in "/" && '\n' !in "/commit/"
    ensures '\n' !in "\">" && '\n' !in "</a>" && '\n' !in " " && '\n' !in " - "
  {
  }

  function CommitLines(owner: string, name: string, cs: seq<Commit>): (r: seq<string>)
    ensures |r| == |cs|
  {
    seq(|cs|, i requires 0 <= i < |cs| => CommitLine(owner, name, cs[i]))
  }

  /** The popover body: the escaped commit lines inside `<pre>` (js/main.js:463-484). */
  function Details(owner: string, name: string, cs: seq<Commit>): string {
    "<pre>" + Escape(Join(CommitLines(owner, name, cs), '\n')) + "</pre>"
  }

  /** The hidden tag that makes the column sort by count (js/main.js:487). */
  function SortPrefix(n: nat): string {
    "<!--" + Pad4(n) + "-->"
  }

  /** The attributes of the popover button before `data-content`, one source line each (js/main.js:489-494). */
  const AnchorLines: seq<string> := [
    "tabindex=\"0\" class=\"btn btn-sm btn-outline-secondary\"",
    "data-toggle=\"popover\"",
    "data-trigger=\"focus\"",
    "data-html=\"true\"",
    "data-placement=\"bottom\"",
    "title=\"Commits\""
  ]

  /** The lines of the template, each followed by the line break and indentation of the source. */
  function AttributeLines(lines: seq<string>): string {
    if lines == [] then "" else lines[0] + " \n    " + AttributeLines(lines[1..])
  }

  /** The opening of the popover button, up to the `data-content` value (js/main.js:489-495). */
  function AnchorHead(): string {
    "<a " + AttributeLines(AnchorLines) + "data-content=\""
  }

  /** The popover button up to its visible text. */
  function Popover(owner: string, name: string, cs: seq<Commit>): string {
    AnchorHead() + Details(owner, name, cs) + "\">"
  }

  /** The visible end of a marker: the direction glyph and the count. */
  function VisibleTail(sep: char, n: nat): string {
    [sep] + NatToString(n) + "</a>"
  }

  /** A string framed by `p` and `t` starts with `p`, ends with `t`, and is at least as long as both. */
  lemma Framed(p: string, m: string, t: string)
    ensures IsPrefix(p, p + (m + t)) && IsSuffix(t, p + (m + t)) && |p + (m + t)| >= |p| + |t|
  {
    var r := p + (m + t);
    assert r[..|p|] == p;
    assert r[|r| - |t|..] == (m + t)[|m|..] == t;
  }

  /**
   * `printInfo(sep, data, fork)`: "0" for an empty comparison, otherwise the sort
   * prefix, the popover button carrying the escaped details, and the glyph and count.
   */
  function PrintInfo(sep: char, cs: seq<Commit>, owner: string, name: string): (r: string)
    ensures cs == [] <==> r == "0"
    ensures cs != [] ==> IsPrefix(SortPrefix(|cs|), r) && IsSuffix(VisibleTail(sep, |cs|), r)
  {
    if cs == [] then "0"
    else
      var p, m, t := SortPrefix(|cs|), Popover(owner, name, cs), VisibleTail(sep, |cs|);
      Framed(p, m, t);
      p + (m + t)
  }

  /** The details of a marker are free of markup and decode back to the commit lines. */
  lemma DetailsEscaped(owner: string, name: string, cs: seq<Commit>)
    ensures var d := Details(owner, name, cs);
            var body := d[5..|d| - 6];
            d == "<pre>" + body + "</pre>" && NoMarkup(body)
            && Unescape(body) == Join(CommitLines(owner, name, cs), '\n')
  {
    var body := Escape(Join(CommitLines(owner, name, cs), '\n'));
    var d := Details(owner, name, cs);
    assert d[5..|d| - 6] == body;
    UnescapeEscape(Join(CommitLines(owner, name, cs), '\n'));
  }

  /**
   * The popover shows one line per commit, in the comparison's order: the
   * unescaped details split on line breaks give back the commit lines, as long
   * as owner, name, sha, date and author carry no line break.
   */
  lemma DetailsLines(owner: string, name: string, cs: seq<Commit>)
    requires cs != []
    requires '\n' !in owner && '\n' !in name
    requires forall i :: 0 <= i < |cs| ==>
               '\n' !in cs[i].sha && '\n' !in cs[i].date && '\n' !in cs[i].authorLogin.GetOr("-")
    ensures var d := Details(owner, name, cs);
            var lines := Split(Unescape(d[5..|d| - 6]), '\n');
            |lines| == |cs| && forall i :: 0 <= i < |cs| ==> lines[i] == CommitLine(owner, name, cs[i])
  {
    DetailsEscaped(owner, name, cs);
    var lines := CommitLines(owner, name, cs);
    assert forall i :: 0 <= i < |lines| ==> lines[i] == CommitLine(owner, name, cs[i]) && '\n' !in lines[i];
    SplitJoin(lines, '\n');
  }

  /** `data.substr(4, 4)`: the sort value of a marker cell (js/main.js:189, js/main.js:241). */
  function SortKey(marker: string): (r: string)
    ensures |r| <= 4
    ensures |marker| >= 8 ==> r == marker[4..8]
    ensures |marker| <= 4 ==> r == ""
  {
    Substr(marker, 4, 4)
  }

  /** A string that starts with a sort prefix starts with `<!--`. */
  lemma CommentOpens(d: string, r: string)
    requires IsPrefix("<!--" + d + "-->", r)
    ensures IsPrefix("<!--", r)
  {
    var p := "<!--" + d + "-->";
    assert r[..4] == p[..4] == "<!--";
  }

  /** A string that starts with a sort prefix has that prefix's four digits as its sort value. */
  lemma SortKeyOfPrefixed(d: string, r: string)
    requires |d| == 4 && IsPrefix("<!--" + d + "-->", r)
    ensures SortKey(r) == d
  {
    var p := "<!--" + d + "-->";
    assert r[4..8] == p[4..8] == d;
  }

  /** A marker with the sort prefix `<!--0000-->` followed by `text`. */
  function ZeroMarker(text: string): (r: string)
    ensures SortKey(r) == "0000" && IsPrefix("<!--", r)
  {
    var p := "<!--" + "0000" + "-->";
    var r := p + text;
    assert IsPrefix(p, r) by {
      assert r[..|p|] == p;
    }
    SortKeyOfPrefixed("0000", r);
    CommentOpens("0000", r);
    r
  }

  /** For 1..9999 commits the sort value of the marker is the zero-padded count. */
  lemma SortKeyOfMarker(sep: char, cs: seq<Commit>, owner: string, name: string)
    requires 1 <= |cs| <= 9999
    ensures SortKey(PrintInfo(sep, cs, owner, name)) == Pad4(|cs|)
  {
    Pad4Digits(|cs|);
    SortKeyOfPrefixed(Pad4(|cs|), PrintInfo(sep, cs, owner, name));
  }

  /** The sort value of a marker for `n` commits, as the table sees it ("0" has none). */
  lemma SortKeyOfEmpty(sep: char, owner: string, name: string)
    ensures SortKey(PrintInfo(sep, [], owner, name)) == ""
  {
  }

  /**
   * Markers for up to 9999 commits sort as strings exactly as their commit counts
   * sort as numbers (the empty comparison's "0" included).
   */
  lemma MarkerSortOrder(sep: char, cs: seq<Commit>, ds: seq<Commit>, owner: string, name: string, owner': string, name': string)
    requires |cs| <= 9999 && |ds| <= 9999
    ensures LexLess(SortKey(PrintInfo(sep, cs, owner, name)), SortKey(PrintInfo(sep, ds, owner', name')))
            <==> |cs| < |ds|
  {
    MarkerKey(sep, cs, owner, name);
    MarkerKey(sep, ds, owner', name');
    if cs != [] && ds != [] {
      Digits4Order(|cs|, |ds|);
    }
  }

  /** The sort value of a marker: empty for the empty comparison, else the count's four digits. */
  lemma MarkerKey(sep: char, cs: seq<Commit>, owner: string, name: string)
    requires |cs| <= 9999
    ensures SortKey(PrintInfo(sep, cs, owner, name)) == if cs == [] then "" else Digits4(|cs|)
  {
    if cs != [] {
      SortKeyOfMarker(sep, cs, owner, name);
      Pad4Digits(|cs|);
    }
  }

  /** The cell renderer of the diff columns in the live table (js/main.js:173-189). */
  function RenderDiffCell(data: Option<string>, display: bool): (r: string)
    ensures data.None? || data == Some("") ==> r == ""
    ensures data.Some? && data.value != "" && !display ==> r == SortKey(data.value)
  {
    match data
    case None => ""
    case Some(s) => if s == "" then "" else if display then s else SortKey(s)
  }

  /** The unused `renderColumnData` for the diff columns (js/main.js:226-241): '' sorts as "0000". */
  function RenderColumnDiff(data: Option<string>, display: bool): (r: string)
    ensures data == Some("") && !display ==> r == "0000"
    ensures data.Some? && data.value != "" && !display ==> r == SortKey(data.value)
  {
    match data
    case None => ""
    case Some(s) => if display then s else if s == "" then "0000" else SortKey(s)
  }
}
