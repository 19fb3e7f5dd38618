/** The pages of the morning summary's PDF writer and their content streams. */
module PdfStreams {
  import opened PdfReader
  import opened Sequences
  import opened Text

  const LINES := 48

  // ------------------------------------------------------------------- lines

  /** Where `str.splitlines` ends a line. */
  predicate LineEnd(c: char) {
    c in {'\n', '\r', 11 as char, 12 as char, 28 as char, 29 as char, 30 as char,
          0x85 as char, 0x2028 as char, 0x2029 as char}
  }

  /** Line feed to carriage return, three of the separators, and the line ends of Unicode. */
  lemma LineEndsAre(c: char)
    ensures var n := c as int;
            LineEnd(c) <==> 10 <= n <= 13 || 28 <= n <= 30 || n == 133 || n == 8232 || n == 8233
  {
    assert 10 as char == '\n' && 13 as char == '\r';
    if 10 <= c as int <= 13 || 28 <= c as int <= 30 {
      assert c == (c as int) as char;
    }
  }

  /** The first line, its end, and the rest. */
  function FirstLine(text: string): (r: (string, string, string))
    requires text != ""
    ensures text == r.0 + r.1 + r.2 && |r.2| < |text|
  {
    if LineEnd(text[0]) then ("", text[..EndOfLine(text)], text[EndOfLine(text)..])
    else if |text| == 1 then (text, "", "")
    else
      var (line, end, rest) := FirstLine(text[1..]);
      assert text == [text[0]] + text[1..];
      ([text[0]] + line, end, rest)
  }

  /** `text.splitlines()` */
  function SplitLines(text: string): (lines: seq<string>)
    decreases |text|
  {
    if text == "" then []
    else
      var (line, end, rest) := FirstLine(text);
      [line] + SplitLines(rest)
  }

  /** What ends each line of a text: nothing, if the text stops there. */
  function LineEnds(text: string): (ends: seq<string>)
    decreases |text|
  {
    if text == "" then []
    else
      var (line, end, rest) := FirstLine(text);
      [end] + LineEnds(rest)
  }

  /** The lines, each with its end behind it. */
  function Rejoined(lines: seq<string>, ends: seq<string>): string
    requires |lines| == |ends|
  {
    if lines == [] then "" else lines[0] + ends[0] + Rejoined(lines[1..], ends[1..])
  }

  /** An end of a line before the rest of the text; a carriage return and a line feed
      are one end, and nothing but the end of the text ends a line without a character. */
  predicate EndsLine(line: string, end: string, rest: string) {
    && (forall i :: 0 <= i < |line| ==> !LineEnd(line[i]))
    && (end == "\r\n" || (|end| == 1 && LineEnd(end[0])) || (end == "" && line != "" && rest == ""))
    && (end == "\r" && rest != "" ==> rest[0] != '\n')
  }

  predicate AllEnd(lines: seq<string>, ends: seq<string>)
    requires |lines| == |ends|
  {
    lines == [] || (EndsLine(lines[0], ends[0], Rejoined(lines[1..], ends[1..])) && AllEnd(lines[1..], ends[1..]))
  }

  lemma {:induction false} FirstLineEnds(text: string)
    requires text != ""
    ensures var (line, end, rest) := FirstLine(text); EndsLine(line, end, rest)
  {
    if !LineEnd(text[0]) && |text| > 1 {
      FirstLineEnds(text[1..]);
    }
  }

  lemma FirstLineGrows(c: char, text: string)
    requires !LineEnd(c) && text != ""
    ensures var (line, end, rest) := FirstLine(text); FirstLine([c] + text) == ([c] + line, end, rest)
  {
    assert ([c] + text)[1..] == text;
  }

  lemma {:induction false} FirstLineIs(line: string, end: string, rest: string)
    requires EndsLine(line, end, rest)
    ensures line + end + rest != "" && FirstLine(line + end + rest) == (line, end, rest)
    decreases |line|
  {
    var text := line + end + rest;
    if line == "" {
      assert text == end + rest;
      assert text[..|end|] == end && text[|end|..] == rest;
    } else if |text| > 1 {
      var next := line[1..] + end + rest;
      assert text == [line[0]] + next && line == [line[0]] + line[1..];
      FirstLineIs(line[1..], end, rest);
      FirstLineGrows(line[0], next);
    } else {
      assert line == [line[0]] && end == "" && rest == "";
    }
  }

  /** The lines with their ends are the text, and there is no other way to part it:
      however it is parted into lines and ends, the lines are those of `SplitLines`. */
  lemma {:induction false} SplitLinesParts(text: string)
    ensures |LineEnds(text)| == |SplitLines(text)| && Rejoined(SplitLines(text), LineEnds(text)) == text
    ensures AllEnd(SplitLines(text), LineEnds(text))
    decreases |text|
  {
    if text != "" {
      FirstLineEnds(text);
      SplitLinesParts(FirstLine(text).2);
    }
  }

  lemma {:induction false} SplitLinesIsUnique(lines: seq<string>, ends: seq<string>)
    requires |lines| == |ends| && AllEnd(lines, ends)
    ensures SplitLines(Rejoined(lines, ends)) == lines
  {
    if lines != [] {
      FirstLineIs(lines[0], ends[0], Rejoined(lines[1..], ends[1..]));
      SplitLinesIsUnique(lines[1..], ends[1..]);
      assert lines == [lines[0]] + lines[1..];
    }
  }

  /** `textwrap.wrap(...) or [""]`, for any way of wrapping. */
  function OrBlank(wrap: string -> seq<string>): string -> seq<string> {
    (raw: string) => if wrap(raw) == [] then [""] else wrap(raw)
  }

  /** The lines of a text, in order. */
  function TextLines(text: string, wrap: string -> seq<string>): seq<string> {
    Flat(SplitLines(text), OrBlank(wrap))
  }

  method WrapLines(text: string, wrap: string -> seq<string>) returns (lines: seq<string>)
    ensures lines == TextLines(text, wrap)
  {
    lines := [];
    var raws := SplitLines(text);
    for i := 0 to |raws|
      invariant lines + Flat(raws[i..], OrBlank(wrap)) == Flat(raws, OrBlank(wrap))
    {
      FlatFrom(lines, raws, i, OrBlank(wrap));
      lines := lines + if wrap(raws[i]) == [] then [""] else wrap(raws[i]);
    }
  }

  predicate NoReturns(lines: seq<string>) {
    forall i :: 0 <= i < |lines| ==> '\r' !in lines[i]
  }

  lemma {:induction false} LinesHoldNoReturn(lines: seq<string>, ends: seq<string>)
    requires |lines| == |ends| && AllEnd(lines, ends)
    ensures NoReturns(lines)
  {
    if lines != [] {
      LinesHoldNoReturn(lines[1..], ends[1..]);
      assert EndsLine(lines[0], ends[0], Rejoined(lines[1..], ends[1..]));
    }
  }

  /** Wrapping that brings in no carriage returns leaves none, as the raw lines hold none. */
  lemma {:induction false} WrappedHoldNone(raws: seq<string>, wrap: string -> seq<string>)
    requires NoReturns(raws) && forall s :: '\r' !in s ==> NoReturns(wrap(s))
    ensures NoReturns(Flat(raws, OrBlank(wrap)))
  {
    if raws != [] {
      WrappedHoldNone(raws[1..], wrap);
      assert '\r' !in raws[0] && NoReturns(OrBlank(wrap)(raws[0]));
    }
  }

  lemma TextLinesHoldNone(text: string, wrap: string -> seq<string>)
    requires forall s :: '\r' !in s ==> NoReturns(wrap(s))
    ensures NoReturns(TextLines(text, wrap))
  {
    SplitLinesParts(text);
    LinesHoldNoReturn(SplitLines(text), LineEnds(text));
    WrappedHoldNone(SplitLines(text), wrap);
  }

  // ------------------------------------------------------------------- pages

  /** The lines in groups of `LINES`; no lines at all are still one page. */
  function Pages(lines: seq<string>): (pages: seq<seq<string>>)
    ensures pages != []
    ensures forall k :: 0 <= k < |pages| ==> |pages[k]| <= 48
    ensures forall k :: 0 <= k < |pages| - 1 ==> |pages[k]| == 48
  {
    if |lines| <= LINES then [lines] else [lines[..LINES]] + Pages(lines[LINES..])
  }

  function Together(pages: seq<seq<string>>): seq<string> {
    if pages == [] then [] else pages[0] + Together(pages[1..])
  }

  lemma {:induction false} PagesHoldTheLines(lines: seq<string>)
    ensures Together(Pages(lines)) == lines
  {
    if |lines| > LINES {
      PagesHoldTheLines(lines[LINES..]);
      assert Pages(lines)[1..] == Pages(lines[LINES..]);
      assert lines[..LINES] + lines[LINES..] == lines;
    } else {
      assert [lines][1..] == [];
    }
  }

  /** `[lines[i : i + 48] for i in range(0, len(lines), 48)] or [[]]` */
  method SplitPages(lines: seq<string>) returns (pages: seq<seq<string>>)
    ensures pages == Pages(lines)
  {
    pages := [];
    var i := 0;
    while i < |lines|
      invariant 0 <= i <= |lines| || (pages != [] && |lines| <= i)
      invariant i == 0 <==> pages == []
      invariant i < |lines| ==> Pages(lines) == pages + Pages(lines[i..])
      invariant i >= |lines| && pages != [] ==> Pages(lines) == pages
    {
      var next := if i + LINES <= |lines| then i + LINES else |lines|;
      assert |lines[i..]| > LINES ==> lines[i..][..LINES] == lines[i..next] && lines[i..][LINES..] == lines[next..];
      assert |lines[i..]| <= LINES ==> lines[i..] == lines[i..next];
      pages := pages + [lines[i..next]];
      i := i + LINES;
    }
    if pages == [] {
      pages := [[]];
    }
  }

  // ----------------------------------------------------------------- escapes

  /** `str.replace` of one character. */
  function ReplaceChar(s: string, c: char, replacement: string): string {
    if s == "" then "" else (if s[0] == c then replacement else [s[0]]) + ReplaceChar(s[1..], c, replacement)
  }

  function PdfEscape(s: string): string {
    ReplaceChar(ReplaceChar(ReplaceChar(s, '\\', "\\\\"), '(', "\\("), ')', "\\)")
  }

  lemma {:induction false} ReplaceCharConcat(a: string, b: string, c: char, replacement: string)
    ensures ReplaceChar(a + b, c, replacement) == ReplaceChar(a, c, replacement) + ReplaceChar(b, c, replacement)
  {
    if a == "" {
      assert a + b == b;
    } else {
      assert (a + b)[0] == a[0] && (a + b)[1..] == a[1..] + b;
      ReplaceCharConcat(a[1..], b, c, replacement);
    }
  }

  function Guarded(c: char): string {
    if c in {'\\', '(', ')'} then ['\\', c] else [c]
  }

  /** The three replacements escape each character on its own. */
  lemma EscapeStep(s: string)
    requires s != ""
    ensures PdfEscape(s) == Guarded(s[0]) + PdfEscape(s[1..])
  {
    var one := ReplaceChar(s[..1], '\\', "\\\\");
    var tail := ReplaceChar(s[1..], '\\', "\\\\");
    assert s == s[..1] + s[1..];
    ReplaceCharConcat(s[..1], s[1..], '\\', "\\\\");
    ReplaceCharConcat(one, tail, '(', "\\(");
    var two, rest := ReplaceChar(one, '(', "\\("), ReplaceChar(tail, '(', "\\(");
    ReplaceCharConcat(two, rest, ')', "\\)");
    var c := s[0];
    assert one == if c == '\\' then "\\\\" else [c];
    assert two == if c == '\\' then "\\\\" else if c == '(' then "\\(" else [c];
    assert ReplaceChar(two, ')', "\\)") == Guarded(c);
  }

  /** Each character guarded on its own. */
  function Guard(s: string): string {
    if s == "" then "" else Guarded(s[0]) + Guard(s[1..])
  }

  lemma {:induction false} EscapeGuards(s: string)
    ensures PdfEscape(s) == Guard(s)
  {
    if s != "" {
      EscapeStep(s);
      EscapeGuards(s[1..]);
    }
  }

  /** What the format makes of the line ends in a string. */
  function Normal(s: string): string {
    if s == "" then ""
    else if s[0] == '\r' then ['\n'] + Normal(s[EndOfLine(s)..])
    else [s[0]] + Normal(s[1..])
  }

  /** A string comes back as it was exactly when it holds no carriage return. */
  lemma {:induction false} NormalIff(s: string)
    ensures '\r' !in Normal(s)
    ensures Normal(s) == s <==> '\r' !in s
    decreases |s|
  {
    if s != "" {
      if s[0] == '\r' {
        NormalIff(s[EndOfLine(s)..]);
      } else {
        NormalIff(s[1..]);
        assert s == [s[0]] + s[1..];
      }
    }
  }

  lemma PlainReadsBack(c: char, tail: string)
    requires c != '\r'
    ensures var (rest, after) := StringRest(tail, 0);
            StringRest(Guarded(c) + tail, 0) == ([c] + rest, after)
  {
    var text := Guarded(c) + tail;
    if c in {'\\', '(', ')'} {
      assert text[0] == '\\' && text[1] == c && text[2..] == tail && Escaped(c) == c;
    } else {
      assert text[0] == c && text[1..] == tail;
    }
  }

  lemma ReturnReadsBack(tail: string)
    requires tail != ""
    ensures var (rest, after) := StringRest(if tail[0] == '\n' then tail[1..] else tail, 0);
            StringRest(['\r'] + tail, 0) == (['\n'] + rest, after)
  {
    var text := ['\r'] + tail;
    assert text[0] == '\r' && text[1] == tail[0] && text[1..] == tail && text[2..] == tail[1..];
  }

  /** Reading undoes guarding, for every text, up to the closing parenthesis. */
  lemma {:induction false} GuardReadsBack(s: string, after: string)
    ensures StringRest(Guard(s) + (")" + after), 0) == (Normal(s), after)
    decreases |s|
  {
    var close := ")" + after;
    if s == "" {
      assert Guard(s) + close == close && close[1..] == after;
    } else {
      var tail := Guard(s[1..]) + close;
      Regroup(Guarded(s[0]), Guard(s[1..]), close);
      if s[0] != '\r' {
        PlainReadsBack(s[0], tail);
        GuardReadsBack(s[1..], after);
      } else {
        ReturnReadsBack(tail);
        if |s| > 1 && s[1] == '\n' {
          assert tail[1..] == Guard(s[2..]) + close && s[1..][1..] == s[2..];
          GuardReadsBack(s[2..], after);
        } else {
          GuardReadsBack(s[1..], after);
        }
      }
    }
  }

  /** Reading undoes the writer's three replacements, but for carriage returns. */
  lemma EscapeReadsBack(s: string, after: string)
    ensures StringRest(PdfEscape(s) + (")" + after), 0) == (Normal(s), after)
    ensures StringRest(PdfEscape(s) + (")" + after), 0) == (s, after) <==> '\r' !in s
  {
    EscapeGuards(s);
    GuardReadsBack(s, after);
    NormalIff(s);
  }

  // ----------------------------------------------------------------- streams

  function Join(parts: seq<string>): string {
    if parts == [] then ""
    else if |parts| == 1 then parts[0]
    else Join(parts[..|parts| - 1]) + "\n" + parts[|parts| - 1]
  }

  lemma JoinOneMore(parts: seq<string>, last: string)
    requires parts != []
    ensures Join(parts + [last]) == Join(parts) + "\n" + last
  {
    assert (parts + [last])[..|parts|] == parts;
  }

  const PREAMBLE := ["BT", "/F1 10 Tf", "50 780 Td", "14 TL"]

  function Show(line: string): string {
    "(" + Guard(line) + ") Tj"
  }

  /** The operators for the first lines of a page. */
  function StreamLines(page: seq<string>, n: nat): (parts: seq<string>)
    requires n <= |page|
    ensures parts != []
  {
    if n == 0 then PREAMBLE
    else StreamLines(page, n - 1) + (if n > 1 then ["T*"] else []) + [Show(page[n - 1])]
  }

  function Stream(page: seq<string>): string {
    Join(StreamLines(page, |page|) + ["ET"])
  }

  method PageStream(page: seq<string>) returns (stream: string)
    ensures stream == Stream(page)
  {
    var parts := ["BT", "/F1 10 Tf", "50 780 Td", "14 TL"];
    for idx := 0 to |page|
      invariant parts == StreamLines(page, idx)
    {
      if idx > 0 {
        parts := parts + ["T*"];
      }
      EscapeGuards(page[idx]);
      parts := parts + ["(" + PdfEscape(page[idx]) + ") Tj"];
    }
    parts := parts + ["ET"];
    stream := Join(parts);
  }

  /** The text of a stream from a line on. */
  function StreamFrom(page: seq<string>, i: nat): string
    requires i <= |page|
    decreases |page| - i
  {
    if i == |page| then "\nET"
    else (if i > 0 then "\nT*\n" else "\n") + ("(" + (Guard(page[i]) + (")" + (" Tj" + StreamFrom(page, i + 1)))))
  }

  lemma JoinTwoMore(parts: seq<string>, next: string, last: string)
    requires parts != []
    ensures Join(parts + [next] + [last]) == Join(parts) + ("\n" + next + "\n") + last
  {
    JoinOneMore(parts, next);
    JoinOneMore(parts + [next], last);
    Regroup(Join(parts), "\n", next);
    Regroup(Join(parts), "\n" + next, "\n");
  }

  lemma JoinAnother(parts: seq<string>, more: bool, line: string, after: string)
    requires parts != []
    ensures Join(parts + (if more then ["T*"] else []) + [line]) + after
         == Join(parts) + ((if more then "\nT*\n" else "\n") + (line + after))
  {
    var between := if more then "\nT*\n" else "\n";
    if more {
      JoinTwoMore(parts, "T*", line);
      assert "\n" + "T*" + "\n" == between;
    } else {
      JoinOneMore(parts, line);
      assert parts + [] == parts;
    }
    Regroup(Join(parts) + between, line, after);
    Regroup(Join(parts), between, line + after);
  }

  lemma ShowSplits(line: string, after: string)
    ensures Show(line) + after == "(" + (Guard(line) + (")" + (" Tj" + after)))
  {
    Regroup("(", Guard(line), ") Tj");
    assert ") Tj" + after == ")" + (" Tj" + after);
    Regroup(Guard(line), ") Tj", after);
    Regroup("(", Guard(line) + ") Tj", after);
  }

  lemma {:induction false} StreamSplits(page: seq<string>, n: nat)
    requires n <= |page|
    ensures Join(PREAMBLE) + StreamFrom(page, 0) == Join(StreamLines(page, n)) + StreamFrom(page, n)
  {
    if n > 0 {
      StreamSplits(page, n - 1);
      var line, after := Show(page[n - 1]), StreamFrom(page, n);
      JoinAnother(StreamLines(page, n - 1), n > 1, line, after);
      ShowSplits(page[n - 1], after);
    }
  }

  lemma {:induction false} JoinLacks(parts: seq<string>, c: char)
    requires c != '\n' && forall i :: 0 <= i < |parts| ==> c !in parts[i]
    ensures c !in Join(parts)
  {
    if |parts| > 1 {
      JoinLacks(parts[..|parts| - 1], c);
    }
  }

  lemma {:induction false} ShownPast(a: string, b: string)
    requires '(' !in a
    ensures Shown(a + b) == Shown(b)
  {
    if a == "" {
      assert a + b == b;
    } else {
      assert (a + b)[0] == a[0] && (a + b)[1..] == a[1..] + b;
      ShownPast(a[1..], b);
    }
  }

  lemma ShownLine(before: string, line: string, after: string)
    requires '(' !in before
    ensures Shown(before + ("(" + (Guard(line) + (")" + after)))) == [Normal(line)] + Shown(after)
  {
    var literal := "(" + (Guard(line) + (")" + after));
    ShownPast(before, literal);
    assert literal[1..] == Guard(line) + (")" + after);
    GuardReadsBack(line, after);
  }

  lemma MappedFrom<T, U>(xs: seq<T>, i: nat, f: T -> U)
    requires i < |xs|
    ensures Mapped(xs[i..], f) == [f(xs[i])] + Mapped(xs[i + 1..], f)
  {
  }

  lemma {:induction false} ShownFrom(page: seq<string>, i: nat)
    requires i <= |page|
    ensures Shown(StreamFrom(page, i)) == Mapped(page[i..], Normal)
    decreases |page| - i
  {
    if i == |page| {
      assert "\nET" == "\nET" + "";
      ShownPast("\nET", "");
    } else {
      ShownLine(if i > 0 then "\nT*\n" else "\n", page[i], " Tj" + StreamFrom(page, i + 1));
      ShownPast(" Tj", StreamFrom(page, i + 1));
      ShownFrom(page, i + 1);
      MappedFrom(page, i, Normal);
    }
  }

  function AsRead(page: seq<string>): seq<string> {
    Mapped(page, Normal)
  }

  function PagesAsRead(pages: seq<seq<string>>): seq<seq<string>> {
    Mapped(pages, AsRead)
  }

  lemma AsReadIff(lines: seq<string>)
    ensures AsRead(lines) == lines <==> NoReturns(lines)
  {
    forall i | 0 <= i < |lines| ensures AsRead(lines)[i] == lines[i] <==> '\r' !in lines[i] {
      NormalIff(lines[i]);
    }
  }

  /** Pages come back as they were exactly when no line holds a carriage return. */
  lemma {:induction false} PagesAsReadIff(lines: seq<string>)
    ensures PagesAsRead(Pages(lines)) == Pages(lines) <==> NoReturns(lines)
  {
    if |lines| <= LINES {
      AsReadIff(lines);
      assert PagesAsRead([lines])[0] == AsRead(lines) && [lines][0] == lines;
    } else {
      var front, back := lines[..LINES], lines[LINES..];
      AsReadIff(front);
      PagesAsReadIff(back);
      PagesAsReadSplit(front, Pages(back));
      assert lines == front + back;
      assert NoReturns(lines) <==> NoReturns(front) && NoReturns(back) by {
        NoReturnsSplit(front, back);
      }
    }
  }

  lemma PagesAsReadSplit(page: seq<string>, pages: seq<seq<string>>)
    ensures PagesAsRead([page] + pages) == [AsRead(page)] + PagesAsRead(pages)
    ensures PagesAsRead([page] + pages) == [page] + pages <==> AsRead(page) == page && PagesAsRead(pages) == pages
  {
    assert PagesAsRead([page] + pages) == [AsRead(page)] + PagesAsRead(pages);
    SameHeads(AsRead(page), PagesAsRead(pages), page, pages);
  }

  lemma SameHeads<T>(x: T, xs: seq<T>, y: T, ys: seq<T>)
    ensures [x] + xs == [y] + ys <==> x == y && xs == ys
  {
    var a, b := [x] + xs, [y] + ys;
    assert a[0] == x && a[1..] == xs && b[0] == y && b[1..] == ys;
  }

  lemma NoReturnsSplit(a: seq<string>, b: seq<string>)
    ensures NoReturns(a + b) <==> NoReturns(a) && NoReturns(b)
  {
    assert forall i :: 0 <= i < |a| ==> (a + b)[i] == a[i];
    assert forall i :: 0 <= i < |b| ==> (a + b)[|a| + i] == b[i];
  }

  /** A page's content stream shows exactly the page's lines, as the format reads them. */
  lemma StreamShowsPage(page: seq<string>)
    ensures Shown(Stream(page)) == AsRead(page)
  {
    StreamSplits(page, |page|);
    JoinOneMore(StreamLines(page, |page|), "ET");
    assert Stream(page) == Join(PREAMBLE) + StreamFrom(page, 0);
    JoinLacks(PREAMBLE, '(');
    ShownPast(Join(PREAMBLE), StreamFrom(page, 0));
    ShownFrom(page, 0);
    assert page[0..] == page;
  }
}
