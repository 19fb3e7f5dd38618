/** Reading a written PDF: every reference and every length leads where it says,
    and the pages hold the lines that were written. */
module PdfRoundTrip {
  import opened Outcomes
  import opened Text
  import opened Decimals
  import opened PdfReader
  import opened PdfStreams
  import opened SimplePdf

  const OFFSET_LIMIT := 10_000_000_000

  // ------------------------------------------------------------ single objects

  /** An object's body stands at a position with the end of the object behind it. */
  predicate BodyAt(text: string, p: nat, body: string) {
    Stands(text, p, body) && Stands(text, p + |body|, END_OF_OBJECT)
  }

  lemma CatalogReadsBack(text: string, p: nat, pages: nat)
    requires BodyAt(text, p, Catalog(pages))
    ensures CatalogAt(text, p) == Some(pages)
  {
    FieldReadsBack(text, p, "<< /Type /Catalog /Pages ", pages, " 0 R >>");
  }

  predicate ResourcesAt(text: string, p: nat, font: nat, contents: nat) {
    var q := p + 24 + 28 + |Digits(font)|;
    var r := q + 21 + |Digits(contents)|;
    && Literal(text, p, " /MediaBox [0 0 612 792]") == Some(p + 24)
    && Field(text, p + 24, " /Resources << /Font << /F1 ") == Some((font, q))
    && Field(text, q, " 0 R >> >> /Contents ") == Some((contents, r)) && BodyAt(text, r, " 0 R >>")
  }

  lemma ResourcesStand(text: string, p: nat, font: nat, tail: string)
    requires Stands(text, p, " /MediaBox [0 0 612 792]" + (" /Resources << /Font << /F1 " + Digits(font) + tail))
    requires tail != [] && !Digit(tail[0])
    ensures Literal(text, p, " /MediaBox [0 0 612 792]") == Some(p + 24)
    ensures Field(text, p + 24, " /Resources << /Font << /F1 ") == Some((font, p + 24 + 28 + |Digits(font)|))
    ensures Stands(text, p + 24 + 28 + |Digits(font)|, tail)
  {
    StandsSplit(text, p, " /MediaBox [0 0 612 792]", " /Resources << /Font << /F1 " + Digits(font) + tail);
    FieldReadsBack(text, p + 24, " /Resources << /Font << /F1 ", font, tail);
  }

  lemma PageContentsStand(text: string, p: nat, font: nat, contents: nat)
    requires BodyAt(text, p, PageRest(font, contents))
    ensures ResourcesAt(text, p, font, contents)
  {
    ResourcesStand(text, p, font, " 0 R >> >> /Contents " + Digits(contents) + " 0 R >>");
    FieldReadsBack(text, p + 24 + 28 + |Digits(font)|, " 0 R >> >> /Contents ", contents, " 0 R >>");
  }

  lemma ResourcesMean(text: string, p: nat, font: nat, contents: nat)
    requires ResourcesAt(text, p, font, contents)
    ensures PageContents(text, p) == Some(contents)
  {
  }

  lemma PageContentsReadBack(text: string, p: nat, font: nat, contents: nat)
    requires BodyAt(text, p, PageRest(font, contents))
    ensures PageContents(text, p) == Some(contents)
  {
    PageContentsStand(text, p, font, contents);
    ResourcesMean(text, p, font, contents);
  }

  lemma ParentReadsBack(text: string, p: nat, parent: nat, rest: string)
    requires Stands(text, p, PAGE + Digits(parent) + (" 0 R" + rest))
    ensures var q := p + |PAGE| + |Digits(parent)|;
            && Field(text, p, PAGE) == Some((parent, q))
            && Literal(text, q, " 0 R") == Some(q + 4) && Stands(text, q + 4, rest)
  {
    FieldReadsBack(text, p, PAGE, parent, " 0 R" + rest);
    StandsSplit(text, p + |PAGE| + |Digits(parent)|, " 0 R", rest);
  }

  lemma BodyRest(text: string, p: nat, intro: string, number: string, link: string, rest: string, q: nat)
    requires BodyAt(text, p, intro + number + (link + rest)) && q == p + |intro| + |number| + |link|
    ensures BodyAt(text, q, rest)
  {
    StandsSplit(text, p, intro + number, link + rest);
    StandsSplit(text, p + |intro| + |number|, link, rest);
  }

  predicate LinksAt(text: string, p: nat, parent: nat, contents: nat) {
    var q := p + |PAGE| + |Digits(parent)|;
    && Field(text, p, PAGE) == Some((parent, q)) && Literal(text, q, " 0 R") == Some(q + 4)
    && PageContents(text, q + 4) == Some(contents)
  }

  lemma LinksStand(text: string, p: nat, parent: nat, font: nat, contents: nat)
    requires BodyAt(text, p, PAGE + Digits(parent) + (" 0 R" + PageRest(font, contents)))
    ensures LinksAt(text, p, parent, contents)
  {
    hide Field, Literal, PageContents, PageRest;
    var q := p + |PAGE| + |Digits(parent)|;
    ParentReadsBack(text, p, parent, PageRest(font, contents));
    BodyRest(text, p, PAGE, Digits(parent), " 0 R", PageRest(font, contents), q + 4);
    PageContentsReadBack(text, q + 4, font, contents);
  }

  lemma LinksMean(text: string, p: nat, parent: nat, contents: nat)
    requires LinksAt(text, p, parent, contents)
    ensures PageAt(text, p) == Some((parent, contents))
  {
    hide Field, Literal, PageContents;
  }

  lemma PageReadsBack(text: string, p: nat, parent: nat, font: nat, contents: nat)
    requires BodyAt(text, p, Page(parent, font, contents))
    ensures PageAt(text, p) == Some((parent, contents))
  {
    LinksStand(text, p, parent, font, contents);
    LinksMean(text, p, parent, contents);
  }

  /** A stream is read to its last byte, whatever its bytes are. */
  lemma ContentsReadBack(text: string, p: nat, stream: string)
    requires BodyAt(text, p, Contents(stream))
    ensures StreamAt(text, p) == Some(stream)
  {
    var q, r := StreamStands(text, p, stream);
    StreamAtMeans(text, p, q, r, stream);
  }

  lemma StreamAtMeans(text: string, p: nat, q: nat, r: nat, stream: string)
    requires Field(text, p, "<< /Length ") == Some((|stream|, q)) && Literal(text, q, " >>\nstream\n") == Some(r)
    requires Stands(text, r, stream) && BodyAt(text, r + |stream|, "\nendstream")
    ensures StreamAt(text, p) == Some(stream)
  {
    assert text[r..r + |stream|] == stream by {
      assert forall i :: 0 <= i < |stream| ==> stream[i] == text[r + i];
    }
  }

  lemma StreamStands(text: string, p: nat, stream: string) returns (q: nat, r: nat)
    requires BodyAt(text, p, Contents(stream))
    ensures Field(text, p, "<< /Length ") == Some((|stream|, q)) && Literal(text, q, " >>\nstream\n") == Some(r)
    ensures Stands(text, r, stream) && BodyAt(text, r + |stream|, "\nendstream")
  {
    var intro, outro := " >>\nstream\n", stream + "\nendstream";
    FieldReadsBack(text, p, "<< /Length ", |stream|, intro + outro);
    q := p + |"<< /Length "| + |Digits(|stream|)|;
    r := q + |intro|;
    StandsSplit(text, q, intro, outro);
    StandsSplit(text, r, stream, "\nendstream");
  }

  lemma ReferenceReadsBack(text: string, p: nat, id: nat, rest: string)
    requires rest != [] && Stands(text, p, Digits(id) + (" 0 R" + rest))
    ensures var q := p + |Digits(id)|;
            && Number(text, p) == Some((id, q)) && Literal(text, q, " 0 R") == Some(q + 4)
            && Stands(text, q + 4, rest) && text[q + 4] == rest[0]
  {
    NumberReadsBack(text, p, id, " 0 R" + rest);
    var q := p + |Digits(id)|;
    StandsSplit(text, q, " 0 R", rest);
    StandsFirst(text, q + 4, rest);
  }

  /** What follows the first reference of a list. */
  function Following(ids: seq<nat>, end: string): string
    requires ids != []
  {
    if |ids| == 1 then end else " " + (Kids(ids[1..]) + end)
  }

  lemma KidsSplit(ids: seq<nat>, end: string)
    requires ids != []
    ensures Kids(ids) + end == Digits(ids[0]) + (" 0 R" + Following(ids, end))
  {
    var more := if |ids| == 1 then "" else " " + Kids(ids[1..]);
    if |ids| == 1 {
      assert more + end == end;
    } else {
      Regroup(" ", Kids(ids[1..]), end);
    }
    Regroup(" 0 R", more, end);
    Regroup(Digits(ids[0]), " 0 R" + more, end);
  }

  /** The references can be read one after the other, and end at a position. */
  predicate Chain(text: string, p: nat, ids: seq<nat>, end: nat)
    decreases |ids|
  {
    if ids == [] then false
    else
      var q := p + |Digits(ids[0])|;
      && Number(text, p) == Some((ids[0], q)) && Literal(text, q, " 0 R") == Some(q + 4)
      && if |ids| == 1 then end == q + 4 && (q + 4 < |text| ==> text[q + 4] != ' ')
         else q + 4 < |text| && text[q + 4] == ' ' && Chain(text, q + 5, ids[1..], end)
  }

  lemma ReferencesMean(text: string, p: nat, ids: seq<nat>, q: nat, end: nat)
    requires ids != [] && Number(text, p) == Some((ids[0], q)) && Literal(text, q, " 0 R") == Some(q + 4)
    requires
      if q + 4 < |text| && text[q + 4] == ' ' then References(text, q + 5) == Some((ids[1..], end))
      else |ids| == 1 && end == q + 4
    ensures References(text, p) == Some((ids, end))
  {
    if |ids| == 1 {
      assert ids == [ids[0]] && ids[1..] == [];
    } else {
      assert [ids[0]] + ids[1..] == ids;
    }
  }

  lemma {:induction false} ChainReadsBack(text: string, p: nat, ids: seq<nat>, end: nat)
    requires Chain(text, p, ids, end)
    ensures References(text, p) == Some((ids, end))
    decreases |ids|
  {
    var q := p + |Digits(ids[0])|;
    if |ids| > 1 {
      ChainReadsBack(text, q + 5, ids[1..], end);
    }
    ReferencesMean(text, p, ids, q, end);
  }

  predicate KidAt(text: string, p: nat, ids: seq<nat>, end: string)
    requires ids != []
  {
    var q := p + |Digits(ids[0])|;
    && Number(text, p) == Some((ids[0], q)) && Literal(text, q, " 0 R") == Some(q + 4)
    && Stands(text, q + 4, Following(ids, end))
  }

  lemma FirstKid(text: string, p: nat, ids: seq<nat>, end: string)
    requires ids != [] && end != [] && Stands(text, p, Kids(ids) + end)
    ensures KidAt(text, p, ids, end)
  {
    KidsSplit(ids, end);
    ReferenceReadsBack(text, p, ids[0], Following(ids, end));
  }

  lemma NextKid(text: string, q: nat, ids: seq<nat>, end: string)
    requires ids != [] && end != [] && end[0] != ' ' && Stands(text, q + 4, Following(ids, end))
    ensures q + 4 < |text| && (text[q + 4] == ' ' <==> |ids| > 1)
    ensures |ids| > 1 ==> Stands(text, q + 5, Kids(ids[1..]) + end)
  {
    StandsFirst(text, q + 4, Following(ids, end));
    if |ids| > 1 {
      StandsSplit(text, q + 4, " ", Kids(ids[1..]) + end);
    }
  }

  lemma ChainStep(text: string, p: nat, ids: seq<nat>, end: string, e: nat)
    requires ids != [] && end != [] && end[0] != ' ' && KidAt(text, p, ids, end) && e == p + |Kids(ids)|
    requires |ids| > 1 ==> Chain(text, p + |Digits(ids[0])| + 5, ids[1..], e)
    ensures Chain(text, p, ids, e)
  {
    KidsLength(ids);
    NextKid(text, p + |Digits(ids[0])|, ids, end);
  }

  lemma KidsLength(ids: seq<nat>)
    requires ids != []
    ensures |Kids(ids)| == |Digits(ids[0])| + 4 + (if |ids| == 1 then 0 else 1 + |Kids(ids[1..])|)
  {
  }

  lemma KidStands(text: string, p: nat, ids: seq<nat>, end: string)
    requires ids != [] && end != [] && end[0] != ' ' && Stands(text, p, Kids(ids) + end)
    ensures KidAt(text, p, ids, end)
    ensures |ids| > 1 ==> Stands(text, p + |Digits(ids[0])| + 5, Kids(ids[1..]) + end)
  {
    FirstKid(text, p, ids, end);
    NextKid(text, p + |Digits(ids[0])|, ids, end);
  }

  lemma {:induction false} KidsStand(text: string, p: nat, ids: seq<nat>, end: string, e: nat)
    requires ids != [] && end != [] && end[0] != ' ' && Stands(text, p, Kids(ids) + end) && e == p + |Kids(ids)|
    ensures Chain(text, p, ids, e)
    decreases |ids|
  {
    KidStands(text, p, ids, end);
    if |ids| > 1 {
      KidsLength(ids);
      KidsStand(text, p + |Digits(ids[0])| + 5, ids[1..], end, e);
    }
    ChainStep(text, p, ids, end, e);
  }

  /** The parts of a page tree can be read one after the other. */
  predicate TreeAt(text: string, p: nat, ids: seq<nat>) {
    var q := p + |TREE|;
    var r := q + |Kids(ids)|;
    var s := r + 9 + |Digits(|ids|)|;
    && Literal(text, p, TREE) == Some(q) && Chain(text, q, ids, r)
    && Field(text, r, "] /Count ") == Some((|ids|, s)) && BodyAt(text, s, " >>")
  }

  lemma PageTreeStands(text: string, p: nat, ids: seq<nat>)
    requires ids != [] && BodyAt(text, p, PageTree(ids))
    ensures TreeAt(text, p, ids)
  {
    hide Chain, Field, Kids, Literal;
    CountReadsBack(text, p, TREE, Kids(ids), |ids|);
    KidsStand(text, p + |TREE|, ids, "] /Count " + Digits(|ids|) + " >>", p + |TREE| + |Kids(ids)|);
  }

  lemma PagesAtMeans(text: string, p: nat, q: nat, ids: seq<nat>, r: nat, s: nat)
    requires Literal(text, p, TREE) == Some(q) && References(text, q) == Some((ids, r))
    requires Field(text, r, "] /Count ") == Some((|ids|, s)) && BodyAt(text, s, " >>")
    ensures PagesAt(text, p) == Some(ids)
  {
  }

  lemma TreeAtMeans(text: string, p: nat, ids: seq<nat>)
    requires TreeAt(text, p, ids)
    ensures PagesAt(text, p) == Some(ids)
  {
    hide Chain, Field, Literal, PagesAt, References;
    var q := p + |TREE|;
    var r := q + |Kids(ids)|;
    ChainReadsBack(text, q, ids, r);
    PagesAtMeans(text, p, q, ids, r, r + 9 + |Digits(|ids|)|);
  }

  lemma PageTreeReadsBack(text: string, p: nat, ids: seq<nat>)
    requires ids != [] && BodyAt(text, p, PageTree(ids))
    ensures PagesAt(text, p) == Some(ids)
  {
    PageTreeStands(text, p, ids);
    TreeAtMeans(text, p, ids);
  }

  lemma CountReadsBack(text: string, p: nat, intro: string, kids: string, n: nat)
    requires BodyAt(text, p, intro + (kids + ("] /Count " + Digits(n) + " >>")))
    ensures var q, rest := p + |intro|, "] /Count " + Digits(n) + " >>";
            && Literal(text, p, intro) == Some(q) && Stands(text, q, kids + rest) && rest != [] && rest[0] == ']'
            && Field(text, q + |kids|, "] /Count ") == Some((n, q + |kids| + 9 + |Digits(n)|))
            && BodyAt(text, q + |kids| + 9 + |Digits(n)|, " >>")
  {
    var rest := "] /Count " + Digits(n) + " >>";
    StandsSplit(text, p, intro, kids + rest);
    StandsSplit(text, p + |intro|, kids, rest);
    FieldReadsBack(text, p + |intro| + |kids|, "] /Count ", n, " >>");
  }

  // ------------------------------------------------------------------ the file

  /** Every chunk stands where it begins, and the text ends where the last one does. */
  predicate Spread(text: string, chunks: seq<string>) {
    |text| == Start(chunks, |chunks|) && forall k :: 0 <= k < |chunks| ==> ChunkAt(text, chunks, k)
  }

  predicate ChunkAt(text: string, chunks: seq<string>, k: nat) {
    k < |chunks| && Stands(text, Start(chunks, k), chunks[k])
  }

  lemma NextStart(chunks: seq<string>, k: nat)
    requires k < |chunks|
    ensures Start(chunks, k + 1) == Start(chunks, k) + |chunks[k]|
  {
    assert chunks[..k + 1][..k] == chunks[..k];
  }

  lemma {:induction false} JoinedSpread(text: string, chunks: seq<string>, n: nat)
    requires n <= |chunks| && Stands(text, 0, Joined(chunks[..n]))
    ensures forall k :: 0 <= k < n ==> ChunkAt(text, chunks, k)
  {
    if n > 0 {
      assert chunks[..n][..n - 1] == chunks[..n - 1];
      StandsSplit(text, 0, Joined(chunks[..n - 1]), chunks[n - 1]);
      JoinedSpread(text, chunks, n - 1);
      assert ChunkAt(text, chunks, n - 1);
    }
  }

  lemma JoinedStands(chunks: seq<string>)
    ensures Spread(Joined(chunks), chunks)
  {
    assert chunks[..|chunks|] == chunks;
    JoinedSpread(Joined(chunks), chunks, |chunks|);
  }

  /** The rows of the table are twenty bytes wide exactly below the limit. */
  lemma RowWidth(offset: nat)
    ensures |Row(offset)| == 20 <==> offset < OFFSET_LIMIT
  {
    assert forall i :: 0 <= i < |Padded(offset)| ==> Padded(offset)[i] == Padded(offset)[0 + i];
    PaddedReadsBack(Padded(offset), 0, offset);
  }

  lemma {:induction false} StartsGrow(chunks: seq<string>, j: nat, k: nat)
    requires j <= k <= |chunks|
    ensures Start(chunks, j) <= Start(chunks, k)
  {
    if j < k {
      StartsGrow(chunks, j, k - 1);
      NextStart(chunks, k - 1);
    }
  }

  lemma RowSize(chunks: seq<string>, n: nat, id: nat)
    requires id <= n && RowsIn(chunks, n, n) && Start(chunks, |chunks|) <= OFFSET_LIMIT
    ensures |chunks[n + 2 + id]| == 20
  {
    if id > 0 {
      StartsGrow(chunks, id, n + 1);
      NextStart(chunks, n + 1);
      StartsGrow(chunks, n + 2, |chunks|);
      RowWidth(Start(chunks, id));
    }
  }

  /** So row `id` is found by counting, and so is the end of the table. */
  lemma {:induction false} RowStart(chunks: seq<string>, n: nat, id: nat)
    requires id <= n + 1 && RowsIn(chunks, n, n) && n + n + 3 < |chunks| && Start(chunks, |chunks|) <= OFFSET_LIMIT
    ensures Start(chunks, n + 2 + id) == Start(chunks, n + 2) + 20 * id
  {
    if id > 0 {
      RowStart(chunks, n, id - 1);
      RowSize(chunks, n, id - 1);
      NextStart(chunks, n + 1 + id);
    }
  }

  lemma StartXrefReadsBack(text: string, p: nat, xref: nat)
    requires Stands(text, p, LastLines(xref)) && p + |LastLines(xref)| == |text|
    ensures StartXref(text) == Some(xref)
  {
    StandsSplit(text, p, "startxref\n", Digits(xref) + END_OF_FILE);
    var b := p + 10;
    var e := b + |Digits(xref)|;
    StandsSplit(text, b, Digits(xref), END_OF_FILE);
    assert Zeros(0) + Digits(xref) == Digits(xref);
    DigitsReadBack(text, b, 0, xref);
    assert text[b - 1] == '\n' by {
      assert "startxref\n"[9] == text[p + 9];
    }
    assert DigitsStart(text, e) == b;
  }

  predicate RootAt(text: string, q: nat, root: nat) {
    var r := q + 7 + |Digits(root)|;
    Field(text, q, " /Root ") == Some((root, r)) && Literal(text, r, " 0 R >>\n") == Some(r + 8)
  }

  lemma RootStands(text: string, q: nat, root: nat, last: string)
    requires Stands(text, q, RootEntry(root, last))
    ensures RootAt(text, q, root) && Stands(text, q + 7 + |Digits(root)| + 8, last)
  {
    FieldReadsBack(text, q, " /Root ", root, " 0 R >>\n" + last);
    StandsSplit(text, q + 7 + |Digits(root)|, " 0 R >>\n", last);
  }

  lemma SizeStands(text: string, t: nat, size: nat, rest: string)
    requires Stands(text, t, TRAILER + Digits(size) + rest) && rest != "" && !Digit(rest[0])
    ensures Field(text, t, TRAILER) == Some((size, t + |TRAILER| + |Digits(size)|))
    ensures Stands(text, t + |TRAILER| + |Digits(size)|, rest)
  {
    FieldReadsBack(text, t, TRAILER, size, rest);
  }

  lemma TrailerMeans(text: string, t: nat, size: nat, q: nat, root: nat)
    requires Field(text, t, TRAILER) == Some((size, q)) && RootAt(text, q, root)
    ensures TrailerEntries(text, t) == Some((size, root))
  {
  }

  lemma TrailerReadsBack(text: string, t: nat, size: nat, root: nat, xref: nat)
    requires Stands(text, t, Trailer(size, root, xref)) && t + |Trailer(size, root, xref)| == |text|
    ensures TrailerEntries(text, t) == Some((size, root)) && StartXref(text) == Some(xref)
  {
    var q := t + |TRAILER| + |Digits(size)|;
    SizeStands(text, t, size, RootEntry(root, LastLines(xref)));
    RootStands(text, q, root, LastLines(xref));
    TrailerMeans(text, t, size, q, root);
    StartXrefReadsBack(text, q + 7 + |Digits(root)| + 8, xref);
  }

  lemma TableReadsBack(text: string, x: nat, size: nat)
    requires Stands(text, x, TableHead(size)) && Stands(text, x + |TableHead(size)|, FREE_ROW)
    ensures Table(text, x) == Some((size, x + |TableHead(size)|))
  {
    FieldReadsBack(text, x, "xref\n0 ", size, "\n");
  }

  predicate Readable(text: string, x: nat, size: nat, first: nat, root: nat) {
    && StartXref(text) == Some(x) && Table(text, x) == Some((size, first))
    && TrailerEntries(text, first + 20 * size) == Some((size, root))
  }

  lemma TablePositions(chunks: seq<string>, n: nat)
    requires |chunks| == 2 * n + 4 && RowsIn(chunks, n, n) && Start(chunks, |chunks|) <= OFFSET_LIMIT
    ensures Start(chunks, n + 2) == Start(chunks, n + 1) + |TableHead(n + 1)|
    ensures Start(chunks, 2 * n + 3) == Start(chunks, n + 2) + 20 * (n + 1)
    ensures Start(chunks, |chunks|) == Start(chunks, 2 * n + 3) + |chunks[2 * n + 3]|
  {
    NextStart(chunks, n + 1);
    RowStart(chunks, n, n + 1);
    NextStart(chunks, 2 * n + 3);
  }

  lemma TableChunks(text: string, chunks: seq<string>, n: nat)
    requires Spread(text, chunks) && |chunks| == 2 * n + 4 && RowsIn(chunks, n, n) && |text| <= OFFSET_LIMIT
    ensures var x, first := Start(chunks, n + 1), Start(chunks, n + 2);
            Stands(text, x, TableHead(n + 1)) && Stands(text, first, FREE_ROW) && first == x + |TableHead(n + 1)|
  {
    TablePositions(chunks, n);
    assert ChunkAt(text, chunks, n + 1) && ChunkAt(text, chunks, n + 2);
  }

  lemma FileTable(text: string, chunks: seq<string>, n: nat)
    requires Spread(text, chunks) && |chunks| == 2 * n + 4 && RowsIn(chunks, n, n) && |text| <= OFFSET_LIMIT
    ensures Table(text, Start(chunks, n + 1)) == Some((n + 1, Start(chunks, n + 2)))
  {
    TableChunks(text, chunks, n);
    TableReadsBack(text, Start(chunks, n + 1), n + 1);
  }

  predicate TrailerRead(text: string, t: nat, size: nat, root: nat, x: nat) {
    TrailerEntries(text, t) == Some((size, root)) && StartXref(text) == Some(x)
  }

  predicate EndsWith(text: string, t: nat, piece: string) {
    Stands(text, t, piece) && t + |piece| == |text|
  }

  lemma TrailerEnds(text: string, chunks: seq<string>, n: nat, trailer: string)
    requires Spread(text, chunks) && |chunks| == 2 * n + 4 && RowsIn(chunks, n, n) && |text| <= OFFSET_LIMIT
    requires chunks[2 * n + 3] == trailer
    ensures EndsWith(text, Start(chunks, n + 2) + 20 * (n + 1), trailer)
  {
    TablePositions(chunks, n);
    assert ChunkAt(text, chunks, 2 * n + 3);
  }

  lemma EndReadsBack(text: string, t: nat, size: nat, root: nat, xref: nat)
    requires EndsWith(text, t, Trailer(size, root, xref))
    ensures TrailerRead(text, t, size, root, xref)
  {
    TrailerReadsBack(text, t, size, root, xref);
  }

  lemma FileTrailer(text: string, chunks: seq<string>, n: nat, root: nat, x: nat, t: nat)
    requires Spread(text, chunks) && |chunks| == 2 * n + 4 && RowsIn(chunks, n, n) && |text| <= OFFSET_LIMIT
    requires chunks[2 * n + 3] == Trailer(n + 1, root, x) && t == Start(chunks, n + 2) + 20 * (n + 1)
    ensures TrailerRead(text, t, n + 1, root, x)
  {
    TrailerEnds(text, chunks, n, Trailer(n + 1, root, x));
    EndReadsBack(text, t, n + 1, root, x);
  }

  lemma FileReadable(text: string, chunks: seq<string>, n: nat, root: nat, x: nat, first: nat)
    requires Spread(text, chunks) && |chunks| == 2 * n + 4 && RowsIn(chunks, n, n) && |text| <= OFFSET_LIMIT
    requires x == Start(chunks, n + 1) && first == Start(chunks, n + 2) && chunks[2 * n + 3] == Trailer(n + 1, root, x)
    ensures Readable(text, x, n + 1, first, root)
  {
    hide RowsIn, Spread, Table, TrailerRead;
    FileTable(text, chunks, n);
    FileTrailer(text, chunks, n, root, x, first + 20 * (n + 1));
  }

  lemma OpenAtMeans(text: string, x: nat, size: nat, first: nat, root: nat)
    requires Table(text, x) == Some((size, first)) && TrailerEntries(text, first + 20 * size) == Some((size, root))
    ensures OpenAt(text, x) == Some(File(text, first, size, root))
  {
    hide Table, TrailerEntries;
  }

  lemma ReadableOpens(text: string, x: nat, size: nat, first: nat, root: nat)
    requires Readable(text, x, size, first, root)
    ensures Open(text) == Some(File(text, first, size, root))
  {
    hide OpenAt, StartXref, Table, TrailerEntries;
    OpenAtMeans(text, x, size, first, root);
  }

  lemma FileOpens(text: string, chunks: seq<string>, objects: seq<string>, root: nat)
    requires Spread(text, chunks) && Chunked(chunks, objects, root) && |text| <= OFFSET_LIMIT
    ensures Open(text) == Some(File(text, Start(chunks, |objects| + 2), |objects| + 1, root))
  {
    hide Open, Readable, Spread;
    var n := |objects|;
    var x, first := Start(chunks, n + 1), Start(chunks, n + 2);
    FileReadable(text, chunks, n, root, x, first);
    ReadableOpens(text, x, n + 1, first, root);
  }

  predicate Found(f: File, id: nat, body: string) {
    var p := ObjectAt(f, id);
    p.Some? && BodyAt(f.text, p.value, body)
  }

  /** The table leads to the object with the asked number, and its body stands there. */
  lemma ObjectIsFound(f: File, id: nat, offset: nat, body: string)
    requires 0 < id < f.size && offset < OFFSET_LIMIT
    requires Stands(f.text, f.rows + 20 * id, Row(offset)) && Stands(f.text, offset, Wrapped(id, body))
    ensures Found(f, id, body)
  {
    var row := f.rows + 20 * id;
    RowWidth(offset);
    StandsSplit(f.text, row, Padded(offset), ROW_TAIL);
    PaddedReadsBack(f.text, row, offset);
    StandsSplit(f.text, offset, Head(id) + body, END_OF_OBJECT);
    StandsSplit(f.text, offset, Head(id), body);
  }

  /** Every object of a written file is found by its number. */
  lemma EveryObjectIsFound(f: File, chunks: seq<string>, objects: seq<string>, root: nat, id: nat)
    requires Spread(f.text, chunks) && Chunked(chunks, objects, root) && |f.text| <= OFFSET_LIMIT
    requires f.size == |objects| + 1 && f.rows == Start(chunks, |objects| + 2) && 0 < id <= |objects|
    ensures Found(f, id, objects[id - 1])
  {
    var n := |objects|;
    assert ChunkAt(f.text, chunks, id) && ChunkAt(f.text, chunks, n + 2 + id);
    RowStart(chunks, n, id);
    StartsGrow(chunks, id, n + 1);
    NextStart(chunks, n + 1);
    StartsGrow(chunks, n + 2, |chunks|);
    ObjectIsFound(f, id, Start(chunks, id), objects[id - 1]);
  }

  // --------------------------------------------------------------- round trip

  predicate FoundIn(f: File, objects: seq<string>, id: nat) {
    0 < id <= |objects| && Found(f, id, objects[id - 1])
  }

  predicate AllFound(f: File, objects: seq<string>) {
    forall id :: 0 < id <= |objects| ==> FoundIn(f, objects, id)
  }

  lemma StreamIsRead(f: File, id: nat, page: seq<string>)
    requires Found(f, id, Contents(Stream(page)))
    ensures var p := ObjectAt(f, id);
            p.Some? && StreamAt(f.text, p.value) == Some(Stream(page)) && Shown(Stream(page)) == AsRead(page)
  {
    ContentsReadBack(f.text, ObjectAt(f, id).value, Stream(page));
    StreamShowsPage(page);
  }

  lemma LinkIsRead(f: File, id: nat, parent: nat, contents: nat)
    requires Found(f, id, Page(parent, 1, contents))
    ensures var p := ObjectAt(f, id);
            p.Some? && PageAt(f.text, p.value) == Some((parent, contents))
  {
    PageReadsBack(f.text, ObjectAt(f, id).value, parent, 1, contents);
  }

  lemma PageIsRead(f: File, objects: seq<string>, pages: seq<seq<string>>, k: nat, parent: nat)
    requires AllFound(f, objects) && PageLaid(objects, pages, k, parent)
    ensures ReadPage(f, parent, 2 * k + 3) == Some(AsRead(pages[k]))
  {
    assert FoundIn(f, objects, 2 * k + 3) && FoundIn(f, objects, 2 * k + 2);
    LinkIsRead(f, 2 * k + 3, parent, 2 * k + 2);
    StreamIsRead(f, 2 * k + 2, pages[k]);
  }

  lemma {:induction false} AllAreRead(ids: seq<nat>, read: nat -> Option<seq<string>>, pages: seq<seq<string>>)
    requires |ids| == |pages| && forall k :: 0 <= k < |pages| ==> read(ids[k]) == Some(pages[k])
    ensures ReadAll(ids, read) == Some(pages)
    decreases |pages|
  {
    if pages != [] {
      AllAreRead(ids[1..], read, pages[1..]);
      assert pages == [pages[0]] + pages[1..];
    }
  }

  predicate PagesRead(f: File, parent: nat, ids: seq<nat>, pages: seq<seq<string>>) {
    ReadAll(ids, PageReader(f, parent)) == Some(pages)
  }

  predicate CatalogRead(f: File, id: nat, pages: nat) {
    var c := ObjectAt(f, id);
    c.Some? && CatalogAt(f.text, c.value) == Some(pages)
  }

  lemma CatalogIsRead(f: File, id: nat, pages: nat)
    requires Found(f, id, Catalog(pages))
    ensures CatalogRead(f, id, pages)
  {
    CatalogReadsBack(f.text, ObjectAt(f, id).value, pages);
  }

  predicate TreeRead(f: File, id: nat, ids: seq<nat>) {
    var p := ObjectAt(f, id);
    p.Some? && PagesAt(f.text, p.value) == Some(ids)
  }

  lemma TreeIsRead(f: File, id: nat, ids: seq<nat>)
    requires Found(f, id, PageTree(ids)) && ids != []
    ensures TreeRead(f, id, ids)
  {
    PageTreeReadsBack(f.text, ObjectAt(f, id).value, ids);
  }

  /** Root, page tree and so many pages can be read one after the other. */
  predicate AllRead(f: File, n: nat, pages: seq<seq<string>>) {
    && CatalogRead(f, f.root, 2 * n + 2) && TreeRead(f, 2 * n + 2, PageIds(n))
    && PagesRead(f, 2 * n + 2, PageIds(n), pages)
  }

  lemma AllReadMeans(f: File, n: nat, pages: seq<seq<string>>)
    requires Open(f.text) == Some(f) && AllRead(f, n, pages)
    ensures ReadPdf(f.text) == Some(pages)
  {
  }

  lemma CatalogOfFile(f: File, objects: seq<string>, pages: seq<seq<string>>)
    requires AllFound(f, objects) && Laid(objects, pages)
    ensures CatalogRead(f, |objects|, 2 * |pages| + 2)
  {
    assert FoundIn(f, objects, |objects|);
    CatalogIsRead(f, |objects|, 2 * |pages| + 2);
  }

  lemma TreeOfFile(f: File, objects: seq<string>, pages: seq<seq<string>>)
    requires AllFound(f, objects) && Laid(objects, pages) && pages != []
    ensures TreeRead(f, 2 * |pages| + 2, PageIds(|pages|))
  {
    assert FoundIn(f, objects, 2 * |pages| + 2);
    TreeIsRead(f, 2 * |pages| + 2, PageIds(|pages|));
  }

  lemma PageOfFile(f: File, objects: seq<string>, pages: seq<seq<string>>, k: nat)
    requires AllFound(f, objects) && Laid(objects, pages) && k < |pages|
    ensures PageReader(f, 2 * |pages| + 2)(2 * k + 3) == Some(AsRead(pages[k]))
  {
    assert PageLaid(objects, pages, k, 2 * |pages| + 2);
    PageIsRead(f, objects, pages, k, 2 * |pages| + 2);
  }

  lemma PagesOfFile(f: File, objects: seq<string>, pages: seq<seq<string>>)
    requires AllFound(f, objects) && Laid(objects, pages)
    ensures PagesRead(f, 2 * |pages| + 2, PageIds(|pages|), PagesAsRead(pages))
  {
    var read := PageReader(f, 2 * |pages| + 2);
    forall k | 0 <= k < |pages| ensures read(PageIds(|pages|)[k]) == Some(PagesAsRead(pages)[k]) {
      PageOfFile(f, objects, pages, k);
    }
    AllAreRead(PageIds(|pages|), read, PagesAsRead(pages));
  }

  lemma FileIsRead(f: File, objects: seq<string>, pages: seq<seq<string>>)
    requires f.root == |objects| && AllFound(f, objects) && Laid(objects, pages) && pages != []
    ensures AllRead(f, |pages|, PagesAsRead(pages))
  {
    CatalogOfFile(f, objects, pages);
    TreeOfFile(f, objects, pages);
    PagesOfFile(f, objects, pages);
  }

  lemma AllAreFound(f: File, chunks: seq<string>, objects: seq<string>, root: nat)
    requires Spread(f.text, chunks) && Chunked(chunks, objects, root) && |f.text| <= OFFSET_LIMIT
    requires f.size == |objects| + 1 && f.rows == Start(chunks, |objects| + 2)
    ensures AllFound(f, objects)
  {
    forall id | 0 < id <= |objects| ensures FoundIn(f, objects, id) {
      EveryObjectIsFound(f, chunks, objects, root, id);
    }
  }

  lemma ChunksAreRead(text: string, chunks: seq<string>, objects: seq<string>, pages: seq<seq<string>>)
    requires Spread(text, chunks) && Chunked(chunks, objects, |objects|) && |text| <= OFFSET_LIMIT
    requires Laid(objects, pages) && pages != []
    ensures ReadPdf(text) == Some(PagesAsRead(pages))
  {
    var f := File(text, Start(chunks, |objects| + 2), |objects| + 1, |objects|);
    FileOpens(text, chunks, objects, |objects|);
    AllAreFound(f, chunks, objects, |objects|);
    FileIsRead(f, objects, pages);
    AllReadMeans(f, |pages|, PagesAsRead(pages));
  }

  /** `make_simple_pdf`, for any way of wrapping. As long as its positions fit into
      ten digits, a reader gets from the file the pages of the text's lines, and
      together the lines; a carriage return inside a line is all that can differ. */
  method MakeSimplePdf(text: string, wrap: string -> seq<string>) returns (file: string)
    ensures var lines := TextLines(text, wrap);
            && (|file| <= OFFSET_LIMIT ==> ReadPdf(file) == Some(PagesAsRead(Pages(lines))))
            && (PagesAsRead(Pages(lines)) == Pages(lines) <==> NoReturns(lines))
            && Together(Pages(lines)) == lines
  {
    var lines := WrapLines(text, wrap);
    var objects, catalogId := BuildObjects(lines);
    var chunks := WriteChunks(objects, catalogId);
    file := Joined(chunks);
    JoinedStands(chunks);
    if |file| <= OFFSET_LIMIT {
      ChunksAreRead(file, chunks, objects, Pages(lines));
    }
    PagesAsReadIff(lines);
    PagesHoldTheLines(lines);
  }
}
