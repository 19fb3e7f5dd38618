/** The PDF writer of the morning summary: numbered objects and a
    cross-reference table of byte positions. */
module SimplePdf {
  import opened Decimals
  import opened PdfReader
  import opened PdfStreams
  import opened Text

  const HEADER := "%PDF-1.4\n"
  const FONT := "<< /Type /Font /Subtype /Type1 /BaseFont /Helvetica >>"
  const TO_PATCH := "/Parent 0 0 R"

  // ----------------------------------------------------------------- objects

  function Contents(stream: string): string {
    "<< /Length " + Digits(|stream|) + (" >>\nstream\n" + (stream + "\nendstream"))
  }

  function Page(parent: nat, font: nat, contents: nat): string {
    PAGE + Digits(parent) + (" 0 R" + PageRest(font, contents))
  }

  function PageRest(font: nat, contents: nat): string {
    " /MediaBox [0 0 612 792]" +
    (" /Resources << /Font << /F1 " + Digits(font) + (" 0 R >> >> /Contents " + Digits(contents) + " 0 R >>"))
  }

  /** References to the pages, with blanks between them. */
  function Kids(ids: seq<nat>): string {
    if ids == [] then ""
    else Digits(ids[0]) + (" 0 R" + (if |ids| == 1 then "" else " " + Kids(ids[1..])))
  }

  function PageTree(ids: seq<nat>): string {
    TREE + (Kids(ids) + ("] /Count " + Digits(|ids|) + " >>"))
  }

  function Catalog(pages: nat): string {
    "<< /Type /Catalog /Pages " + Digits(pages) + " 0 R >>"
  }

  /** `bytes.replace`, left to right without overlaps. */
  function Replace(s: string, from: string, to: string): string
    requires from != ""
  {
    if s == "" then ""
    else if Stands(s, 0, from) then to + Replace(s[|from|..], from, to)
    else [s[0]] + Replace(s[1..], from, to)
  }

  lemma StandsLater(s: string, n: nat, i: nat, piece: string)
    requires n <= |s|
    ensures Stands(s[n..], i, piece) <==> Stands(s, n + i, piece)
  {
    if n + i + |piece| <= |s| {
      assert s[n + i..n + i + |piece|] == s[n..][i..i + |piece|];
    }
  }

  lemma {:induction false} ReplaceMisses(a: string, b: string, from: string, to: string)
    requires from != "" && forall i :: 0 <= i < |a| ==> !Stands(a + b, i, from)
    ensures Replace(a + b, from, to) == a + Replace(b, from, to)
    decreases a
  {
    if a == "" {
      assert a + b == b;
    } else {
      var s := a + b;
      assert s[0] == a[0] && s[1..] == a[1..] + b;
      forall i | 0 <= i < |a| - 1 ensures !Stands(a[1..] + b, i, from) {
        StandsLater(s, 1, i, from);
      }
      ReplaceMisses(a[1..], b, from, to);
    }
  }

  lemma Differs(s: string, i: nat, piece: string, k: nat)
    requires k < |piece| && (i + k >= |s| || s[i + k] != piece[k])
    ensures !Stands(s, i, piece)
  {
    if i + |piece| <= |s| {
      assert s[i..i + |piece|][k] == s[i + k];
    }
  }

  lemma {:induction false} ReplaceAbsent(s: string, from: string, to: string)
    requires from != "" && exists k :: 0 <= k < |from| && from[k] !in s
    ensures Replace(s, from, to) == s
  {
    if s != "" {
      var k :| 0 <= k < |from| && from[k] !in s;
      Differs(s, 0, from, k);
      ReplaceAbsent(s[1..], from, to);
    }
  }

  lemma NoPatchInFront(b: string, i: nat)
    requires i < 15
    ensures !Stands("<< /Type /Page " + b, i, TO_PATCH)
  {
    var front := "<< /Type /Page ";
    Differs(front + b, i, TO_PATCH, if i == 3 then 1 else if i == 9 then 3 else 0);
  }

  lemma NoPInRest(font: nat, contents: nat)
    ensures 'P' !in PageRest(font, contents)
  {
    assert 'P' !in " /MediaBox [0 0 612 792]";
    assert 'P' !in " /Resources << /Font << /F1 ";
    assert 'P' !in " 0 R >> >> /Contents ";
    assert 'P' !in Digits(font) && 'P' !in Digits(contents);
  }

  /** Patching names the parent and changes nothing else of a page. */
  lemma PatchNamesParent(parent: nat, font: nat, contents: nat)
    ensures Replace(Page(0, font, contents), TO_PATCH, "/Parent " + Digits(parent) + " 0 R") ==
            Page(parent, font, contents)
  {
    var front, rest := "<< /Type /Page ", PageRest(font, contents);
    var to := "/Parent " + Digits(parent) + " 0 R";
    var tail := TO_PATCH + rest;
    PageParts(0, rest);
    PageParts(parent, rest);
    forall i | 0 <= i < |front| ensures !Stands(front + tail, i, TO_PATCH) {
      NoPatchInFront(tail, i);
    }
    ReplaceMisses(front, tail, TO_PATCH, to);
    assert tail[..|TO_PATCH|] == TO_PATCH && tail[|TO_PATCH|..] == rest;
    NoPInRest(font, contents);
    assert TO_PATCH[1] == 'P';
    ReplaceAbsent(rest, TO_PATCH, to);
  }

  lemma PageParts(parent: nat, rest: string)
    ensures "<< /Type /Page /Parent " + Digits(parent) + (" 0 R" + rest)
         == "<< /Type /Page " + (("/Parent " + Digits(parent) + " 0 R") + rest)
    ensures "/Parent " + Digits(0) + " 0 R" == TO_PATCH
  {
    assert "<< /Type /Page /Parent " == "<< /Type /Page " + "/Parent ";
    var d := Digits(parent);
    Regroup("<< /Type /Page ", "/Parent ", d);
    Regroup("<< /Type /Page ", "/Parent " + d, " 0 R" + rest);
    Regroup("/Parent " + d, " 0 R", rest);
  }

  /** Object `k + 1` is at index `k`. Every page has its stream before it. */
  predicate PagesLaid(objects: seq<string>, pages: seq<seq<string>>, from: nat, to: nat, parent: nat) {
    forall k :: from <= k < to ==> PageLaid(objects, pages, k, parent)
  }

  predicate PageLaid(objects: seq<string>, pages: seq<seq<string>>, k: nat, parent: nat) {
    && k < |pages| && 2 * k + 2 < |objects|
    && objects[2 * k + 1] == Contents(Stream(pages[k]))
    && objects[2 * k + 2] == Page(parent, 1, 2 * k + 2)
  }

  function PageIds(n: nat): (ids: seq<nat>)
    ensures |ids| == n && forall k :: 0 <= k < n ==> ids[k] == 2 * k + 3
  {
    seq(n, k requires 0 <= k => 2 * k + 3)
  }

  predicate Laid(objects: seq<string>, pages: seq<seq<string>>) {
    var n := |pages|;
    && |objects| == 2 * n + 3 && objects[0] == FONT
    && PagesLaid(objects, pages, 0, n, 2 * n + 2)
    && objects[2 * n + 1] == PageTree(PageIds(n))
    && objects[2 * n + 2] == Catalog(2 * n + 2)
  }

  lemma OnePageMore(objects: seq<string>, pages: seq<seq<string>>, k: nat, contents: string, page: string)
    requires |objects| == 2 * k + 1 && PagesLaid(objects, pages, 0, k, 0) && k < |pages|
    requires contents == Contents(Stream(pages[k])) && page == Page(0, 1, 2 * k + 2)
    ensures PagesLaid(objects + [contents] + [page], pages, 0, k + 1, 0)
  {
    forall j | 0 <= j < k + 1 ensures PageLaid(objects + [contents] + [page], pages, j, 0) {
      assert j < k ==> PageLaid(objects, pages, j, 0);
    }
  }

  lemma OneObjectMore(objects: seq<string>, pages: seq<seq<string>>, from: nat, to: nat, parent: nat, last: string)
    requires PagesLaid(objects, pages, from, to, parent)
    ensures PagesLaid(objects + [last], pages, from, to, parent)
  {
    forall k | from <= k < to ensures PageLaid(objects + [last], pages, k, parent) {
      assert PageLaid(objects, pages, k, parent);
    }
  }

  lemma LaidElsewhere(objects: seq<string>, next: seq<string>, pages: seq<seq<string>>, from: nat, to: nat, parent: nat)
    requires PagesLaid(objects, pages, from, to, parent) && |next| == |objects|
    requires forall i :: 2 * from < i <= 2 * to && i < |objects| ==> next[i] == objects[i]
    ensures PagesLaid(next, pages, from, to, parent)
  {
    forall k | from <= k < to ensures PageLaid(next, pages, k, parent) {
      assert PageLaid(objects, pages, k, parent);
    }
  }

  function Patched(page: string, parent: nat): string {
    Replace(page, TO_PATCH, "/Parent " + Digits(parent) + " 0 R")
  }

  lemma OnePatchMore(objects: seq<string>, pages: seq<seq<string>>, k: nat, parent: nat)
    requires PagesLaid(objects, pages, 0, k, parent) && PagesLaid(objects, pages, k, |pages|, 0)
    requires k < |pages| && 2 * |pages| < |objects|
    ensures var next := objects[2 * k + 2 := Patched(objects[2 * k + 2], parent)];
            PagesLaid(next, pages, 0, k + 1, parent) && PagesLaid(next, pages, k + 1, |pages|, 0)
  {
    var next := objects[2 * k + 2 := Patched(objects[2 * k + 2], parent)];
    PatchedPageLaid(objects, pages, k, parent);
    LaidElsewhere(objects, next, pages, 0, k, parent);
    LaidElsewhere(objects, next, pages, k + 1, |pages|, 0);
  }

  lemma PatchedPageLaid(objects: seq<string>, pages: seq<seq<string>>, k: nat, parent: nat)
    requires PageLaid(objects, pages, k, 0)
    ensures PageLaid(objects[2 * k + 2 := Patched(objects[2 * k + 2], parent)], pages, k, parent)
  {
    PatchNamesParent(parent, 1, 2 * k + 2);
  }

  method AddPages(pages: seq<seq<string>>) returns (objects: seq<string>, pageIds: seq<nat>)
    ensures |objects| == 2 * |pages| + 1 && objects[0] == FONT && PagesLaid(objects, pages, 0, |pages|, 0)
    ensures pageIds == PageIds(|pages|)
  {
    hide Contents, Page;
    objects := [FONT];
    var fontId := |objects|;
    pageIds := [];
    for i := 0 to |pages|
      invariant |objects| == 2 * i + 1 && objects[0] == FONT && PagesLaid(objects, pages, 0, i, 0)
      invariant pageIds == PageIds(i)
    {
      var stream := PageStream(pages[i]);
      OnePageMore(objects, pages, i, Contents(stream), Page(0, fontId, 2 * i + 2));
      objects := objects + [Contents(stream)];
      var contentId := |objects|;
      objects := objects + [Page(0, fontId, contentId)];
      pageIds := pageIds + [|objects|];
    }
  }

  method PatchParents(drafts: seq<string>, pages: seq<seq<string>>, pageIds: seq<nat>, pagesId: nat)
    returns (objects: seq<string>)
    requires 2 * |pages| < |drafts| && PagesLaid(drafts, pages, 0, |pages|, 0) && pageIds == PageIds(|pages|)
    ensures |objects| == |drafts| && PagesLaid(objects, pages, 0, |pages|, pagesId)
    ensures objects[0] == drafts[0] && objects[2 * |pages| + 1..] == drafts[2 * |pages| + 1..]
  {
    objects := drafts;
    for j := 0 to |pageIds|
      invariant |objects| == |drafts|
      invariant objects[0] == drafts[0] && objects[2 * |pages| + 1..] == drafts[2 * |pages| + 1..]
      invariant PagesLaid(objects, pages, 0, j, pagesId) && PagesLaid(objects, pages, j, |pages|, 0)
    {
      var at := pageIds[j] - 1;
      OnePatchMore(objects, pages, j, pagesId);
      objects := objects[at := Replace(objects[at], TO_PATCH, "/Parent " + Digits(pagesId) + " 0 R")];
    }
  }

  /** The objects of `make_simple_pdf`, up to the catalog. */
  method BuildObjects(lines: seq<string>) returns (objects: seq<string>, catalogId: nat)
    ensures Laid(objects, Pages(lines)) && catalogId == |objects|
  {
    var pages := SplitPages(lines);
    var pageIds;
    objects, pageIds := AddPages(pages);
    var tree := PageTree(pageIds);
    OneObjectMore(objects, pages, 0, |pages|, 0, tree);
    objects := objects + [tree];
    var pagesId := |objects|;
    objects := PatchParents(objects, pages, pageIds, pagesId);
    assert objects[2 * |pages| + 1..][0] == tree;
    var catalog := Catalog(pagesId);
    OneObjectMore(objects, pages, 0, |pages|, pagesId, catalog);
    objects := objects + [catalog];
    catalogId := |objects|;
  }

  // -------------------------------------------------------------------- file

  function Joined(chunks: seq<string>): string {
    if chunks == [] then "" else Joined(chunks[..|chunks| - 1]) + chunks[|chunks| - 1]
  }

  /** `sum(len(chunk) for chunk in chunks)` */
  function TotalLength(chunks: seq<string>): (n: nat)
    ensures n == |Joined(chunks)|
  {
    if chunks == [] then 0 else TotalLength(chunks[..|chunks| - 1]) + |chunks[|chunks| - 1]|
  }

  /** The position at which a chunk begins in the joined text. */
  function Start(chunks: seq<string>, k: nat): nat
    requires k <= |chunks|
  {
    |Joined(chunks[..k])|
  }

  function Head(id: nat): string {
    Digits(id) + " 0 obj\n"
  }

  function Wrapped(id: nat, body: string): string {
    Head(id) + body + END_OF_OBJECT
  }

  function Row(offset: nat): string {
    Padded(offset) + ROW_TAIL
  }

  function TableHead(size: nat): string {
    "xref\n0 " + Digits(size) + "\n"
  }

  function Trailer(size: nat, root: nat, xref: nat): string {
    TRAILER + Digits(size) + RootEntry(root, LastLines(xref))
  }

  function RootEntry(root: nat, last: string): string {
    " /Root " + Digits(root) + (" 0 R >>\n" + last)
  }

  function LastLines(xref: nat): string {
    "startxref\n" + (Digits(xref) + END_OF_FILE)
  }

  /** The first chunks are the header and the objects, object `id` being chunk `id`. */
  predicate BodiesIn(chunks: seq<string>, objects: seq<string>, n: nat) {
    && n <= |objects| && n < |chunks| && chunks[0] == HEADER
    && forall id :: 0 < id <= n ==> chunks[id] == Wrapped(id, objects[id - 1])
  }

  /** Behind them the head of the table, the free row, and a row for each object
      that holds the position at which that object's chunk begins. */
  predicate RowsIn(chunks: seq<string>, n: nat, m: nat) {
    && m <= n && n + 2 + m < |chunks| && chunks[n + 1] == TableHead(n + 1) && chunks[n + 2] == FREE_ROW
    && forall id :: 0 < id <= m ==> chunks[n + 2 + id] == Row(Start(chunks, id))
  }

  predicate Chunked(chunks: seq<string>, objects: seq<string>, root: nat) {
    var n := |objects|;
    && |chunks| == 2 * n + 4 && BodiesIn(chunks, objects, n) && RowsIn(chunks, n, n)
    && chunks[2 * n + 3] == Trailer(n + 1, root, Start(chunks, n + 1))
  }

  lemma StartKept(chunks: seq<string>, chunk: string)
    ensures forall k :: 0 <= k <= |chunks| ==> Start(chunks + [chunk], k) == Start(chunks, k)
  {
    forall k | 0 <= k <= |chunks| ensures Start(chunks + [chunk], k) == Start(chunks, k) {
      assert (chunks + [chunk])[..k] == chunks[..k];
    }
  }

  method WriteBodies(objects: seq<string>) returns (chunks: seq<string>, offsets: seq<nat>)
    ensures |chunks| == |objects| + 1 && BodiesIn(chunks, objects, |objects|)
    ensures |offsets| == |objects| + 1
    ensures forall id :: 0 < id <= |objects| ==> offsets[id] == Start(chunks, id)
  {
    chunks := [HEADER];
    offsets := [0];
    for idx := 0 to |objects|
      invariant |chunks| == idx + 1 && BodiesIn(chunks, objects, idx)
      invariant |offsets| == idx + 1
      invariant forall id :: 0 < id <= idx ==> offsets[id] == Start(chunks, id)
    {
      offsets := offsets + [TotalLength(chunks)];
      assert chunks[..idx + 1] == chunks;
      var chunk := Wrapped(idx + 1, objects[idx]);
      StartKept(chunks, chunk);
      chunks := chunks + [chunk];
    }
  }

  method WriteRows(bodies: seq<string>, n: nat, offsets: seq<nat>) returns (chunks: seq<string>)
    requires |bodies| == n + 1 && |offsets| == n + 1
    requires forall id :: 0 < id <= n ==> offsets[id] == Start(bodies, id)
    ensures |chunks| == 2 * n + 3 && chunks[..n + 1] == bodies && RowsIn(chunks, n, n)
  {
    StartKept(bodies, TableHead(n + 1));
    chunks := bodies + [TableHead(n + 1)];
    StartKept(chunks, FREE_ROW);
    chunks := chunks + [FREE_ROW];
    for k := 0 to n
      invariant |chunks| == n + 3 + k && chunks[..n + 1] == bodies && RowsIn(chunks, n, k)
      invariant forall id :: 0 < id <= n ==> offsets[id] == Start(chunks, id)
    {
      var row := Row(offsets[k + 1]);
      StartKept(chunks, row);
      chunks := chunks + [row];
    }
  }

  /** The file writer of `make_simple_pdf`, before the chunks are joined. */
  method WriteChunks(objects: seq<string>, catalogId: nat) returns (chunks: seq<string>)
    ensures Chunked(chunks, objects, catalogId)
  {
    var bodies, offsets := WriteBodies(objects);
    var n := |objects|;
    var xrefOffset := TotalLength(bodies);
    var table := WriteRows(bodies, n, offsets);
    assert table[..n + 1] == bodies;
    var trailer := Trailer(n + 1, catalogId, xrefOffset);
    StartKept(table, trailer);
    chunks := table + [trailer];
    assert Start(chunks, n + 1) == Start(table, n + 1) == xrefOffset;
    assert forall id :: 0 <= id <= n ==> chunks[id] == bodies[id];
  }
}
