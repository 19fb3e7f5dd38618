/** A reader of the simplest PDF files: ISO 32000-1, sections 7.3.4.2 (literal
    strings), 7.3.8 (streams), 7.5.4 (cross-reference table), 7.5.5 (trailer),
    7.7.2 and 7.7.3 (catalog and page tree), as far as a file of one text per
    page needs them. It knows nothing of how the file was written. */
module PdfReader {
  import opened Outcomes
  import opened Text
  import opened Decimals

  const END_OF_FILE := "\n%%EOF\n"
  const END_OF_OBJECT := "\nendobj\n"
  const TRAILER := "trailer\n<< /Size "
  const PAGE := "<< /Type /Page /Parent "
  const TREE := "<< /Type /Pages /Kids ["
  const FREE_ROW := "0000000000 65535 f \n"
  const ROW_TAIL := " 00000 n \n"

  /** Where the digits that end at a position begin. */
  function DigitsStart(text: string, e: nat): (b: nat)
    requires e <= |text|
    ensures b <= e && (forall i :: b <= i < e ==> Digit(text[i])) && (b > 0 ==> !Digit(text[b - 1]))
  {
    if e > 0 && Digit(text[e - 1]) then DigitsStart(text, e - 1) else e
  }

  /** The position of the cross-reference table, found from the end of the file. */
  function StartXref(text: string): Option<nat> {
    if |text| < |END_OF_FILE| then None
    else
      var e := |text| - |END_OF_FILE|;
      var b := DigitsStart(text, e);
      if Stands(text, e, END_OF_FILE) && b < e && b >= 10 && Stands(text, b - 10, "startxref\n")
      then Some(Value(text, b, e)) else None
  }

  /** An opened file: its first table row, its number of rows and its root object. */
  datatype File = File(text: string, rows: nat, size: nat, root: nat)

  /** The size of the table and where its first row begins. */
  function Table(text: string, x: nat): Option<(nat, nat)> {
    var (size, p) :- Field(text, x, "xref\n0 ");
    var rows :- Literal(text, p, "\n");
    var free :- Literal(text, rows, FREE_ROW);
    Some((size, rows))
  }

  /** The size and the root that the trailer names. */
  function TrailerEntries(text: string, t: nat): Option<(nat, nat)> {
    var (size, p) :- Field(text, t, TRAILER);
    var (root, q) :- Field(text, p, " /Root ");
    var end :- Literal(text, q, " 0 R >>\n");
    Some((size, root))
  }

  function Open(text: string): Option<File> {
    var x :- StartXref(text);
    OpenAt(text, x)
  }

  function OpenAt(text: string, x: nat): Option<File> {
    var (size, rows) :- Table(text, x);
    var (declared, root) :- TrailerEntries(text, rows + 20 * size);
    if declared == size then Some(File(text, rows, size, root)) else None
  }

  /** Where an object's body begins, by its row of the table. */
  function ObjectAt(f: File, id: nat): Option<nat> {
    var row := f.rows + 20 * id;
    if !(0 < id < f.size && row + 20 <= |f.text|) then None
    else
      if (forall i :: row <= i < row + 10 ==> Digit(f.text[i])) && Stands(f.text, row + 10, ROW_TAIL)
      then Literal(f.text, Value(f.text, row, row + 10), Digits(id) + " 0 obj\n") else None
  }

  function CatalogAt(text: string, p: nat): Option<nat> {
    var (pages, q) :- Field(text, p, "<< /Type /Catalog /Pages ");
    var r :- Literal(text, q, " 0 R >>");
    var end :- Literal(text, r, END_OF_OBJECT);
    Some(pages)
  }

  /** References `a 0 R b 0 R ...` up to the closing bracket. */
  function References(text: string, p: nat): Option<(seq<nat>, nat)>
    decreases |text| - p
  {
    var (id, q) :- Number(text, p);
    var r :- Literal(text, q, " 0 R");
    if r < |text| && text[r] == ' ' then
      var (ids, end) :- References(text, r + 1);
      Some(([id] + ids, end))
    else
      Some(([id], r))
  }

  function PagesAt(text: string, p: nat): Option<seq<nat>> {
    var q :- Literal(text, p, TREE);
    var (kids, r) :- References(text, q);
    var (count, s) :- Field(text, r, "] /Count ");
    var t :- Literal(text, s, " >>");
    var end :- Literal(text, t, END_OF_OBJECT);
    if count == |kids| then Some(kids) else None
  }

  /** The content stream of a page, which its entries end with. */
  function PageContents(text: string, p: nat): Option<nat> {
    var resources :- Literal(text, p, " /MediaBox [0 0 612 792]");
    var (font, q) :- Field(text, resources, " /Resources << /Font << /F1 ");
    var (contents, r) :- Field(text, q, " 0 R >> >> /Contents ");
    var s :- Literal(text, r, " 0 R >>");
    var end :- Literal(text, s, END_OF_OBJECT);
    Some(contents)
  }

  /** The parent and the content stream of a page. */
  function PageAt(text: string, p: nat): Option<(nat, nat)> {
    var (parent, q) :- Field(text, p, PAGE);
    var r :- Literal(text, q, " 0 R");
    var contents :- PageContents(text, r);
    Some((parent, contents))
  }

  /** The bytes of a stream, as many as its Length says. */
  function StreamAt(text: string, p: nat): Option<string> {
    var (length, q) :- Field(text, p, "<< /Length ");
    var r :- Literal(text, q, " >>\nstream\n");
    if r + length > |text| then None
    else
      var t :- Literal(text, r + length, "\nendstream");
      var end :- Literal(text, t, END_OF_OBJECT);
      Some(text[r..r + length])
  }

  function Escaped(c: char): char {
    match c
    case 'n' => '\n'
    case 'r' => '\r'
    case 't' => '\t'
    case 'b' => 8 as char
    case 'f' => 12 as char
    case _ => c
  }

  /** The rest of a literal string inside so many balanced parentheses, and what
      follows it. An end of line, written in any of the three ways, is one line feed,
      and none behind a backslash. */
  function StringRest(s: string, depth: nat): (r: (string, string))
    ensures |r.1| <= |s|
  {
    if s == "" then ("", "")
    else if s[0] == '\\' && |s| > 1 then
      if s[1] == '\n' || s[1] == '\r' then StringRest(s[1 + EndOfLine(s[1..])..], depth)
      else
        var (rest, after) := StringRest(s[2..], depth);
        ([Escaped(s[1])] + rest, after)
    else if s[0] == '\r' then
      var (rest, after) := StringRest(s[EndOfLine(s)..], depth);
      (['\n'] + rest, after)
    else if s[0] == ')' && depth == 0 then ("", s[1..])
    else
      var inner := if s[0] == '(' then depth + 1 else if s[0] == ')' then depth - 1 else depth;
      var (rest, after) := StringRest(s[1..], inner);
      ([s[0]] + rest, after)
  }

  /** How long the end of line is that a text begins with. */
  function EndOfLine(s: string): (n: nat)
    requires s != ""
    ensures 1 <= n <= |s|
  {
    if |s| > 1 && s[0] == '\r' && s[1] == '\n' then 2 else 1
  }

  /** The strings a content stream shows, in order. */
  function Shown(s: string): seq<string>
    decreases |s|
  {
    if s == "" then []
    else if s[0] == '(' then
      var (line, after) := StringRest(s[1..], 0);
      [line] + Shown(after)
    else
      Shown(s[1..])
  }

  function ReadPage(f: File, pages: nat, id: nat): Option<seq<string>> {
    var p :- ObjectAt(f, id);
    var (parent, contents) :- PageAt(f.text, p);
    var q :- ObjectAt(f, contents);
    var stream :- StreamAt(f.text, q);
    if parent == pages then Some(Shown(stream)) else None
  }

  function PageReader(f: File, pages: nat): nat -> Option<seq<string>> {
    (id: nat) => ReadPage(f, pages, id)
  }

  function ReadAll(ids: seq<nat>, read: nat -> Option<seq<string>>): Option<seq<seq<string>>> {
    if ids == [] then Some([])
    else
      var first :- read(ids[0]);
      var rest :- ReadAll(ids[1..], read);
      Some([first] + rest)
  }

  /** The lines of every page of a file, in the order of its page tree. */
  function ReadPdf(text: string): Option<seq<seq<string>>> {
    var f :- Open(text);
    var c :- ObjectAt(f, f.root);
    var pages :- CatalogAt(text, c);
    var p :- ObjectAt(f, pages);
    var kids :- PagesAt(text, p);
    ReadAll(kids, PageReader(f, pages))
  }
}
