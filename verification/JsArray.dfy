/** The bracket scanner that cuts a JavaScript array out of a page. */
module JsArray {
  import opened Outcomes
  import opened Text

  /** Where the scanner is with respect to string literals. */
  datatype Mode = Outside | Inside | Escaped

  function Next(mode: Mode, c: char): Mode {
    match mode
    case Outside => if c == '"' then Inside else Outside
    case Inside => if c == '\\' then Escaped else if c == '"' then Outside else Inside
    case Escaped => Inside
  }

  function ModeAt(text: string, start: nat, i: nat): Mode
    requires start <= i <= |text|
  {
    if i == start then Outside else Next(ModeAt(text, start, i - 1), text[i - 1])
  }

  /** Opening less closing brackets outside string literals, up to a position. */
  function Balance(text: string, start: nat, i: nat): int
    requires start <= i <= |text|
  {
    if i == start then 0
    else
      Balance(text, start, i - 1) +
      (if ModeAt(text, start, i - 1) != Outside then 0
       else if text[i - 1] == '[' then 1 else if text[i - 1] == ']' then -1 else 0)
  }

  /** A closing bracket outside strings that evens out all brackets before it. */
  predicate Closes(text: string, start: nat, i: nat) {
    start <= i < |text| && ModeAt(text, start, i) == Outside && text[i] == ']' && Balance(text, start, i + 1) == 0
  }

  predicate FirstClosing(text: string, start: nat, i: nat) {
    Closes(text, start, i) && forall j :: start <= j < i ==> !Closes(text, start, j)
  }

  /** `find_js_array_end`: just past the first bracket that closes, if any does. */
  method FindArrayEnd(text: string, start: nat) returns (end: Option<nat>)
    ensures forall i: nat :: end == Some(i + 1) <==> FirstClosing(text, start, i)
    ensures end.None? <==> forall i: nat :: !Closes(text, start, i)
    ensures end != Some(0)
  {
    var depth: int, inString, escaped := 0, false, false;
    var i := start;
    while i < |text|
      invariant start <= i && (i <= |text| || i == start)
      invariant i <= |text| ==>
        && depth == Balance(text, start, i)
        && ModeAt(text, start, i) == (if inString then if escaped then Escaped else Inside else Outside)
        && (escaped ==> inString)
      invariant forall j: nat :: j < i ==> !Closes(text, start, j)
      decreases |text| - i
    {
      var c := text[i];
      i := i + 1;
      if inString {
        if escaped {
          escaped := false;
        } else if c == '\\' {
          escaped := true;
        } else if c == '"' {
          inString := false;
        }
        continue;
      }
      if c == '"' {
        inString := true;
      } else if c == '[' {
        depth := depth + 1;
      } else if c == ']' {
        depth := depth - 1;
        if depth == 0 {
          assert FirstClosing(text, start, i - 1);
          return Some(i);
        }
      }
    }
    end := None;
  }

  // ---------------------------------------------------------- printed arrays

  datatype Char = Plain(c: char) | Escape(c: char)

  /** Arrays of strings, of bracket-free atoms, and of arrays. */
  datatype Js = Atom(text: string) | Str(chars: seq<Char>) | Arr(items: seq<Js>)

  predicate CharOk(c: Char) {
    c.Plain? ==> c.c != '"' && c.c != '\\'
  }

  predicate Ok(v: Js)
    decreases v, 1
  {
    match v
    case Atom(text) => forall i :: 0 <= i < |text| ==> text[i] !in {'"', '[', ']'}
    case Str(chars) => forall i :: 0 <= i < |chars| ==> CharOk(chars[i])
    case Arr(items) => AllOk(items)
  }

  predicate AllOk(items: seq<Js>)
    decreases items, 0
  {
    items == [] || (Ok(items[0]) && AllOk(items[1..]))
  }

  function PrintChars(chars: seq<Char>): string {
    if chars == [] then ""
    else (if chars[0].Escape? then ['\\', chars[0].c] else [chars[0].c]) + PrintChars(chars[1..])
  }

  function Print(v: Js): string
    decreases v, 1
  {
    match v
    case Atom(text) => text
    case Str(chars) => ['"'] + PrintChars(chars) + ['"']
    case Arr(items) => ['['] + PrintItems(items) + [']']
  }

  function PrintItems(items: seq<Js>): string
    decreases items, 0
  {
    if items == [] then ""
    else if |items| == 1 then Print(items[0])
    else Print(items[0]) + [','] + PrintItems(items[1..])
  }

  /** Between two positions nothing closes, and scanning ends as it began. */
  predicate Neutral(text: string, start: nat, p: nat, q: nat) {
    && start <= p <= q <= |text|
    && ModeAt(text, start, q) == Outside
    && Balance(text, start, q) == Balance(text, start, p)
    && forall i :: p <= i < q ==> !Closes(text, start, i)
  }

  lemma NeutralChain(text: string, start: nat, p: nat, q: nat, r: nat)
    requires Neutral(text, start, p, q) && Neutral(text, start, q, r)
    ensures Neutral(text, start, p, r)
  {
  }

  /** Inside a string literal neither brackets nor anything else counts. */
  lemma {:induction false} ScanChars(text: string, start: nat, p: nat, chars: seq<Char>)
    requires start <= p && Stands(text, p, PrintChars(chars)) && ModeAt(text, start, p) == Inside
    requires forall i :: 0 <= i < |chars| ==> CharOk(chars[i])
    ensures var q := p + |PrintChars(chars)|;
            && ModeAt(text, start, q) == Inside && Balance(text, start, q) == Balance(text, start, p)
            && forall i :: p <= i < q ==> !Closes(text, start, i)
    decreases chars
  {
    if chars != [] {
      var head := if chars[0].Escape? then ['\\', chars[0].c] else [chars[0].c];
      StandsSplit(text, p, head, PrintChars(chars[1..]));
      StandsFirst(text, p, head);
      assert chars[0].Escape? ==> head[1] == text[p + 1];
      if chars[0].Escape? {
        assert ModeAt(text, start, p + 1) == Escaped;
      }
      ScanChars(text, start, p + |head|, chars[1..]);
    }
  }

  lemma {:induction false} ScanAtom(text: string, start: nat, p: nat, atom: string)
    requires start <= p && Stands(text, p, atom) && ModeAt(text, start, p) == Outside
    requires forall i :: 0 <= i < |atom| ==> atom[i] !in {'"', '[', ']'}
    ensures Neutral(text, start, p, p + |atom|)
    decreases atom
  {
    if atom != [] {
      assert atom == [atom[0]] + atom[1..];
      StandsSplit(text, p, [atom[0]], atom[1..]);
      StandsFirst(text, p, [atom[0]]);
      ScanAtom(text, start, p + 1, atom[1..]);
    }
  }

  lemma ScanStr(text: string, start: nat, p: nat, chars: seq<Char>)
    requires start <= p && Stands(text, p, ['"'] + PrintChars(chars) + ['"']) && ModeAt(text, start, p) == Outside
    requires forall i :: 0 <= i < |chars| ==> CharOk(chars[i])
    ensures Neutral(text, start, p, p + |PrintChars(chars)| + 2)
  {
    var body := PrintChars(chars);
    StandsSplit(text, p, ['"'] + body, ['"']);
    StandsSplit(text, p, ['"'], body);
    StandsFirst(text, p, ['"']);
    assert ModeAt(text, start, p + 1) == Inside && Balance(text, start, p + 1) == Balance(text, start, p);
    ScanChars(text, start, p + 1, chars);
    var q := p + 1 + |body|;
    StandsFirst(text, q, ['"']);
    assert ModeAt(text, start, q + 1) == Outside && Balance(text, start, q + 1) == Balance(text, start, q);
  }

  /** A printed value inside an open bracket is passed over. */
  lemma {:induction false} ScanValue(text: string, start: nat, p: nat, v: Js)
    requires start <= p && Stands(text, p, Print(v)) && Ok(v)
    requires ModeAt(text, start, p) == Outside && Balance(text, start, p) >= 1
    ensures Neutral(text, start, p, p + |Print(v)|)
    decreases v, 1
  {
    match v
    case Atom(atom) =>
      ScanAtom(text, start, p, atom);
    case Str(chars) =>
      ScanStr(text, start, p, chars);
    case Arr(items) =>
      ScanArray(text, start, p, items);
      var q := p + 1 + |PrintItems(items)|;
      assert text[q] == ']' && Balance(text, start, q + 1) == Balance(text, start, p);
  }

  /** The inside of an array, from its opening bracket up to its closing one. */
  lemma {:induction false} ScanArray(text: string, start: nat, p: nat, items: seq<Js>)
    requires start <= p && Stands(text, p, ['['] + PrintItems(items) + [']']) && AllOk(items)
    requires ModeAt(text, start, p) == Outside && Balance(text, start, p) >= 0
    ensures var q := p + 1 + |PrintItems(items)|;
            && q < |text| && text[q] == ']' && text[p] == '['
            && ModeAt(text, start, q) == Outside && Balance(text, start, q) == Balance(text, start, p) + 1
            && forall i :: p <= i < q ==> !Closes(text, start, i)
    decreases items, 1
  {
    var body := PrintItems(items);
    StandsSplit(text, p, ['['] + body, [']']);
    StandsSplit(text, p, ['['], body);
    StandsFirst(text, p, ['[']);
    ScanItems(text, start, p + 1, items);
    var q := p + 1 + |body|;
    StandsFirst(text, q, [']']);
  }

  lemma {:induction false} ScanItems(text: string, start: nat, p: nat, items: seq<Js>)
    requires start <= p && Stands(text, p, PrintItems(items)) && AllOk(items)
    requires ModeAt(text, start, p) == Outside && Balance(text, start, p) >= 1
    ensures Neutral(text, start, p, p + |PrintItems(items)|)
    decreases items, 0
  {
    if items == [] {
    } else if |items| == 1 {
      ScanValue(text, start, p, items[0]);
    } else {
      var head, tail := Print(items[0]), PrintItems(items[1..]);
      StandsSplit(text, p, head + [','], tail);
      StandsSplit(text, p, head, [',']);
      ScanValue(text, start, p, items[0]);
      var q := p + |head|;
      ScanAtom(text, start, q, [',']);
      ScanItems(text, start, q + 1, items[1..]);
      NeutralChain(text, start, p, q, q + 1);
      NeutralChain(text, start, p, q + 1, q + 1 + |tail|);
    }
  }

  /** Scanning inverts printing: whatever surrounds a printed array, the scanner
      started at its bracket stops exactly at its end. */
  lemma PrintedArrayIsFound(prefix: string, items: seq<Js>, suffix: string)
    requires AllOk(items)
    ensures var printed := Print(Arr(items));
            FirstClosing(prefix + printed + suffix, |prefix|, |prefix| + |printed| - 1)
  {
    var printed := Print(Arr(items));
    var text := prefix + printed + suffix;
    assert forall i :: 0 <= i < |printed| ==> printed[i] == text[|prefix| + i];
    ScanArray(text, |prefix|, |prefix|, items);
  }
}
