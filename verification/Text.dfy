/** The few string operations of Python that the models need, on ASCII text. */
module Text {

  function Lower(s: string): string {
    seq(|s|, i requires 0 <= i < |s| => if 'A' <= s[i] <= 'Z' then s[i] - 'A' + 'a' else s[i])
  }

  /** The word, itself in small letters, written in letters of either case. */
  predicate Spells(text: string, word: string) {
    |text| == |word| &&
    forall i :: 0 <= i < |word| ==>
      text[i] == word[i] || ('a' <= word[i] <= 'z' && text[i] as int + 32 == word[i] as int)
  }

  predicate Small(word: string) {
    forall i :: 0 <= i < |word| ==> !('A' <= word[i] <= 'Z')
  }

  lemma LowerSpells(text: string, word: string)
    requires Small(word)
    ensures Lower(text) == word <==> Spells(text, word)
  {
    if Spells(text, word) {
      assert forall i :: 0 <= i < |word| ==> Lower(text)[i] == word[i];
    }
    if Lower(text) == word {
      assert forall i :: 0 <= i < |word| ==> Lower(text)[i] == word[i];
    }
  }

  lemma LowerIsSmall(text: string)
    ensures Small(Lower(text))
  {
    forall i | 0 <= i < |text| ensures !('A' <= Lower(text)[i] <= 'Z') {
      assert 'A' <= text[i] <= 'Z' ==> Lower(text)[i] as int == text[i] as int + 32;
    }
  }

  /** What `str.strip` takes off: the blank, tab to carriage return, and the four separators. */
  predicate Space(c: char) {
    c == ' ' || 9 <= c as int <= 13 || 28 <= c as int <= 31
  }

  lemma SpacesAre(c: char)
    ensures Space(c) <==>
              || c == ' ' || c == '\t' || c == '\n' || c == '\r' || c == 11 as char || c == 12 as char
              || c == 28 as char || c == 29 as char || c == 30 as char || c == 31 as char
  {
    assert 32 as char == ' ' && 9 as char == '\t' && 10 as char == '\n' && 13 as char == '\r';
    if Space(c) {
      var n := c as int;
      assert c == n as char;
    }
  }

  function StripLeft(s: string): (r: string)
    ensures r != [] ==> !Space(r[0])
  {
    if s != [] && Space(s[0]) then StripLeft(s[1..]) else s
  }

  function StripRight(s: string): (r: string)
    ensures r != [] ==> !Space(r[|r| - 1]) && s != [] && r[0] == s[0]
  {
    if s != [] && Space(s[|s| - 1]) then StripRight(s[..|s| - 1]) else s
  }

  function Strip(s: string): (r: string)
    ensures r != [] ==> !Space(r[0]) && !Space(r[|r| - 1])
  {
    StripRight(StripLeft(s))
  }

  lemma StripKeeps(s: string)
    requires s != [] ==> !Space(s[0]) && !Space(s[|s| - 1])
    ensures Strip(s) == s
  {
  }

  /** The text without the blanks around it, and nothing else taken off. */
  predicate Trimmed(s: string, t: string) {
    && (exists i, j :: 0 <= i <= j <= |s| && t == s[i..j] && AllSpace(s[..i]) && AllSpace(s[j..]))
    && (t != "" ==> !Space(t[0]) && !Space(t[|t| - 1]))
  }

  predicate AllSpace(s: string) {
    forall i :: 0 <= i < |s| ==> Space(s[i])
  }

  lemma {:induction false} StripLeftDrops(s: string) returns (i: nat)
    ensures i <= |s| && StripLeft(s) == s[i..] && AllSpace(s[..i])
  {
    if s != [] && Space(s[0]) {
      i := StripLeftDrops(s[1..]);
      assert s[1..][i..] == s[i + 1..];
      assert s[..i + 1] == [s[0]] + s[1..][..i];
      i := i + 1;
    } else {
      i := 0;
    }
  }

  lemma {:induction false} StripRightDrops(s: string) returns (j: nat)
    ensures j <= |s| && StripRight(s) == s[..j] && AllSpace(s[j..])
  {
    if s != [] && Space(s[|s| - 1]) {
      var front := s[..|s| - 1];
      j := StripRightDrops(front);
      assert front[..j] == s[..j];
      assert forall k :: 0 <= k < |s| - 1 - j ==> s[j..][k] == front[j..][k];
    } else {
      j := |s|;
    }
  }

  lemma AllSpaceConcat(a: string, b: string)
    requires AllSpace(a) && AllSpace(b)
    ensures AllSpace(a + b)
  {
  }

  lemma StripTrims(s: string)
    ensures Trimmed(s, Strip(s))
    ensures Strip(s) == "" <==> AllSpace(s)
  {
    var i := StripLeftDrops(s);
    var j := StripRightDrops(StripLeft(s));
    assert s[i..][..j] == s[i..i + j] && s[i..][j..] == s[i + j..];
    assert Strip(s) != "" ==> Strip(s)[0] == s[i];
    if Strip(s) == "" {
      AllSpaceConcat(s[..i], s[i..]);
      assert s == s[..i] + s[i..];
    }
  }

  /** What is no blank stands between the blanks. */
  lemma InsideNonBlank(s: string, i: nat, j: nat, p: nat)
    requires i <= j <= |s| && AllSpace(s[..i]) && AllSpace(s[j..]) && p < |s| && !Space(s[p])
    ensures i <= p < j
  {
    if p < i || j <= p {
      BlankOutside(s, i, j, p);
    }
  }

  lemma BlankOutside(s: string, i: nat, j: nat, p: nat)
    requires i <= j <= |s| && AllSpace(s[..i]) && AllSpace(s[j..]) && p < |s| && (p < i || j <= p)
    ensures Space(s[p])
  {
    if p < i {
      assert s[..i][p] == s[p];
    } else {
      assert s[j..][p - j] == s[p];
    }
  }

  /** The part between the blanks that neither begins nor ends with one. */
  predicate Core(s: string, i: nat, j: nat) {
    && i <= j <= |s| && AllSpace(s[..i]) && AllSpace(s[j..])
    && (i < j ==> !Space(s[i]) && !Space(s[j - 1]))
  }

  lemma OneCore(s: string, i: nat, j: nat, k: nat, l: nat)
    requires Core(s, i, j) && Core(s, k, l)
    ensures s[i..j] == s[k..l]
  {
    hide Space;
    if i < j {
      InsideNonBlank(s, k, l, i);
      InsideNonBlank(s, k, l, j - 1);
    }
    if k < l {
      InsideNonBlank(s, i, j, k);
      InsideNonBlank(s, i, j, l - 1);
    }
  }

  lemma TrimmedCore(s: string, t: string) returns (i: nat, j: nat)
    requires Trimmed(s, t)
    ensures Core(s, i, j) && t == s[i..j]
  {
    i, j :| 0 <= i <= j <= |s| && t == s[i..j] && AllSpace(s[..i]) && AllSpace(s[j..]);
    if i < j {
      assert t[0] == s[i] && t[|t| - 1] == s[j - 1];
    }
  }

  /** There is only one way to trim a text. */
  lemma TrimmedUnique(s: string, t: string, u: string)
    requires Trimmed(s, t) && Trimmed(s, u)
    ensures t == u
  {
    var i, j := TrimmedCore(s, t);
    var k, l := TrimmedCore(s, u);
    OneCore(s, i, j, k, l);
  }

  /** The piece stands in the text at a position. */
  predicate Stands(text: string, p: nat, piece: string) {
    p + |piece| <= |text| && forall i :: 0 <= i < |piece| ==> piece[i] == text[p + i]
  }

  lemma StandsMeans(text: string, p: nat, piece: string)
    ensures Stands(text, p, piece) <==> p + |piece| <= |text| && text[p..p + |piece|] == piece
  {
    if p + |piece| <= |text| && text[p..p + |piece|] == piece {
      assert forall i :: 0 <= i < |piece| ==> piece[i] == text[p..p + |piece|][i];
    }
  }

  lemma StandsFirst(text: string, p: nat, piece: string)
    requires Stands(text, p, piece) && piece != ""
    ensures p < |text| && text[p] == piece[0]
  {
    assert piece[0] == text[p + 0];
  }

  lemma StandsSplit(text: string, p: nat, a: string, b: string)
    requires Stands(text, p, a + b)
    ensures Stands(text, p, a) && Stands(text, p + |a|, b)
  {
    forall i | 0 <= i < |a| ensures a[i] == text[p + i] {
      assert (a + b)[i] == a[i];
    }
    forall i | 0 <= i < |b| ensures b[i] == text[p + |a| + i] {
      assert (a + b)[|a| + i] == b[i];
    }
  }

  lemma Regroup(a: string, b: string, c: string)
    ensures a + b + c == a + (b + c)
  {
  }

  /** A commit id in full: forty lower-case hexadecimal digits. */
  predicate ShaOk(sha: string) {
    |sha| == 40 && forall c :: c in sha ==> '0' <= c <= '9' || 'a' <= c <= 'f'
  }

  predicate HexDigit(c: char) {
    c in "0123456789abcdef"
  }

  lemma DigitIff(c: char)
    ensures HexDigit(c) <==> '0' <= c <= '9' || 'a' <= c <= 'f'
  {
    var digits := "0123456789abcdef";
    if '0' <= c <= '9' {
      assert digits[c as int - '0' as int] == c;
    }
    if 'a' <= c <= 'f' {
      assert digits[c as int - 'a' as int + 10] == c;
    }
  }

  lemma ShaOkIff(sha: string)
    ensures ShaOk(sha) <==> |sha| == 40 && forall i :: 0 <= i < 40 ==> HexDigit(sha[i])
  {
    hide HexDigit;
    forall c ensures HexDigit(c) <==> '0' <= c <= '9' || 'a' <= c <= 'f' {
      DigitIff(c);
    }
    if ShaOk(sha) {
      assert forall i :: 0 <= i < 40 ==> sha[i] in sha;
    }
    if |sha| == 40 && forall i :: 0 <= i < 40 ==> HexDigit(sha[i]) {
      forall c | c in sha ensures '0' <= c <= '9' || 'a' <= c <= 'f' {
        var i :| 0 <= i < 40 && sha[i] == c;
      }
    }
  }
}
