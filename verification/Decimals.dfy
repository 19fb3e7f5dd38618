/** Decimal numerals: writing them, zero-filling them, and reading them back. */
module Decimals {
  import opened Outcomes
  import opened Text

  predicate Digit(c: char) {
    '0' <= c <= '9'
  }

  function Digits(n: nat): (s: string)
    ensures s != [] && forall i :: 0 <= i < |s| ==> Digit(s[i])
    decreases n
  {
    (if n < 10 then [] else Digits(n / 10)) + [(n % 10) as char + '0']
  }

  function Zeros(n: nat): (s: string)
    ensures |s| == n && forall i :: 0 <= i < n ==> s[i] == '0'
  {
    seq(n, i => '0')
  }

  /** `f"{n:010d}"`. */
  function Padded(n: nat): (s: string)
    ensures forall i :: 0 <= i < |s| ==> Digit(s[i])
  {
    var d := Digits(n);
    Zeros(if |d| < 10 then 10 - |d| else 0) + d
  }

  /** The number whose digits stand between two positions. */
  function Value(text: string, p: nat, q: nat): nat
    requires p <= q <= |text| && forall i :: p <= i < q ==> Digit(text[i])
  {
    if p == q then 0
    else
      var last := text[q - 1];
      assert Digit(last);
      Value(text, p, q - 1) * 10 + (last - '0') as nat
  }

  lemma {:induction false} DigitsReadBack(text: string, p: nat, z: nat, n: nat)
    requires Stands(text, p, Zeros(z) + Digits(n))
    ensures var q := p + z + |Digits(n)|;
            (forall i :: p <= i < q ==> Digit(text[i])) && Value(text, p, q) == n
    decreases n, z
  {
    var s := Zeros(z) + Digits(n);
    assert |s| == z + |Digits(n)|;
    forall i | p <= i < p + |s| ensures Digit(text[i]) {
      assert s[i - p] == text[p + (i - p)] && Digit(s[i - p]);
    }
    var last := |s| - 1;
    assert s[last] == text[p + last] == (n % 10) as char + '0';
    if n >= 10 {
      assert s == Zeros(z) + Digits(n / 10) + s[last..];
      StandsSplit(text, p, Zeros(z) + Digits(n / 10), s[last..]);
      DigitsReadBack(text, p, z, n / 10);
    } else {
      StandsSplit(text, p, Zeros(z), Digits(n));
      ZerosReadBack(text, p, z);
    }
  }

  lemma {:induction false} ZerosReadBack(text: string, p: nat, z: nat)
    requires Stands(text, p, Zeros(z))
    ensures (forall i :: p <= i < p + z ==> Digit(text[i])) && Value(text, p, p + z) == 0
  {
    forall i | p <= i < p + z ensures text[i] == '0' {
      assert Zeros(z)[i - p] == text[i];
    }
    if z > 0 {
      ZerosReadBack(text, p, z - 1);
    }
  }

  function Power(w: nat): nat {
    if w == 0 then 1 else 10 * Power(w - 1)
  }

  lemma {:induction false} Width(n: nat, w: nat)
    requires w > 0
    ensures |Digits(n)| <= w <==> n < Power(w)
    decreases w
  {
    if w > 1 {
      Width(n / 10, w - 1);
    }
  }

  /** A zero-filled numeral is ten characters wide exactly below ten thousand
      million, and then those ten characters are read back as the number. */
  lemma PaddedReadsBack(text: string, p: nat, n: nat)
    requires Stands(text, p, Padded(n))
    ensures |Padded(n)| == 10 <==> n < 10_000_000_000
    ensures n < 10_000_000_000 ==>
      p + 10 <= |text| && (forall i :: p <= i < p + 10 ==> Digit(text[i])) && Value(text, p, p + 10) == n
  {
    DigitsReadBack(text, p, if |Digits(n)| < 10 then 10 - |Digits(n)| else 0, n);
    Width(n, 10);
    assert Power(10) == 10_000_000_000 by {
      assert Power(5) == 100_000;
      assert Power(8) == 100_000_000;
    }
  }

  // -------------------------------------------------------- reading positions

  function Literal(text: string, p: nat, piece: string): Option<nat> {
    if Stands(text, p, piece) then Some(p + |piece|) else None
  }

  /** Where the digits that begin at a position end. */
  function DigitsEnd(text: string, p: nat): (q: nat)
    requires p <= |text|
    ensures p <= q <= |text| && forall i :: p <= i < q ==> Digit(text[i])
    ensures q < |text| ==> !Digit(text[q])
    decreases |text| - p
  {
    if p < |text| && Digit(text[p]) then DigitsEnd(text, p + 1) else p
  }

  /** A number and the position behind it. */
  function Number(text: string, p: nat): Option<(nat, nat)> {
    if p >= |text| || !Digit(text[p]) then None
    else
      var q := DigitsEnd(text, p);
      Some((Value(text, p, q), q))
  }

  /** A number behind a fixed piece of text. */
  function Field(text: string, p: nat, piece: string): Option<(nat, nat)> {
    var q :- Literal(text, p, piece);
    Number(text, q)
  }

  lemma NumberReadsBack(text: string, p: nat, n: nat, rest: string)
    requires Stands(text, p, Digits(n) + rest) && rest != [] && !Digit(rest[0])
    ensures var q := p + |Digits(n)|;
            Number(text, p) == Some((n, q)) && Stands(text, q, rest)
  {
    StandsSplit(text, p, Digits(n), rest);
    assert Zeros(0) + Digits(n) == Digits(n);
    DigitsReadBack(text, p, 0, n);
    assert rest[0] == text[p + |Digits(n)| + 0];
  }

  /** A written field is read back, and reading goes on right behind it. */
  lemma FieldReadsBack(text: string, p: nat, piece: string, n: nat, rest: string)
    requires Stands(text, p, piece + Digits(n) + rest) && rest != [] && !Digit(rest[0])
    ensures var q := p + |piece| + |Digits(n)|;
            Field(text, p, piece) == Some((n, q)) && Stands(text, q, rest)
  {
    Regroup(piece, Digits(n), rest);
    StandsSplit(text, p, piece, Digits(n) + rest);
    NumberReadsBack(text, p + |piece|, n, rest);
  }
}
