/** The command-line specifications of the scan: images and their origins. */
module ImageSpecs {
  import opened Outcomes

  /** `text.split(at, 1)`: what stands before and behind the first separator. */
  function Cut(text: string, at: char): (r: Option<(string, string)>)
    ensures r.None? <==> at !in text
    ensures r.Some? ==> text == r.value.0 + [at] + r.value.1 && at !in r.value.0
  {
    if text == "" then None
    else if text[0] == at then Some(("", text[1..]))
    else
      var rest :- Cut(text[1..], at);
      Some(([text[0]] + rest.0, rest.1))
  }

  /** `text.split(at)` */
  function Split(text: string, at: char): (parts: seq<string>)
    ensures parts != [] && (|parts| == 1 <==> at !in text)
    decreases |text|
  {
    var cut := Cut(text, at);
    if cut.None? then [text] else [cut.value.0] + Split(cut.value.1, at)
  }

  /** `label=reference`, neither of them empty. */
  predicate SpecOk(text: string) {
    var cut := Cut(text, '=');
    cut.Some? && cut.value.0 != "" && cut.value.1 != ""
  }

  /** `label=image|id|layers`, none of them empty. */
  predicate OriginOk(text: string) {
    var cut := Cut(text, '=');
    cut.Some? && cut.value.0 != "" &&
    var parts := Split(cut.value.1, '|');
    |parts| == 3 && forall i :: 0 <= i < |parts| ==> parts[i] != ""
  }

  /** The first separator at this position. */
  predicate FirstAt(text: string, at: char, i: nat) {
    i < |text| && text[i] == at && forall j :: 0 <= j < i ==> text[j] != at
  }

  lemma CutAt(text: string, at: char, i: nat)
    requires FirstAt(text, at, i)
    ensures Cut(text, at) == Some((text[..i], text[i + 1..]))
  {
    assert text[i] in text;
    var (a, b) := Cut(text, at).value;
    assert text[|a|] == at;
    assert forall j :: 0 <= j < |a| ==> text[j] == a[j] && a[j] in a;
    assert text[..|a|] == a && text[|a| + 1..] == b;
  }

  lemma CutHas(text: string, at: char) returns (i: nat)
    requires Cut(text, at).Some?
    ensures FirstAt(text, at, i)
  {
    i := |Cut(text, at).value.0|;
    assert forall j :: 0 <= j < i ==> text[j] == Cut(text, at).value.0[j];
  }

  /** An equals sign with something before the first one and something behind it. */
  lemma SpecOkIff(text: string)
    ensures SpecOk(text) <==> exists i :: 0 < i < |text| - 1 && FirstAt(text, '=', i)
  {
    if SpecOk(text) {
      var i := CutHas(text, '=');
      CutAt(text, '=', i);
    }
    if i :| 0 < i < |text| - 1 && FirstAt(text, '=', i) {
      CutAt(text, '=', i);
    }
  }

  lemma SplitWhole(text: string, at: char)
    requires at !in text
    ensures Split(text, at) == [text]
  {
  }

  lemma SplitNext(text: string, at: char, i: nat)
    requires FirstAt(text, at, i)
    ensures Split(text, at) == [text[..i]] + Split(text[i + 1..], at)
  {
    CutAt(text, at, i);
  }

  /** Behind the label exactly two bars, with something before, between and behind them. */
  predicate ThreeParts(text: string, i: nat, p: nat, q: nat) {
    && 0 < i && i + 1 < p && p + 1 < q < |text| - 1 && FirstAt(text, '=', i)
    && forall k :: i < k < |text| ==> (text[k] == '|' <==> k == p || k == q)
  }

  lemma BarsSplit(text: string, i: nat, p: nat, q: nat)
    requires i < p < q < |text| && text[p] == text[q] == '|'
    requires forall k :: i < k < |text| && k != p && k != q ==> text[k] != '|'
    ensures Split(text[i + 1..], '|') == [text[i + 1..p], text[p + 1..q], text[q + 1..]]
  {
    hide Cut, Split;
    var (rest, behind, last) := (text[i + 1..], text[p + 1..], text[q + 1..]);
    SplitNext(rest, '|', p - i - 1);
    assert rest[..p - i - 1] == text[i + 1..p] && rest[p - i - 1 + 1..] == behind;
    SplitNext(behind, '|', q - p - 1);
    assert behind[..q - p - 1] == text[p + 1..q] && behind[q - p - 1 + 1..] == last;
    assert '|' !in last;
    SplitWhole(last, '|');
  }

  lemma SplitBars(text: string, i: nat) returns (p: nat, q: nat)
    requires i < |text| && |Split(text[i + 1..], '|')| == 3
    ensures i < p < q < |text| && text[p] == text[q] == '|'
    ensures forall k :: i < k < |text| && k != p && k != q ==> text[k] != '|'
  {
    var rest := text[i + 1..];
    var a := CutHas(rest, '|');
    CutAt(rest, '|', a);
    p := i + 1 + a;
    assert rest[a + 1..] == text[p + 1..];
    var b := CutHas(text[p + 1..], '|');
    CutAt(text[p + 1..], '|', b);
    q := p + 1 + b;
    assert text[p + 1..][b + 1..] == text[q + 1..];
    assert '|' !in text[q + 1..];
    forall k | i < k < |text| && k != p && k != q ensures text[k] != '|' {
      if k < p {
        assert rest[k - i - 1] == text[k];
      } else if k < q {
        assert text[p + 1..][k - p - 1] == text[k];
      } else {
        assert text[q + 1..][k - q - 1] == text[k];
      }
    }
  }

  lemma OriginOkIff(text: string)
    ensures OriginOk(text) <==> exists i, p, q :: ThreeParts(text, i, p, q)
  {
    hide Cut, Split;
    if OriginOk(text) {
      var i := CutHas(text, '=');
      CutAt(text, '=', i);
      var p, q := SplitBars(text, i);
      BarsSplit(text, i, p, q);
      var parts := [text[i + 1..p], text[p + 1..q], text[q + 1..]];
      assert parts[0] != "" && parts[1] != "" && parts[2] != "";
      assert ThreeParts(text, i, p, q);
    }
    if i, p, q :| ThreeParts(text, i, p, q) {
      CutAt(text, '=', i);
      BarsSplit(text, i, p, q);
    }
  }

  /** The label is what stands before the first equals sign. */
  lemma LabelMeans(text: string, i: nat)
    requires FirstAt(text, '=', i)
    ensures LabelOf(text) == text[..i]
  {
    CutAt(text, '=', i);
  }

  function LabelOf(text: string): string {
    Cut(text, '=').GetOr(("", "")).0
  }

  predicate AmongLabels(label': string, texts: seq<string>) {
    exists i :: 0 <= i < |texts| && LabelOf(texts[i]) == label'
  }

  /** Every specification can be read, and every origin is of an image to scan. */
  predicate AllSpecsOk(texts: seq<string>, origins: seq<string>) {
    && (forall i :: 0 <= i < |texts| ==> SpecOk(texts[i]))
    && forall i :: 0 <= i < |origins| ==> OriginOk(origins[i]) && AmongLabels(LabelOf(origins[i]), texts)
  }

  /** The first loop of `build_report`. */
  method ReadSpecs(texts: seq<string>) returns (r: Result<seq<string>>)
    ensures r.Ok? <==> forall i :: 0 <= i < |texts| ==> SpecOk(texts[i])
    ensures r.Ok? ==> |r.value| == |texts| && forall i :: 0 <= i < |texts| ==> r.value[i] == LabelOf(texts[i])
  {
    var labels := [];
    for i := 0 to |texts|
      invariant forall j :: 0 <= j < i ==> SpecOk(texts[j])
      invariant |labels| == i && forall j :: 0 <= j < i ==> labels[j] == LabelOf(texts[j])
    {
      if !SpecOk(texts[i]) {
        return Error("invalid image specification");
      }
      labels := labels + [LabelOf(texts[i])];
    }
    r := Ok(labels);
  }

  /** `parse_origin_specs`, as far as the labels are concerned. */
  method ReadOrigins(origins: seq<string>) returns (r: Result<set<string>>)
    ensures r.Ok? <==> forall i :: 0 <= i < |origins| ==> OriginOk(origins[i])
    ensures r.Ok? ==> forall l :: l in r.value <==> AmongLabels(l, origins)
  {
    var labels := {};
    for i := 0 to |origins|
      invariant forall j :: 0 <= j < i ==> OriginOk(origins[j]) && LabelOf(origins[j]) in labels
      invariant forall l :: l in labels ==> AmongLabels(l, origins)
    {
      if !OriginOk(origins[i]) {
        return Error("invalid origin specification");
      }
      labels := labels + {LabelOf(origins[i])};
    }
    r := Ok(labels);
  }

  /** Both, and the comparison of their labels. */
  method CheckSpecs(texts: seq<string>, origins: seq<string>) returns (r: Result<seq<string>>)
    ensures r.Ok? <==> AllSpecsOk(texts, origins)
    ensures r.Ok? ==> |r.value| == |texts| && forall i :: 0 <= i < |texts| ==> r.value[i] == LabelOf(texts[i])
  {
    r := ReadSpecs(texts);
    if r.Error? {
      return;
    }
    var found := ReadOrigins(origins);
    if found.Error? {
      return Error(found.reason);
    }
    forall l ensures l in r.value <==> AmongLabels(l, texts) {
    }
    if exists l :: l in found.value && l !in r.value {
      return Error("origin labels without a scanned image");
    }
  }
}
