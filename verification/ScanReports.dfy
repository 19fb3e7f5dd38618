/** The scan report as its consumer reads it: fields that may be missing or of the
    wrong type, occurrences and counts that must agree with each other. */
module ScanReports {
  import opened Outcomes
  import opened Ordering
  import opened Sequences
  import opened Text

  datatype Severity = Critical | High | Medium | Low | Unknown

  /** One row of evidence; `None` stands for a field that is absent or no string. */
  datatype Row = Row(
    id: Option<string>, severity: Option<string>, package: Option<string>,
    installed: Option<string>, fixed: Option<string>, target: Option<string>)

  datatype RawCounts = RawCounts(critical: Option<int>, high: Option<int>, medium: Option<int>, low: Option<int>)

  /** The `occurrences` of an image: not there, there but no list, or a list. */
  datatype Evidence = Absent | NotAList | Rows(rows: seq<Row>)

  datatype Image = Image(
    name: Option<string>, fixable: Option<seq<Row>>, occurrences: Evidence,
    fixAvailable: Option<RawCounts>, unknown: Option<int>, unknownFixAvailable: Option<int>)

  datatype Body = Body(
    schema: string, scope: string, complete: bool, errors: seq<string>, deadMan: bool,
    generatedAt: string, sourceRevision: string,
    fixAvailable: Option<RawCounts>, images: Option<seq<Image>>)

  /** The self-hash stands for the body it was computed from. */
  datatype Report = Report(body: Body, seal: Option<Body>)

  datatype Finding = Finding(
    image: string, id: string, severity: Severity, package: string, installed: string, fixed: string, target: string)

  datatype Counts = Counts(critical: nat, high: nat, medium: nat, low: nat, unknown: nat)

  datatype Validated = Validated(counts: Counts, findings: seq<Finding>)

  const SCHEMA := "C3PO_CONTAINER_VULNERABILITY_REPORT-v2"
  const PRODUCTION := "production_runtime"
  const DRY_RUN := "controller_dry_run"

  // --------------------------------------------------------------- severities

  function Name(s: Severity): string {
    match s
    case Critical => "critical"
    case High => "high"
    case Medium => "medium"
    case Low => "low"
    case Unknown => "unknown"
  }

  const SEVERITIES: seq<Severity> := [Critical, High, Medium, Low, Unknown]

  function Named(s: string, among: seq<Severity>): Option<Severity> {
    if among == [] then None
    else if s == Name(among[0]) then Some(among[0])
    else Named(s, among[1..])
  }

  function SeverityOf(s: string): Option<Severity> {
    Named(s, SEVERITIES)
  }

  lemma SeverityRoundTrip(s: Severity)
    ensures SeverityOf(Name(s)) == Some(s) && Strip(Name(s)) == Name(s)
  {
    StripKeeps(Name(s));
    assert Name(Critical)[0] == 'c' && Name(High)[0] == 'h' && Name(Medium)[0] == 'm';
    assert Name(Low)[0] == 'l' && Name(Unknown)[0] == 'u';
    assert SEVERITIES[1..] == [High, Medium, Low, Unknown];
    assert SEVERITIES[1..][1..] == [Medium, Low, Unknown];
    assert SEVERITIES[1..][1..][1..] == [Low, Unknown];
    assert SEVERITIES[1..][1..][1..][1..] == [Unknown];
  }

  predicate Urgent(s: Severity) {
    s in {Critical, High}
  }

  /** Position in the order of severities, as a one-character key field. */
  function Rank(s: Severity): string {
    match s
    case Critical => "0"
    case High => "1"
    case Medium => "2"
    case Low => "3"
    case Unknown => "4"
  }

  /** The canonical order of findings, over every field that tells two apart. */
  function FindingKey(f: Finding): seq<string> {
    [Rank(f.severity), f.id, f.image, f.package, f.installed, f.fixed, f.target]
  }

  lemma FindingKeyInjective()
    ensures Injective(FindingKey)
  {
    forall x: Finding, y: Finding | FindingKey(x) == FindingKey(y) ensures x == y {
      var kx, ky := FindingKey(x), FindingKey(y);
      assert kx[0] == ky[0] && kx[1] == ky[1] && kx[2] == ky[2] && kx[3] == ky[3];
      assert kx[4] == ky[4] && kx[5] == ky[5] && kx[6] == ky[6];
      assert Rank(x.severity)[0] == Rank(y.severity)[0];
    }
  }

  // ------------------------------------------------------------------ reading

  function TextOf(field: Option<string>): string {
    if field.Some? then Strip(field.value) else ""
  }

  predicate Filled(field: Option<string>) {
    field.Some? && Strip(field.value) != ""
  }

  predicate RowOk(row: Row, fixRequired: bool) {
    && Filled(row.id) && Filled(row.severity) && Filled(row.package) && Filled(row.installed) && Filled(row.target)
    && row.fixed.Some? && (fixRequired ==> Filled(row.fixed))
    && SeverityOf(TextOf(row.severity)).Some?
    && (fixRequired ==> Urgent(SeverityOf(TextOf(row.severity)).value))
  }

  function Read(image: string, row: Row): Finding {
    Finding(image, TextOf(row.id), SeverityOf(TextOf(row.severity)).GetOr(Unknown), TextOf(row.package),
            TextOf(row.installed), TextOf(row.fixed), TextOf(row.target))
  }

  /** A row of `fixable_high_critical`, and one of `occurrences`. */
  predicate UrgentRow(row: Row) {
    RowOk(row, true)
  }

  predicate OccurrenceRow(row: Row) {
    RowOk(row, false)
  }

  predicate All(rows: seq<Row>, ok: Row -> bool) {
    forall i :: 0 <= i < |rows| ==> ok(rows[i])
  }

  function Reader(image: string): Row -> Finding {
    (row: Row) => Read(image, row)
  }

  function ReadAll(image: string, rows: seq<Row>): seq<Finding> {
    Mapped(rows, Reader(image))
  }

  function NameOf(image: Image): string {
    image.name.GetOr("")
  }

  function Fixable(image: Image): seq<Finding> {
    ReadAll(NameOf(image), image.fixable.GetOr([]))
  }

  function Occurrences(image: Image): seq<Finding> {
    match image.occurrences
    case Rows(rows) => ReadAll(NameOf(image), rows)
    case _ => []
  }

  function Where(fs: seq<Finding>, p: Finding -> bool): seq<Finding> {
    if fs == [] then []
    else (if p(fs[0]) then [fs[0]] else []) + Where(fs[1..], p)
  }

  predicate HasFix(f: Finding) {
    f.fixed != ""
  }

  predicate UrgentFix(f: Finding) {
    f.fixed != "" && Urgent(f.severity)
  }

  predicate OtherFix(f: Finding) {
    f.fixed != "" && !Urgent(f.severity)
  }

  function Of(s: Severity): Finding -> bool {
    (f: Finding) => f.severity == s
  }

  function FixOf(s: Severity): Finding -> bool {
    (f: Finding) => f.fixed != "" && f.severity == s
  }

  function Count(fs: seq<Finding>, p: Finding -> bool): nat {
    |Where(fs, p)|
  }

  function ByImage(image: string): Finding -> bool {
    (f: Finding) => f.image == image
  }

  // ---------------------------------------------------- what makes a report valid

  predicate HeaderOk(r: Report, scope: string, deadMan: bool) {
    && r.seal == Some(r.body)
    && r.body.schema == SCHEMA && r.body.scope == scope
    && r.body.complete && r.body.errors == [] && (deadMan ==> r.body.deadMan)
    && r.body.fixAvailable.Some? && r.body.images.Some?
  }

  predicate Every(images: seq<Image>, ok: Image -> bool) {
    forall i :: 0 <= i < |images| ==> ok(images[i])
  }

  predicate NamesOk(images: seq<Image>) {
    && (forall i :: 0 <= i < |images| ==> images[i].name.Some? && images[i].name.value != "")
    && (forall i, j :: 0 <= i < j < |images| ==> images[i].name != images[j].name)
  }

  predicate FixableOk(image: Image) {
    image.fixable.Some? && All(image.fixable.value, UrgentRow)
  }

  predicate OccurrencesOk(image: Image) {
    image.occurrences.Rows? && All(image.occurrences.rows, OccurrenceRow)
  }

  /** An image's occurrences agree with its list of urgent fixes and with every count beside them. */
  predicate EvidenceOk(image: Image) {
    && OccurrencesOk(image)
    && multiset(Where(Occurrences(image), UrgentFix)) == multiset(Fixable(image))
    && image.fixAvailable.Some?
    && image.fixAvailable.value.medium == Some(Count(Occurrences(image), FixOf(Medium)))
    && image.fixAvailable.value.low == Some(Count(Occurrences(image), FixOf(Low)))
    && image.unknown == Some(Count(Occurrences(image), Of(Unknown)))
    && image.unknownFixAvailable == Some(Count(Occurrences(image), FixOf(Unknown)))
  }

  /** Only the sealed dry-run fixture may come without occurrences. */
  predicate EvidenceDue(images: seq<Image>, scope: string) {
    scope != DRY_RUN || exists i :: 0 <= i < |images| && !images[i].occurrences.Absent?
  }

  /** The urgent fixes of all images are as many as the report declares. */
  predicate UrgentAgree(images: seq<Image>, raw: RawCounts) {
    && NamesOk(images) && Every(images, FixableOk)
    && raw.critical == Some(Count(Flat(images, Fixable), Of(Critical)))
    && raw.high == Some(Count(Flat(images, Fixable), Of(High)))
  }

  /** The occurrences of each image are in order, and so are the sums over all of them. */
  predicate OccurrencesAgree(images: seq<Image>, raw: RawCounts) {
    && Every(images, EvidenceOk)
    && raw.medium == Some(Count(Flat(images, Occurrences), FixOf(Medium)))
    && raw.low == Some(Count(Flat(images, Occurrences), FixOf(Low)))
  }

  predicate Acceptable(r: Report, scope: string, deadMan: bool) {
    && HeaderOk(r, scope, deadMan)
    && UrgentAgree(r.body.images.value, r.body.fixAvailable.value)
    && (EvidenceDue(r.body.images.value, scope) ==> OccurrencesAgree(r.body.images.value, r.body.fixAvailable.value))
  }

  /** The occurrences that count: none when the report need not carry any. */
  function Shown(images: seq<Image>, evidence: bool): seq<Finding> {
    if evidence then Flat(images, Occurrences) else []
  }

  /** The findings that a valid report asks to be remedied, in canonical order. */
  function Work(images: seq<Image>, evidence: bool): seq<Finding> {
    Sort(Flat(images, Fixable) + Where(Shown(images, evidence), OtherFix), FindingKey)
  }

  function Totals(images: seq<Image>, evidence: bool): Counts {
    var fixes, shown := Flat(images, Fixable), Shown(images, evidence);
    Counts(Count(fixes, Of(Critical)), Count(fixes, Of(High)), Count(shown, FixOf(Medium)),
           Count(shown, FixOf(Low)), Count(shown, FixOf(Unknown)))
  }

  // ---------------------------------------------------------------- validation

  lemma {:induction false} WhereConcat(a: seq<Finding>, b: seq<Finding>, p: Finding -> bool)
    ensures Where(a + b, p) == Where(a, p) + Where(b, p)
  {
    if a == [] {
      assert a + b == b;
    } else {
      var first := if p(a[0]) then [a[0]] else [];
      WhereConcat(a[1..], b, p);
      assert (a + b)[0] == a[0] && (a + b)[1..] == a[1..] + b;
      assert first + (Where(a[1..], p) + Where(b, p)) == first + Where(a[1..], p) + Where(b, p);
    }
  }

  lemma {:induction false} WhereAll(fs: seq<Finding>, p: Finding -> bool)
    ensures (forall i :: 0 <= i < |fs| ==> p(fs[i])) ==> Where(fs, p) == fs
    ensures (forall i :: 0 <= i < |fs| ==> !p(fs[i])) ==> Where(fs, p) == []
  {
    if fs != [] {
      WhereAll(fs[1..], p);
      assert fs == [fs[0]] + fs[1..];
    }
  }

  /** With unique labels, the findings under one label are those of one image. */
  lemma {:induction false} OwnFindings(images: seq<Image>, k: nat)
    requires NamesOk(images) && k < |images|
    ensures Where(Flat(images, Fixable), ByImage(NameOf(images[k]))) == Fixable(images[k])
  {
    hide ByImage, Fixable, Where;
    var n := NameOf(images[k]);
    WhereConcat(Fixable(images[0]), Flat(images[1..], Fixable), ByImage(n));
    FindingsOfOne(images[0], n);
    if k == 0 {
      NotAmong(images[1..], n);
    } else {
      OwnFindings(images[1..], k - 1);
    }
  }

  lemma FindingsOfOne(image: Image, n: string)
    ensures Where(Fixable(image), ByImage(n)) == if n == NameOf(image) then Fixable(image) else []
  {
    WhereAll(Fixable(image), ByImage(n));
  }

  lemma {:induction false} NotAmong(images: seq<Image>, n: string)
    requires forall i :: 0 <= i < |images| ==> NameOf(images[i]) != n
    ensures Where(Flat(images, Fixable), ByImage(n)) == []
  {
    hide ByImage, Fixable, NameOf;
    if images != [] {
      WhereConcat(Fixable(images[0]), Flat(images[1..], Fixable), ByImage(n));
      FindingsOfOne(images[0], n);
      NotAmong(images[1..], n);
    }
  }

  /** Rows are read whole or not at all. */
  method ReadRows(rows: seq<Row>, ok: Row -> bool, read: Row -> Finding) returns (r: Result<seq<Finding>>)
    ensures r.Ok? <==> All(rows, ok)
    ensures r.Ok? ==> r.value == Mapped(rows, read)
  {
    var findings: seq<Finding> := [];
    for i := 0 to |rows|
      invariant All(rows[..i], ok)
      invariant findings == Mapped(rows[..i], read)
    {
      if !ok(rows[i]) {
        return Error("evidence row is malformed");
      }
      findings := findings + [read(rows[i])];
    }
    assert rows[..|rows|] == rows;
    r := Ok(findings);
  }

  method ReadOccurrences(image: Image) returns (r: Result<seq<Finding>>)
    requires image.name.Some?
    ensures r.Ok? <==> OccurrencesOk(image)
    ensures r.Ok? ==> r.value == Occurrences(image)
  {
    if !image.occurrences.Rows? {
      return Error("missing occurrences evidence");
    }
    r := ReadRows(image.occurrences.rows, OccurrenceRow, Reader(image.name.value));
  }

  method ReadImage(image: Image) returns (r: Result<seq<Finding>>)
    requires image.name.Some?
    ensures r.Ok? <==> FixableOk(image)
    ensures r.Ok? ==> r.value == Fixable(image)
  {
    if image.fixable.None? {
      return Error("missing fixable_high_critical evidence");
    }
    r := ReadRows(image.fixable.value, UrgentRow, Reader(image.name.value));
  }

  /** The labels of the images that have one. */
  function NameSet(images: seq<Image>): set<string> {
    if images == [] then {}
    else
      var last := images[|images| - 1];
      NameSet(images[..|images| - 1]) + if last.name.Some? then {last.name.value} else {}
  }

  lemma {:induction false} NameSetMeans(images: seq<Image>, n: string)
    ensures n in NameSet(images) <==> exists j :: 0 <= j < |images| && images[j].name == Some(n)
  {
    if images != [] {
      var front := images[..|images| - 1];
      NameSetMeans(front, n);
      assert forall j :: 0 <= j < |front| ==> front[j] == images[j];
    }
  }

  /** Image by image: a new label, and rows in order. */
  predicate InOrder(images: seq<Image>) {
    images == [] ||
    var front, last := images[..|images| - 1], images[|images| - 1];
    InOrder(front) && NewImage(front, last) && FixableOk(last)
  }

  predicate NewImage(front: seq<Image>, image: Image) {
    image.name.Some? && image.name.value != "" && image.name.value !in NameSet(front)
  }

  lemma {:induction false} InOrderIff(images: seq<Image>)
    ensures InOrder(images) <==> NamesOk(images) && Every(images, FixableOk)
  {
    if images != [] {
      var n := |images| - 1;
      InOrderIff(images[..n]);
      if images[n].name.Some? {
        NameSetMeans(images[..n], images[n].name.value);
      }
      assert forall j :: 0 <= j < n ==> images[..n][j] == images[j];
    }
  }

  lemma InOrderNext(images: seq<Image>, image: Image)
    ensures InOrder(images + [image]) <==> InOrder(images) && NewImage(images, image) && FixableOk(image)
    ensures image.name.Some? ==> NameSet(images + [image]) == NameSet(images) + {image.name.value}
  {
    assert (images + [image])[..|images|] == images;
  }

  lemma {:induction false} InOrderFront(images: seq<Image>, i: nat)
    requires i <= |images| && InOrder(images)
    ensures InOrder(images[..i])
  {
    if i < |images| {
      InOrderFront(images[..|images| - 1], i);
      assert images[..|images| - 1][..i] == images[..i];
    } else {
      assert images[..i] == images;
    }
  }

  /** The first loop of `validate_report`: labels and urgent fixes. */
  method ReadFixable(images: seq<Image>) returns (r: Result<seq<Finding>>)
    ensures r.Ok? <==> NamesOk(images) && Every(images, FixableOk)
    ensures r.Ok? ==> r.value == Flat(images, Fixable)
  {
    r := ReadInOrder(images);
    InOrderIff(images);
  }

  method ReadInOrder(images: seq<Image>) returns (r: Result<seq<Finding>>)
    ensures r.Ok? <==> InOrder(images)
    ensures r.Ok? ==> r.value == Flat(images, Fixable)
  {
    var findings: seq<Finding> := [];
    var seen: set<string> := {};
    ghost var done: seq<Image> := [];
    for i := 0 to |images|
      invariant done == images[..i]
      invariant InOrder(done) && seen == NameSet(done)
      invariant findings == Flat(done, Fixable)
    {
      assert images[..i + 1] == done + [images[i]];
      var read := ReadNext(done, images[i], seen);
      if read.Error? {
        if InOrder(images) {
          InOrderFront(images, i + 1);
        }
        return Error(read.reason);
      }
      FlatAppend(done, images[i], Fixable);
      InOrderNext(done, images[i]);
      seen := seen + {images[i].name.value};
      findings := findings + read.value;
      done := done + [images[i]];
    }
    assert images[..|images|] == images;
    r := Ok(findings);
  }

  /** One turn of the loop. */
  method ReadNext(ghost images: seq<Image>, image: Image, seen: set<string>) returns (r: Result<seq<Finding>>)
    requires InOrder(images) && seen == NameSet(images)
    ensures r.Ok? <==> InOrder(images + [image])
    ensures r.Ok? ==> r.value == Fixable(image) && image.name.Some?
  {
    InOrderNext(images, image);
    if image.name.None? || image.name.value == "" || image.name.value in seen {
      return Error("image labels must be non-empty and unique");
    }
    r := ReadImage(image);
  }

  /** What the second loop counts and keeps for one image. */
  datatype Tally = Tally(
    urgent: seq<Finding>, others: seq<Finding>, medium: nat, low: nat, unknown: nat, unknownSeen: nat)

  function TallyOf(fs: seq<Finding>): Tally {
    Tally(Where(fs, UrgentFix), Where(fs, OtherFix), Count(fs, FixOf(Medium)), Count(fs, FixOf(Low)),
          Count(fs, FixOf(Unknown)), Count(fs, Of(Unknown)))
  }

  function Add(t: Tally, f: Finding): Tally {
    var seen := if f.severity == Unknown then t.(unknownSeen := t.unknownSeen + 1) else t;
    if f.fixed == "" then seen
    else
      match f.severity
      case Medium => seen.(others := t.others + [f], medium := t.medium + 1)
      case Low => seen.(others := t.others + [f], low := t.low + 1)
      case Unknown => seen.(others := t.others + [f], unknown := t.unknown + 1)
      case _ => seen.(urgent := t.urgent + [f])
  }

  lemma TallyAppend(fs: seq<Finding>, f: Finding)
    ensures TallyOf(fs + [f]) == Add(TallyOf(fs), f)
  {
    WhereConcat(fs, [f], UrgentFix);
    WhereConcat(fs, [f], OtherFix);
    WhereConcat(fs, [f], FixOf(Medium));
    WhereConcat(fs, [f], FixOf(Low));
    WhereConcat(fs, [f], FixOf(Unknown));
    WhereConcat(fs, [f], Of(Unknown));
  }

  /** One pass over the occurrences of an image. */
  method TallyOccurrences(fs: seq<Finding>) returns (t: Tally)
    ensures t == TallyOf(fs)
  {
    t := Tally([], [], 0, 0, 0, 0);
    for i := 0 to |fs|
      invariant t == TallyOf(fs[..i])
    {
      var f := fs[i];
      TallyAppend(fs[..i], f);
      assert fs[..i + 1] == fs[..i] + [f];
      if f.severity == Unknown {
        t := t.(unknownSeen := t.unknownSeen + 1);
      }
      if f.fixed == "" {
        continue;
      }
      match f.severity {
        case Medium => t := t.(others := t.others + [f], medium := t.medium + 1);
        case Low => t := t.(others := t.others + [f], low := t.low + 1);
        case Unknown => t := t.(others := t.others + [f], unknown := t.unknown + 1);
        case _ => t := t.(urgent := t.urgent + [f]);
      }
    }
    assert fs[..|fs|] == fs;
  }

  /** The second loop of `validate_report` for one image: read, count, and hold
      every declared number against what was counted. */
  method CheckEvidence(image: Image, findings: seq<Finding>) returns (r: Result<Tally>)
    requires image.name.Some?
    requires Where(findings, ByImage(NameOf(image))) == Fixable(image)
    ensures r.Ok? <==> EvidenceOk(image)
    ensures r.Ok? ==> r.value == TallyOf(Occurrences(image))
  {
    var read := ReadOccurrences(image);
    if read.Error? {
      return Error(read.reason);
    }
    var tally := TallyOccurrences(read.value);
    var declared := Where(findings, ByImage(NameOf(image)));
    FindingKeyInjective();
    SortIsCanonical(tally.urgent, declared, FindingKey);
    if Sort(tally.urgent, FindingKey) != Sort(declared, FindingKey) {
      return Error("fixable critical/high occurrences do not match fixable_high_critical");
    }
    if image.fixAvailable.None?
       || image.fixAvailable.value.medium != Some(tally.medium) || image.fixAvailable.value.low != Some(tally.low) {
      return Error("fixable detail/count mismatch");
    }
    if image.unknown != Some(tally.unknownSeen) || image.unknownFixAvailable != Some(tally.unknown) {
      return Error("unrated count mismatch");
    }
    r := Ok(tally);
  }

  function Join(a: Tally, b: Tally): Tally {
    Tally(a.urgent + b.urgent, a.others + b.others, a.medium + b.medium, a.low + b.low,
          a.unknown + b.unknown, a.unknownSeen + b.unknownSeen)
  }

  lemma TallyConcat(a: seq<Finding>, b: seq<Finding>)
    ensures TallyOf(a + b) == Join(TallyOf(a), TallyOf(b))
  {
    WhereConcat(a, b, UrgentFix);
    WhereConcat(a, b, OtherFix);
    WhereConcat(a, b, FixOf(Medium));
    WhereConcat(a, b, FixOf(Low));
    WhereConcat(a, b, FixOf(Unknown));
    WhereConcat(a, b, Of(Unknown));
  }

  lemma TallyNext(images: seq<Image>, i: nat)
    requires i < |images|
    ensures TallyOf(Flat(images[..i + 1], Occurrences)) ==
            Join(TallyOf(Flat(images[..i], Occurrences)), TallyOf(Occurrences(images[i])))
  {
    assert images[..i + 1] == images[..i] + [images[i]];
    assert Flat([images[i]], Occurrences) == Occurrences(images[i]);
    FlatConcat(images[..i], [images[i]], Occurrences);
    TallyConcat(Flat(images[..i], Occurrences), Occurrences(images[i]));
  }

  lemma EveryNext(images: seq<Image>, i: nat, ok: Image -> bool)
    requires i < |images|
    ensures Every(images[..i + 1], ok) <==> Every(images[..i], ok) && ok(images[i])
    ensures Every(images, ok) ==> Every(images[..i + 1], ok)
  {
    assert images[..i + 1][i] == images[i] && images[..i + 1][..i] == images[..i];
    assert forall j :: 0 <= j < i ==> images[..i][j] == images[..i + 1][j];
  }

  /** The whole second loop: the sums over all images of what each one showed. */
  method CheckAll(images: seq<Image>, findings: seq<Finding>) returns (r: Result<Tally>)
    requires NamesOk(images) && findings == Flat(images, Fixable)
    ensures r.Ok? <==> Every(images, EvidenceOk)
    ensures r.Ok? ==> r.value == TallyOf(Flat(images, Occurrences))
  {
    var sum := TallyOf([]);
    for i := 0 to |images|
      invariant Every(images[..i], EvidenceOk)
      invariant sum == TallyOf(Flat(images[..i], Occurrences))
    {
      EveryNext(images, i, EvidenceOk);
      OwnFindings(images, i);
      var checked := CheckEvidence(images[i], findings);
      if checked.Error? {
        return Error(checked.reason);
      }
      TallyNext(images, i);
      sum := Join(sum, checked.value);
    }
    assert images[..|images|] == images;
    r := Ok(sum);
  }

  /** Everything after the header. */
  method ValidateImages(images: seq<Image>, raw: RawCounts, scope: string) returns (r: Result<Validated>)
    ensures r.Ok? <==> UrgentAgree(images, raw) && (EvidenceDue(images, scope) ==> OccurrencesAgree(images, raw))
    ensures r.Ok? ==>
              var evidence := EvidenceDue(images, scope);
              r.value == Validated(Totals(images, evidence), Work(images, evidence))
  {
    var read := ReadFixable(images);
    if read.Error? {
      return Error(read.reason);
    }
    var findings := read.value;
    var critical, high := Count(findings, Of(Critical)), Count(findings, Of(High));
    if raw.critical != Some(critical) || raw.high != Some(high) {
      return Error("fixable detail/count mismatch");
    }
    if !EvidenceDue(images, scope) {
      assert findings + [] == findings;
      return Ok(Validated(Counts(critical, high, 0, 0, 0), Sort(findings, FindingKey)));
    }
    var checked := CheckAll(images, findings);
    if checked.Error? {
      return Error(checked.reason);
    }
    var tally := checked.value;
    if raw.medium != Some(tally.medium) || raw.low != Some(tally.low) {
      return Error("fixable detail/count mismatch");
    }
    r := Ok(Validated(Counts(critical, high, tally.medium, tally.low, tally.unknown),
                      Sort(findings + tally.others, FindingKey)));
  }

  /** `validate_report`: what it accepts, and what it returns. */
  method ValidateReport(report: Report, scope: string, deadMan: bool) returns (r: Result<Validated>)
    ensures r.Ok? <==> Acceptable(report, scope, deadMan)
    ensures r.Ok? ==>
              var images := report.body.images.value;
              var evidence := EvidenceDue(images, scope);
              r.value == Validated(Totals(images, evidence), Work(images, evidence))
  {
    if !HeaderOk(report, scope, deadMan) {
      return Error("report is unsealed, foreign, incomplete or unattested");
    }
    r := ValidateImages(report.body.images.value, report.body.fixAvailable.value, scope);
  }
}
