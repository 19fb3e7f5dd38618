/** The producer of the scan report: one pass over the scanner's output that lists,
    sorts and counts at the same time. */
module TrivyScan {
  import opened ImageSpecs
  import opened Outcomes
  import opened Ordering
  import opened ScanReports
  import opened Remediation
  import opened ReportMeaning
  import opened Sequences
  import opened Text

  datatype Vulnerability = Vulnerability(
    id: Option<string>, severity: Option<string>, package: Option<string>,
    installed: Option<string>, fixed: Option<string>)

  datatype ScanResult = ScanResult(target: Option<string>, vulnerabilities: seq<Vulnerability>)

  /** An image as it enters the report, with the counts that only the producer uses. */
  datatype Scanned = Scanned(image: Image, bySeverity: Counts, fixes: Counts, unfixed: seq<Row>, total: nat)

  function Or(field: Option<string>, default: string): string {
    if field.Some? && field.value != "" then field.value else default
  }

  function Rated(v: Vulnerability): Severity {
    SeverityOf(Lower(Or(v.severity, "unknown"))).GetOr(Unknown)
  }

  function FixedVersion(v: Vulnerability): string {
    Strip(Or(v.fixed, ""))
  }

  function Listed(v: Vulnerability, target: Option<string>): Row {
    Row(Some(Or(v.id, "unknown")), Some(Name(Rated(v))), Some(Or(v.package, "unknown")),
        Some(Or(v.installed, "unknown")), Some(FixedVersion(v)), Some(Or(target, "unknown")))
  }

  function RowsIn(vs: seq<Vulnerability>, target: Option<string>): seq<Row> {
    if vs == [] then [] else RowsIn(vs[..|vs| - 1], target) + [Listed(vs[|vs| - 1], target)]
  }

  /** Every occurrence, whatever its severity, in the scanner's order. */
  function RowsOf(results: seq<ScanResult>): seq<Row> {
    if results == [] then []
    else
      var last := results[|results| - 1];
      RowsOf(results[..|results| - 1]) + RowsIn(last.vulnerabilities, last.target)
  }

  /** `finding_order` */
  function RowKey(row: Row): seq<string> {
    [row.severity.GetOr(""), row.id.GetOr(""), row.package.GetOr(""), row.installed.GetOr(""),
     row.fixed.GetOr(""), row.target.GetOr("")]
  }

  /** A row reads back as what was found, with its blanks trimmed. */
  lemma ListedReads(v: Vulnerability, target: Option<string>, image: string)
    ensures Read(image, Listed(v, target)) ==
            Finding(image, Strip(Or(v.id, "unknown")), Rated(v), Strip(Or(v.package, "unknown")),
                    Strip(Or(v.installed, "unknown")), FixedVersion(v), Strip(Or(target, "unknown")))
  {
    SeverityRoundTrip(Rated(v));
    StripKeeps(FixedVersion(v));
  }

  // -------------------------------------------------- what the scanner has said

  /** The severity text of the vulnerability is this word, in letters of either case. */
  predicate Says(v: Vulnerability, word: string) {
    v.severity.Some? && Spells(v.severity.value, word)
  }

  /** The scanner's rating. Any text but the names of the four severities is unknown. */
  predicate RatedAs(v: Vulnerability, s: Severity) {
    match s
    case Unknown => !Says(v, Word(Critical)) && !Says(v, Word(High)) && !Says(v, Word(Medium)) && !Says(v, Word(Low))
    case _ => Says(v, Word(s))
  }

  /** Some character of the fixed version is no blank. */
  predicate Fixed(v: Vulnerability) {
    v.fixed.Some? && !AllSpace(v.fixed.value)
  }

  predicate Carries(field: Option<string>, given: Option<string>) {
    if given.Some? && given.value != "" then field == given else field == Some("unknown")
  }

  /** The row holds what the scanner gave: the vulnerability's own fields, its result's
      target, and the rating as a word. */
  predicate Holds(row: Row, v: Vulnerability, target: Option<string>) {
    && Carries(row.id, v.id) && Carries(row.package, v.package) && Carries(row.installed, v.installed)
    && Carries(row.target, target)
    && row.fixed.Some? && Trimmed(if v.fixed.Some? then v.fixed.value else "", row.fixed.value)
    && forall s :: RatedAs(v, s) ==> row.severity == Some(Word(s))
  }

  lemma UnknownSpellsNothingElse(s: Severity)
    requires s != Unknown
    ensures !Spells("unknown", Word(s)) && !Spells("", Word(s))
  {
    LowerSpells("unknown", Word(s));
    assert Lower("unknown")[0] == 'u';
    assert Word(Critical)[0] == 'c' && Word(High)[0] == 'h' && Word(Medium)[0] == 'm' && Word(Low)[0] == 'l';
  }

  lemma SaysMeans(v: Vulnerability, s: Severity)
    requires s != Unknown
    ensures Says(v, Word(s)) <==> Lower(Or(v.severity, "unknown")) == Word(s)
  {
    hide Spells, Word;
    NamesAreWords(s);
    UnknownSpellsNothingElse(s);
    LowerSpells(Or(v.severity, "unknown"), Word(s));
  }

  lemma RatedMeans(v: Vulnerability, s: Severity)
    ensures Rated(v) == s <==> RatedAs(v, s)
  {
    hide Name, Says, SeverityOf, Word;
    NamedMeans(Lower(Or(v.severity, "unknown")));
    forall s | s != Unknown ensures Says(v, Word(s)) <==> Lower(Or(v.severity, "unknown")) == Word(s) {
      SaysMeans(v, s);
    }
    forall s ensures Name(s) == Word(s) && forall other :: Word(other) == Word(s) ==> other == s {
      NamesAreWords(s);
    }
  }

  lemma ListedHolds(v: Vulnerability, target: Option<string>)
    ensures Holds(Listed(v, target), v, target)
    ensures FixedVersion(v) != "" <==> Fixed(v)
  {
    hide Name, RatedAs, Rated, Strip, Trimmed, Word;
    StripTrims(Or(v.fixed, ""));
    forall s | RatedAs(v, s) ensures Name(Rated(v)) == Word(s) {
      RatedMeans(v, s);
      NamesAreWords(s);
    }
  }

  /** All that the scanner has found, in its order, each with the target it was found in. */
  function Found(results: seq<ScanResult>): seq<(Vulnerability, Option<string>)> {
    if results == [] then []
    else
      var last := results[|results| - 1];
      Found(results[..|results| - 1]) + FoundIn(last.vulnerabilities, last.target)
  }

  function FoundIn(vs: seq<Vulnerability>, target: Option<string>): seq<(Vulnerability, Option<string>)> {
    seq(|vs|, j requires 0 <= j < |vs| => (vs[j], target))
  }

  /** Each occurrence is the row of the vulnerability found at that place. */
  predicate Rows1To1(rows: seq<Row>, found: seq<(Vulnerability, Option<string>)>) {
    |rows| == |found| && forall k :: 0 <= k < |rows| ==> rows[k] == Listed(found[k].0, found[k].1)
  }

  lemma {:induction false} RowsInMean(vs: seq<Vulnerability>, target: Option<string>)
    ensures Rows1To1(RowsIn(vs, target), FoundIn(vs, target))
  {
    if vs != [] {
      RowsInMean(vs[..|vs| - 1], target);
    }
  }

  lemma {:induction false} RowsOfMean(results: seq<ScanResult>)
    ensures Rows1To1(RowsOf(results), Found(results))
  {
    if results != [] {
      var last := results[|results| - 1];
      RowsOfMean(results[..|results| - 1]);
      RowsInMean(last.vulnerabilities, last.target);
    }
  }

  function RowsWhere(rows: seq<Row>, p: Row -> bool): seq<Row> {
    if rows == [] then []
    else (if p(rows[0]) then [rows[0]] else []) + RowsWhere(rows[1..], p)
  }

  function ReadsAs(read: Row -> Finding, p: Finding -> bool): Row -> bool {
    (row: Row) => p(read(row))
  }

  predicate UrgentUnfixed(f: Finding) {
    f.fixed == "" && Urgent(f.severity)
  }

  function CountsOf(fs: seq<Finding>): Counts {
    Counts(Count(fs, Of(Critical)), Count(fs, Of(High)), Count(fs, Of(Medium)), Count(fs, Of(Low)),
           Count(fs, Of(Unknown)))
  }

  function FixesOf(fs: seq<Finding>): Counts {
    Counts(Count(fs, FixOf(Critical)), Count(fs, FixOf(High)), Count(fs, FixOf(Medium)), Count(fs, FixOf(Low)),
           Count(fs, FixOf(Unknown)))
  }

  function Bump(c: Counts, s: Severity): Counts {
    match s
    case Critical => c.(critical := c.critical + 1)
    case High => c.(high := c.high + 1)
    case Medium => c.(medium := c.medium + 1)
    case Low => c.(low := c.low + 1)
    case Unknown => c.(unknown := c.unknown + 1)
  }

  lemma CountsAppend(fs: seq<Finding>, f: Finding)
    ensures CountsOf(fs + [f]) == Bump(CountsOf(fs), f.severity)
    ensures FixesOf(fs + [f]) == if f.fixed != "" then Bump(FixesOf(fs), f.severity) else FixesOf(fs)
  {
    CountAppend(fs, f, Critical);
    CountAppend(fs, f, High);
    CountAppend(fs, f, Medium);
    CountAppend(fs, f, Low);
    CountAppend(fs, f, Unknown);
  }

  lemma CountAppend(fs: seq<Finding>, f: Finding, s: Severity)
    ensures Count(fs + [f], Of(s)) == Count(fs, Of(s)) + if f.severity == s then 1 else 0
    ensures Count(fs + [f], FixOf(s)) == Count(fs, FixOf(s)) + if f.severity == s && f.fixed != "" then 1 else 0
  {
    WhereConcat(fs, [f], Of(s));
    WhereConcat(fs, [f], FixOf(s));
  }

  lemma {:induction false} RowsWhereAppend(rows: seq<Row>, row: Row, p: Row -> bool)
    ensures RowsWhere(rows + [row], p) == RowsWhere(rows, p) + if p(row) then [row] else []
  {
    if rows != [] {
      assert (rows + [row])[0] == rows[0] && (rows + [row])[1..] == rows[1..] + [row];
      RowsWhereAppend(rows[1..], row, p);
    } else {
      assert rows + [row] == [row];
    }
  }

  /** What the loop has collected after the rows it has listed. */
  datatype Pass = Pass(counts: Counts, fixes: Counts, fixable: seq<Row>, unfixed: seq<Row>)

  const START := Pass(Counts(0, 0, 0, 0, 0), Counts(0, 0, 0, 0, 0), [], [])

  function AfterRow(pass: Pass, row: Row, f: Finding): Pass {
    Pass(Bump(pass.counts, f.severity), if f.fixed != "" then Bump(pass.fixes, f.severity) else pass.fixes,
         if UrgentFix(f) then pass.fixable + [row] else pass.fixable,
         if UrgentUnfixed(f) then pass.unfixed + [row] else pass.unfixed)
  }

  /** The pass with one more row of that severity, with a fixed version or without. */
  function Filed(pass: Pass, row: Row, s: Severity, fixed: bool): Pass {
    pass.(counts := Bump(pass.counts, s),
          fixes := if fixed then Bump(pass.fixes, s) else pass.fixes,
          fixable := pass.fixable + if fixed && (s.Critical? || s.High?) then [row] else [],
          unfixed := pass.unfixed + if !fixed && (s.Critical? || s.High?) then [row] else [])
  }

  lemma EnteredAsRated(v: Vulnerability, target: Option<string>)
    ensures Holds(Listed(v, target), v, target) && (FixedVersion(v) != "" <==> Fixed(v))
    ensures forall s :: RatedAs(v, s) ==> Rated(v) == s
  {
    ListedHolds(v, target);
    forall s | RatedAs(v, s) ensures Rated(v) == s {
      RatedMeans(v, s);
    }
  }

  function PassOver(rows: seq<Row>, read: Row -> Finding): Pass {
    if rows == [] then START
    else
      var row := rows[|rows| - 1];
      AfterRow(PassOver(rows[..|rows| - 1], read), row, read(row))
  }

  /** The one pass means: all counts are the numbers of the rows they speak of, and
      the two lists are the urgent rows with and without a fix. */
  lemma {:induction false} PassMeans(rows: seq<Row>, read: Row -> Finding)
    ensures PassOver(rows, read).counts == CountsOf(Mapped(rows, read))
    ensures PassOver(rows, read).fixes == FixesOf(Mapped(rows, read))
    ensures PassOver(rows, read).fixable == RowsWhere(rows, ReadsAs(read, UrgentFix))
    ensures PassOver(rows, read).unfixed == RowsWhere(rows, ReadsAs(read, UrgentUnfixed))
  {
    if rows != [] {
      var front, row := rows[..|rows| - 1], rows[|rows| - 1];
      PassMeans(front, read);
      assert rows == front + [row];
      assert Mapped(rows, read) == Mapped(front, read) + [read(row)];
      CountsAppend(Mapped(front, read), read(row));
      RowsWhereAppend(front, row, ReadsAs(read, UrgentFix));
      RowsWhereAppend(front, row, ReadsAs(read, UrgentUnfixed));
    }
  }

  /** One vulnerability: listed, counted, and filed under what can be done about it. */
  method Enter(name: string, pass: Pass, v: Vulnerability, target: Option<string>) returns (row: Row, next: Pass)
    ensures row == Listed(v, target) && next == AfterRow(pass, row, Reader(name)(row))
    ensures Holds(row, v, target)
    ensures forall s :: RatedAs(v, s) ==> next == Filed(pass, row, s, Fixed(v))
  {
    hide Bump, Fixed, FixedVersion, Holds, Listed, Rated, RatedAs;
    EnteredAsRated(v, target);
    var severity, fixed := Rated(v), FixedVersion(v);
    row := Listed(v, target);
    ListedReads(v, target, name);
    next := pass.(counts := Bump(pass.counts, severity));
    if fixed != "" {
      next := next.(fixes := Bump(next.fixes, severity));
      if Urgent(severity) {
        next := next.(fixable := next.fixable + [row]);
      }
    } else if Urgent(severity) {
      next := next.(unfixed := next.unfixed + [row]);
    }
  }

  lemma PassNext(rows: seq<Row>, row: Row, read: Row -> Finding)
    ensures PassOver(rows + [row], read) == AfterRow(PassOver(rows, read), row, read(row))
  {
    assert (rows + [row])[..|rows|] == rows;
  }

  lemma RowsInNext(vs: seq<Vulnerability>, j: nat, target: Option<string>)
    requires j < |vs|
    ensures RowsIn(vs[..j + 1], target) == RowsIn(vs[..j], target) + [Listed(vs[j], target)]
  {
    assert vs[..j + 1][..j] == vs[..j];
  }

  lemma RowsAndNext(rows: seq<Row>, vs: seq<Vulnerability>, j: nat, target: Option<string>)
    requires j < |vs|
    ensures rows + RowsIn(vs[..j + 1], target) == rows + RowsIn(vs[..j], target) + [Listed(vs[j], target)]
  {
    RowsInNext(vs, j, target);
  }

  lemma RowsOfNext(results: seq<ScanResult>, i: nat)
    requires i < |results|
    ensures RowsOf(results[..i + 1]) == RowsOf(results[..i]) + RowsIn(results[i].vulnerabilities, results[i].target)
  {
    assert results[..i + 1][..i] == results[..i];
  }

  /** The inner loop, over the vulnerabilities of one scan result. */
  method EnterAll(name: string, rows: seq<Row>, pass: Pass, vs: seq<Vulnerability>, target: Option<string>)
    returns (rows': seq<Row>, pass': Pass)
    requires pass == PassOver(rows, Reader(name))
    ensures rows' == rows + RowsIn(vs, target) && pass' == PassOver(rows', Reader(name))
  {
    rows', pass' := rows, pass;
    for j := 0 to |vs|
      invariant pass' == PassOver(rows', Reader(name))
      invariant rows' == rows + RowsIn(vs[..j], target)
    {
      var row;
      row, pass' := Enter(name, pass', vs[j], target);
      PassNext(rows', row, Reader(name));
      RowsAndNext(rows, vs, j, target);
      rows' := rows' + [row];
    }
    assert vs[..|vs|] == vs;
  }

  function ScannedOf(name: string, rows: seq<Row>): Scanned {
    Assemble(name, rows, PassOver(rows, Reader(name)))
  }

  function Assemble(name: string, rows: seq<Row>, pass: Pass): Scanned {
    var f := pass.fixes;
    Scanned(Image(Some(name), Some(Sort(pass.fixable, RowKey)), Rows(Sort(rows, RowKey)),
                  Some(RawCounts(Some(f.critical), Some(f.high), Some(f.medium), Some(f.low))),
                  Some(pass.counts.unknown), Some(f.unknown)),
            pass.counts, f, Sort(pass.unfixed, RowKey),
            pass.counts.critical + pass.counts.high + pass.counts.medium + pass.counts.low + pass.counts.unknown)
  }

  /** `normalize_trivy_payload`: one pass, against its meaning row by row. */
  method Normalize(name: string, results: seq<ScanResult>) returns (r: Scanned)
    ensures r == ScannedOf(name, RowsOf(results))
    ensures Numbers(r, Found(results)) && Lists(r, Found(results))
  {
    var rows: seq<Row> := [];
    var pass := START;
    for i := 0 to |results|
      invariant pass == PassOver(rows, Reader(name))
      invariant rows == RowsOf(results[..i])
    {
      RowsOfNext(results, i);
      rows, pass := EnterAll(name, rows, pass, results[i].vulnerabilities, results[i].target);
    }
    assert results[..|results|] == results;
    r := Assemble(name, rows, pass);
    NumbersTell(name, results);
    ListsTell(name, results);
  }

  // ---------------------------------------------- what the result says of the input

  function HowMany(found: seq<(Vulnerability, Option<string>)>, s: Severity): nat {
    if found == [] then 0
    else HowMany(found[..|found| - 1], s) + if RatedAs(found[|found| - 1].0, s) then 1 else 0
  }

  function HowManyFixed(found: seq<(Vulnerability, Option<string>)>, s: Severity): nat {
    if found == [] then 0
    else
      var v := found[|found| - 1].0;
      HowManyFixed(found[..|found| - 1], s) + if RatedAs(v, s) && Fixed(v) then 1 else 0
  }

  /** The rows of the critical and high vulnerabilities, with a fixed version or without. */
  function Picked(rows: seq<Row>, found: seq<(Vulnerability, Option<string>)>, fixed: bool): seq<Row>
    requires |rows| == |found|
  {
    if rows == [] then []
    else
      var v := found[0].0;
      (if (RatedAs(v, Critical) || RatedAs(v, High)) && Fixed(v) == fixed then [rows[0]] else [])
      + Picked(rows[1..], found[1..], fixed)
  }

  predicate AllHold(rows: seq<Row>, found: seq<(Vulnerability, Option<string>)>) {
    |rows| == |found| && forall k :: 0 <= k < |rows| ==> Holds(rows[k], found[k].0, found[k].1)
  }

  predicate Numbers(r: Scanned, found: seq<(Vulnerability, Option<string>)>) {
    && r.bySeverity == Counts(HowMany(found, Critical), HowMany(found, High), HowMany(found, Medium),
                              HowMany(found, Low), HowMany(found, Unknown))
    && r.image.fixAvailable == Some(RawCounts(Some(HowManyFixed(found, Critical)), Some(HowManyFixed(found, High)),
                                              Some(HowManyFixed(found, Medium)), Some(HowManyFixed(found, Low))))
    && r.image.unknown == Some(HowMany(found, Unknown))
    && r.image.unknownFixAvailable == Some(HowManyFixed(found, Unknown))
    && r.total == |found|
  }

  /** Rows for exactly what was found, in the canonical order, and in the two lists
      exactly the critical and high ones with and without a fixed version. */
  ghost predicate Lists(r: Scanned, found: seq<(Vulnerability, Option<string>)>) {
    && r.image.occurrences.Rows? && r.image.fixable.Some?
    && Sorted(r.image.occurrences.rows, RowKey) && Sorted(r.image.fixable.value, RowKey) && Sorted(r.unfixed, RowKey)
    && exists rows ::
         && AllHold(rows, found) && multiset(r.image.occurrences.rows) == multiset(rows)
         && multiset(r.image.fixable.value) == multiset(Picked(rows, found, true))
         && multiset(r.unfixed) == multiset(Picked(rows, found, false))
  }

  lemma ReadAsRated(name: string, v: Vulnerability, target: Option<string>, s: Severity)
    ensures var f := Read(name, Listed(v, target));
            && (f.severity == s <==> RatedAs(v, s)) && (f.fixed != "" <==> Fixed(v))
  {
    hide Holds, RatedAs, Read;
    ListedReads(v, target, name);
    RatedMeans(v, s);
    ListedHolds(v, target);
  }

  lemma {:induction false} NumbersOfRows(name: string, rows: seq<Row>, found: seq<(Vulnerability, Option<string>)>,
                                         s: Severity)
    requires Rows1To1(rows, found)
    ensures Count(Mapped(rows, Reader(name)), Of(s)) == HowMany(found, s)
    ensures Count(Mapped(rows, Reader(name)), FixOf(s)) == HowManyFixed(found, s)
  {
    hide Count, Listed, RatedAs, Read;
    if rows != [] {
      var n := |rows| - 1;
      NumbersOfRows(name, rows[..n], found[..n], s);
      assert Mapped(rows, Reader(name)) == Mapped(rows[..n], Reader(name)) + [Reader(name)(rows[n])];
      CountAppend(Mapped(rows[..n], Reader(name)), Reader(name)(rows[n]), s);
      ReadAsRated(name, found[n].0, found[n].1, s);
    } else {
      assert Mapped(rows, Reader(name)) == [];
      NothingCounts(s);
    }
  }

  lemma NothingCounts(s: Severity)
    ensures Count([], Of(s)) == 0 && Count([], FixOf(s)) == 0
  {
  }

  lemma {:induction false} PickedRows(name: string, rows: seq<Row>, found: seq<(Vulnerability, Option<string>)>)
    requires Rows1To1(rows, found)
    ensures RowsWhere(rows, ReadsAs(Reader(name), UrgentFix)) == Picked(rows, found, true)
    ensures RowsWhere(rows, ReadsAs(Reader(name), UrgentUnfixed)) == Picked(rows, found, false)
  {
    hide Listed, RatedAs, Read;
    if rows != [] {
      PickedRows(name, rows[1..], found[1..]);
      ReadAsRated(name, found[0].0, found[0].1, Critical);
      ReadAsRated(name, found[0].0, found[0].1, High);
    }
  }

  lemma NumbersTell(name: string, results: seq<ScanResult>)
    ensures Numbers(ScannedOf(name, RowsOf(results)), Found(results))
  {
    hide Listed, RatedAs, Read, Count;
    var rows, found := RowsOf(results), Found(results);
    RowsOfMean(results);
    PassMeans(rows, Reader(name));
    forall s
      ensures Count(Mapped(rows, Reader(name)), Of(s)) == HowMany(found, s)
      ensures Count(Mapped(rows, Reader(name)), FixOf(s)) == HowManyFixed(found, s)
    {
      NumbersOfRows(name, rows, found, s);
    }
    OneRating(found);
  }

  lemma {:induction false} OneRating(found: seq<(Vulnerability, Option<string>)>)
    ensures HowMany(found, Critical) + HowMany(found, High) + HowMany(found, Medium) + HowMany(found, Low)
            + HowMany(found, Unknown) == |found|
  {
    if found != [] {
      var n := |found| - 1;
      OneRating(found[..n]);
      RatedOnce(found[n].0);
    }
  }

  lemma RatedOnce(v: Vulnerability)
    ensures forall s :: RatedAs(v, s) <==> s == Rated(v)
  {
    forall s ensures RatedAs(v, s) <==> s == Rated(v) {
      RatedMeans(v, s);
    }
  }

  lemma ListsTell(name: string, results: seq<ScanResult>)
    ensures Lists(ScannedOf(name, RowsOf(results)), Found(results))
  {
    hide Holds, Listed, RatedAs, Read;
    var rows, found := RowsOf(results), Found(results);
    RowsOfMean(results);
    PassMeans(rows, Reader(name));
    PickedRows(name, rows, found);
    SortSorts(rows, RowKey);
    SortSorts(Picked(rows, found, true), RowKey);
    SortSorts(Picked(rows, found, false), RowKey);
    forall k | 0 <= k < |rows| ensures Holds(rows[k], found[k].0, found[k].1) {
      ListedHolds(found[k].0, found[k].1);
    }
    assert AllHold(rows, found);
  }

  // ------------------------------------------------- what the consumer makes of it

  lemma {:induction false} WhereMapped(rows: seq<Row>, read: Row -> Finding, p: Finding -> bool)
    ensures Where(Mapped(rows, read), p) == Mapped(RowsWhere(rows, ReadsAs(read, p)), read)
  {
    if rows != [] {
      WhereMapped(rows[1..], read, p);
      assert Mapped(rows, read)[1..] == Mapped(rows[1..], read);
    }
  }

  lemma {:induction false} RowsWhereMembers(rows: seq<Row>, p: Row -> bool)
    ensures forall row :: row in RowsWhere(rows, p) ==> row in rows && p(row)
  {
    if rows != [] {
      RowsWhereMembers(rows[1..], p);
    }
  }

  lemma AllByMultiset(a: seq<Row>, b: seq<Row>, ok: Row -> bool)
    requires multiset(a) == multiset(b)
    ensures All(a, ok) <==> All(b, ok)
  {
    assert forall row :: row in a <==> row in multiset(a);
    assert forall row :: row in b <==> row in multiset(b);
    assert All(a, ok) <==> forall row :: row in a ==> ok(row);
    assert All(b, ok) <==> forall row :: row in b ==> ok(row);
  }

  lemma UrgentRowsAreFilled(image: string, row: Row)
    requires OccurrenceRow(row) && UrgentFix(Read(image, row))
    ensures UrgentRow(row)
  {
  }

  /** Sorting moves rows, and nothing that is counted over them. */
  lemma SortedReads(rows: seq<Row>, read: Row -> Finding, p: Finding -> bool)
    ensures multiset(Where(Mapped(Sort(rows, RowKey), read), p)) == multiset(Where(Mapped(rows, read), p))
    ensures Count(Mapped(Sort(rows, RowKey), read), p) == Count(Mapped(rows, read), p)
  {
    MappedMultiset(Sort(rows, RowKey), rows, read);
    CountByMultiset(Mapped(Sort(rows, RowKey), read), Mapped(rows, read), p);
  }

  /** The declared fixes of an image are those that its own evidence shows. */
  predicate Declared(s: Scanned) {
    && s.fixes.critical == Count(Fixable(s.image), Of(Critical))
    && s.fixes.high == Count(Fixable(s.image), Of(High))
    && s.fixes.medium == Count(Occurrences(s.image), FixOf(Medium))
    && s.fixes.low == Count(Occurrences(s.image), FixOf(Low))
  }

  lemma UrgentListAgrees(name: string, rows: seq<Row>)
    ensures var image := ScannedOf(name, rows).image;
            multiset(Where(Occurrences(image), UrgentFix)) == multiset(Fixable(image))
  {
    var read := Reader(name);
    PassMeans(rows, read);
    var fixable := RowsWhere(rows, ReadsAs(read, UrgentFix));
    SortedReads(rows, read, UrgentFix);
    WhereMapped(rows, read, UrgentFix);
    MappedMultiset(Sort(fixable, RowKey), fixable, read);
  }

  lemma UrgentCountAgrees(name: string, rows: seq<Row>, s: Severity)
    requires Urgent(s)
    ensures Count(Fixable(ScannedOf(name, rows).image), Of(s)) == Count(Mapped(rows, Reader(name)), FixOf(s))
  {
    var image := ScannedOf(name, rows).image;
    UrgentListAgrees(name, rows);
    CountByMultiset(Where(Occurrences(image), UrgentFix), Fixable(image), Of(s));
    WhereWhere(Occurrences(image), UrgentFix, Of(s), FixOf(s));
    SortedReads(rows, Reader(name), FixOf(s));
  }

  lemma ScannedDeclares(name: string, rows: seq<Row>)
    ensures Declared(ScannedOf(name, rows))
  {
    PassMeans(rows, Reader(name));
    UrgentCountAgrees(name, rows, Critical);
    UrgentCountAgrees(name, rows, High);
    SortedReads(rows, Reader(name), FixOf(Medium));
    SortedReads(rows, Reader(name), FixOf(Low));
  }

  /** An image's evidence holds up exactly when none of its rows has a blank field. */
  lemma EvidenceOkIffFilled(name: string, rows: seq<Row>)
    ensures EvidenceOk(ScannedOf(name, rows).image) <==> All(rows, OccurrenceRow)
  {
    var read := Reader(name);
    PassMeans(rows, read);
    UrgentListAgrees(name, rows);
    AllByMultiset(Sort(rows, RowKey), rows, OccurrenceRow);
    SortedReads(rows, read, FixOf(Medium));
    SortedReads(rows, read, FixOf(Low));
    SortedReads(rows, read, Of(Unknown));
    SortedReads(rows, read, FixOf(Unknown));
  }

  lemma FilledIsFixableOk(name: string, rows: seq<Row>)
    requires All(rows, OccurrenceRow)
    ensures FixableOk(ScannedOf(name, rows).image)
  {
    PassMeans(rows, Reader(name));
    var p := ReadsAs(Reader(name), UrgentFix);
    var fixable := RowsWhere(rows, p);
    RowsWhereMembers(rows, p);
    forall i | 0 <= i < |fixable| ensures UrgentRow(fixable[i]) {
      assert fixable[i] in rows && p(fixable[i]);
      UrgentRowsAreFilled(name, fixable[i]);
    }
    AllByMultiset(Sort(fixable, RowKey), fixable, UrgentRow);
  }

  // --------------------------------------------------------------- whole report

  /** One image to scan: its label, and what the scanner gave for it, if it worked. */
  datatype Spec = Spec(name: string, scan: Option<seq<ScanResult>>)

  function ScanOf(spec: Spec): Scanned {
    ScannedOf(spec.name, RowsOf(spec.scan.GetOr([])))
  }

  function ImageOf(spec: Spec): Image {
    ScanOf(spec).image
  }

  predicate Worked(spec: Spec) {
    spec.scan.Some?
  }

  predicate Filled(spec: Spec) {
    All(RowsOf(spec.scan.GetOr([])), OccurrenceRow)
  }

  predicate Each<T>(xs: seq<T>, ok: T -> bool) {
    forall i :: 0 <= i < |xs| ==> ok(xs[i])
  }

  lemma EachAppend<T>(xs: seq<T>, x: T, ok: T -> bool)
    ensures Each(xs + [x], ok) <==> Each(xs, ok) && ok(x)
  {
    if Each(xs + [x], ok) {
      assert forall i :: 0 <= i < |xs| ==> (xs + [x])[i] == xs[i];
      assert (xs + [x])[|xs|] == x;
    }
  }

  /** All scans worked, under labels that differ, and none of them lists a blank. */
  predicate GoodScans(specs: seq<Spec>) {
    && Each(specs, Worked) && Each(specs, Filled)
    && forall i, j :: 0 <= i < j < |specs| ==> specs[i].name != specs[j].name
  }

  lemma SpecIff(spec: Spec)
    ensures ImageOf(spec).name == Some(spec.name)
    ensures EvidenceOk(ImageOf(spec)) <==> Filled(spec)
    ensures Filled(spec) ==> FixableOk(ImageOf(spec))
  {
    var rows := RowsOf(spec.scan.GetOr([]));
    EvidenceOkIffFilled(spec.name, rows);
    if All(rows, OccurrenceRow) {
      FilledIsFixableOk(spec.name, rows);
    }
  }

  /** Two checks that agree image by image agree on all of them. */
  lemma EachAgrees(specs: seq<Spec>, of: Spec -> Image, a: Spec -> bool, b: Image -> bool)
    requires forall i :: 0 <= i < |specs| ==> (a(specs[i]) <==> b(of(specs[i])))
    ensures Each(specs, a) <==> Every(Mapped(specs, of), b)
  {
    var images := Mapped(specs, of);
    assert forall i :: 0 <= i < |specs| ==> (a(specs[i]) <==> b(images[i]));
  }

  lemma NamesAgree(specs: seq<Spec>, of: Spec -> Image)
    requires forall i :: 0 <= i < |specs| ==> specs[i].name != "" && of(specs[i]).name == Some(specs[i].name)
    ensures NamesOk(Mapped(specs, of)) <==> forall i, j :: 0 <= i < j < |specs| ==> specs[i].name != specs[j].name
  {
  }

  lemma GoodScansIffImagesOk(specs: seq<Spec>)
    requires forall i :: 0 <= i < |specs| ==> specs[i].name != "" && specs[i].scan.Some?
    ensures var images := Mapped(specs, ImageOf);
            GoodScans(specs) <==> NamesOk(images) && Every(images, FixableOk) && Every(images, EvidenceOk)
  {
    forall i | 0 <= i < |specs|
      ensures ImageOf(specs[i]).name == Some(specs[i].name)
      ensures Filled(specs[i]) <==> EvidenceOk(ImageOf(specs[i])) && FixableOk(ImageOf(specs[i]))
    {
      SpecIff(specs[i]);
    }
    NamesAgree(specs, ImageOf);
    var both := (image: Image) => EvidenceOk(image) && FixableOk(image);
    EachAgrees(specs, ImageOf, Filled, both);
    EveryBoth(Mapped(specs, ImageOf), EvidenceOk, FixableOk, both);
  }

  lemma EveryBoth(images: seq<Image>, a: Image -> bool, b: Image -> bool, both: Image -> bool)
    requires forall image :: both(image) <==> a(image) && b(image)
    ensures Every(images, both) <==> Every(images, a) && Every(images, b)
  {
  }

  /** The sums over images that the consumer will recompute from the evidence. */
  predicate SumsUpTo(raw: Counts, images: seq<Image>) {
    && raw.critical == Count(Flat(images, Fixable), Of(Critical))
    && raw.high == Count(Flat(images, Fixable), Of(High))
    && raw.medium == Count(Flat(images, Occurrences), FixOf(Medium))
    && raw.low == Count(Flat(images, Occurrences), FixOf(Low))
  }

  function Plus(a: Counts, b: Counts): Counts {
    Counts(a.critical + b.critical, a.high + b.high, a.medium + b.medium, a.low + b.low, a.unknown + b.unknown)
  }

  lemma CountFlatAppend(images: seq<Image>, image: Image, part: Image -> seq<Finding>, p: Finding -> bool)
    ensures Count(Flat(images + [image], part), p) == Count(Flat(images, part), p) + Count(part(image), p)
  {
    FlatConcat(images, [image], part);
    assert Flat([image], part) == part(image);
    WhereConcat(Flat(images, part), part(image), p);
  }

  lemma SumsAppend(raw: Counts, images: seq<Image>, s: Scanned)
    requires SumsUpTo(raw, images) && Declared(s)
    ensures SumsUpTo(Plus(raw, s.fixes), images + [s.image])
  {
    CountFlatAppend(images, s.image, Fixable, Of(Critical));
    CountFlatAppend(images, s.image, Fixable, Of(High));
    CountFlatAppend(images, s.image, Occurrences, FixOf(Medium));
    CountFlatAppend(images, s.image, Occurrences, FixOf(Low));
  }

  /** The scanning loop of `build_report`: a failed scan is an error, and the rest go on. */
  method ScanAll(specs: seq<Spec>) returns (images: seq<Scanned>, errors: seq<string>)
    ensures Scans(specs, images, errors)
  {
    images, errors := [], [];
    for i := 0 to |specs|
      invariant Scans(specs[..i], images, errors)
    {
      images, errors := ScanNext(specs[..i], specs[i], images, errors);
      assert specs[..i + 1] == specs[..i] + [specs[i]];
    }
    assert specs[..|specs|] == specs;
  }

  /** One turn of the loop. */
  method ScanNext(ghost specs: seq<Spec>, spec: Spec, images: seq<Scanned>, errors: seq<string>)
    returns (images': seq<Scanned>, errors': seq<string>)
    requires Scans(specs, images, errors)
    ensures Scans(specs + [spec], images', errors')
  {
    images', errors' := images, errors;
    if spec.scan.None? {
      OneError(specs, spec, images, errors);
      errors' := errors + [spec.name];
    } else {
      var scanned := ScanOne(spec);
      OneScan(specs, spec, images, errors, scanned);
      images' := images + [scanned];
    }
  }

  /** No error exactly when every scan worked, and then their images in order. */
  predicate Scans(specs: seq<Spec>, images: seq<Scanned>, errors: seq<string>) {
    && (errors == [] <==> Each(specs, Worked))
    && (errors == [] ==> ImagesOf(images) == Mapped(specs, ImageOf))
    && Each(images, Declared) && |images| + |errors| == |specs|
  }

  lemma OneError(specs: seq<Spec>, spec: Spec, images: seq<Scanned>, errors: seq<string>)
    requires Scans(specs, images, errors) && !Worked(spec)
    ensures Scans(specs + [spec], images, errors + [spec.name])
  {
    EachAppend(specs, spec, Worked);
  }

  lemma OneScan(specs: seq<Spec>, spec: Spec, images: seq<Scanned>, errors: seq<string>, scanned: Scanned)
    requires Scans(specs, images, errors) && Worked(spec) && Declared(scanned) && scanned.image == ImageOf(spec)
    ensures Scans(specs + [spec], images + [scanned], errors)
  {
    EachAppend(specs, spec, Worked);
    ScannedAppend(specs, spec, images, scanned);
  }

  method ScanOne(spec: Spec) returns (r: Scanned)
    requires spec.scan.Some?
    ensures Declared(r) && r.image == ImageOf(spec)
  {
    r := Normalize(spec.name, spec.scan.value);
    ScannedDeclares(spec.name, RowsOf(spec.scan.value));
  }

  lemma MappedAppend<T, U>(xs: seq<T>, x: T, f: T -> U)
    ensures Mapped(xs + [x], f) == Mapped(xs, f) + [f(x)]
  {
  }

  function ImagesOf(scans: seq<Scanned>): seq<Image> {
    if scans == [] then [] else ImagesOf(scans[..|scans| - 1]) + [scans[|scans| - 1].image]
  }

  lemma ScannedAppend(specs: seq<Spec>, spec: Spec, images: seq<Scanned>, scanned: Scanned)
    requires Each(images, Declared) && Declared(scanned) && scanned.image == ImageOf(spec)
    ensures Each(images + [scanned], Declared)
    ensures ImagesOf(images + [scanned]) == ImagesOf(images) + [ImageOf(spec)]
    ensures Mapped(specs + [spec], ImageOf) == Mapped(specs, ImageOf) + [ImageOf(spec)]
  {
    EachAppend(images, scanned, Declared);
    MappedAppend(specs, spec, ImageOf);
    assert (images + [scanned])[..|images|] == images;
  }

  /** The counting loop of `build_report`. */
  method SumFixes(images: seq<Scanned>) returns (raw: Counts)
    requires Each(images, Declared)
    ensures SumsUpTo(raw, ImagesOf(images))
  {
    raw := Counts(0, 0, 0, 0, 0);
    for i := 0 to |images|
      invariant SumsUpTo(raw, ImagesOf(images[..i]))
    {
      assert images[..i + 1][..i] == images[..i];
      raw := AddFixes(raw, ImagesOf(images[..i]), images[i]);
    }
    assert images[..|images|] == images;
  }

  method AddFixes(raw: Counts, ghost images: seq<Image>, s: Scanned) returns (r: Counts)
    requires SumsUpTo(raw, images) && Declared(s)
    ensures SumsUpTo(r, images + [s.image])
  {
    SumsAppend(raw, images, s);
    r := Plus(raw, s.fixes);
  }

  /** One specification as it is given, and what the scanner answered for it, if it worked. */
  datatype Job = Job(text: string, scan: Option<seq<ScanResult>>)

  function TextsOf(jobs: seq<Job>): seq<string> {
    seq(|jobs|, i requires 0 <= i < |jobs| => jobs[i].text)
  }

  function SpecsOf(jobs: seq<Job>): seq<Spec> {
    seq(|jobs|, i requires 0 <= i < |jobs| => Spec(LabelOf(jobs[i].text), jobs[i].scan))
  }

  lemma ReadableJobsAreNamed(jobs: seq<Job>)
    requires forall i :: 0 <= i < |jobs| ==> SpecOk(TextsOf(jobs)[i])
    ensures forall i :: 0 <= i < |jobs| ==> SpecsOf(jobs)[i].name != ""
  {
    forall i | 0 <= i < |jobs| ensures SpecsOf(jobs)[i].name != "" {
      assert SpecOk(TextsOf(jobs)[i]);
    }
  }

  /** `build_report`. It refuses what cannot be read; what it builds is accepted as a
      production report exactly when it was built as one, with the dead-man attested,
      from scans that all worked under different labels and list nothing blank. */
  method BuildReport(
    jobs: seq<Job>, origins: seq<string>, scope: string, deadMan: bool, generatedAt: string, revision: string)
    returns (r: Result<Report>)
    ensures r.Ok? <==> AllSpecsOk(TextsOf(jobs), origins)
    ensures r.Ok? ==>
              && r.value.body.generatedAt == generatedAt && r.value.body.sourceRevision == revision
              && r.value.body.scope == scope && r.value.body.deadMan == deadMan && r.value.seal == Some(r.value.body)
              && (r.value.body.complete <==> forall i :: 0 <= i < |jobs| ==> jobs[i].scan.Some?)
    ensures r.Ok? ==>
              (Acceptable(r.value, PRODUCTION, true) <==> scope == PRODUCTION && deadMan && GoodScans(SpecsOf(jobs)))
  {
    var labels := CheckSpecs(TextsOf(jobs), origins);
    if labels.Error? {
      return Error(labels.reason);
    }
    ReadableJobsAreNamed(jobs);
    var built := ScanAndCount(SpecsOf(jobs), scope, deadMan, generatedAt, revision);
    assert forall i :: 0 <= i < |jobs| ==> (Worked(SpecsOf(jobs)[i]) <==> jobs[i].scan.Some?);
    r := Ok(built);
  }

  /** Everything behind the specifications. */
  method ScanAndCount(specs: seq<Spec>, scope: string, deadMan: bool, generatedAt: string, revision: string)
    returns (r: Report)
    requires forall i :: 0 <= i < |specs| ==> specs[i].name != ""
    ensures Acceptable(r, PRODUCTION, true) <==> scope == PRODUCTION && deadMan && GoodScans(specs)
    ensures r.body.generatedAt == generatedAt && r.body.sourceRevision == revision
    ensures r.body.scope == scope && r.body.deadMan == deadMan && r.seal == Some(r.body)
    ensures r.body.complete <==> Each(specs, Worked)
  {
    var scanned, errors := ScanAll(specs);
    var raw := SumFixes(scanned);
    var images := ImagesOf(scanned);
    var body := Body(SCHEMA, scope, errors == [] && |scanned| == |specs|, errors, deadMan, generatedAt, revision,
                     Some(RawCounts(Some(raw.critical), Some(raw.high), Some(raw.medium), Some(raw.low))),
                     Some(images));
    if errors == [] {
      assert forall i :: 0 <= i < |specs| ==> Worked(specs[i]);
      GoodScansIffImagesOk(specs);
    }
    r := Report(body, Some(body));
    AcceptedIff(r, raw);
  }

  /** With the sums right, acceptance is down to the header, the labels and the rows. */
  lemma AcceptedIff(r: Report, raw: Counts)
    requires r.seal == Some(r.body) && r.body.schema == SCHEMA && r.body.images.Some?
    requires r.body.fixAvailable == Some(RawCounts(Some(raw.critical), Some(raw.high), Some(raw.medium), Some(raw.low)))
    requires SumsUpTo(raw, r.body.images.value)
    ensures var images := r.body.images.value;
            Acceptable(r, PRODUCTION, true) <==>
              && r.body.scope == PRODUCTION && r.body.complete && r.body.errors == [] && r.body.deadMan
              && NamesOk(images) && Every(images, FixableOk) && Every(images, EvidenceOk)
  {
    assert PRODUCTION[0] == 'p' && DRY_RUN[0] == 'c';
  }
}
