/** What a validated scan report means, and the rebuild trigger made from it. */
module Remediation {
  import opened Outcomes
  import opened Ordering
  import opened ReportMeaning
  import opened ScanReports
  import opened Sequences
  import opened Text

  // ---------------------------------------------- filters, counts and multisets

  lemma {:induction false} WhereMultiset(fs: seq<Finding>, p: Finding -> bool, x: Finding)
    ensures multiset(Where(fs, p))[x] == if p(x) then multiset(fs)[x] else 0
  {
    if fs != [] {
      WhereMultiset(fs[1..], p, x);
      assert fs == [fs[0]] + fs[1..];
    }
  }

  lemma CountByMultiset(a: seq<Finding>, b: seq<Finding>, p: Finding -> bool)
    requires multiset(a) == multiset(b)
    ensures multiset(Where(a, p)) == multiset(Where(b, p)) && Count(a, p) == Count(b, p)
  {
    forall x ensures multiset(Where(a, p))[x] == multiset(Where(b, p))[x] {
      WhereMultiset(a, p, x);
      WhereMultiset(b, p, x);
    }
    assert |multiset(Where(a, p))| == |Where(a, p)| && |multiset(Where(b, p))| == |Where(b, p)|;
  }

  lemma {:induction false} WhereWhere(fs: seq<Finding>, p: Finding -> bool, q: Finding -> bool, both: Finding -> bool)
    requires forall f :: both(f) == (p(f) && q(f))
    ensures Where(Where(fs, p), q) == Where(fs, both)
  {
    if fs != [] {
      WhereWhere(fs[1..], p, q, both);
      WhereConcat(if p(fs[0]) then [fs[0]] else [], Where(fs[1..], p), q);
    }
  }

  lemma FixesSplit(fs: seq<Finding>)
    ensures multiset(Where(fs, UrgentFix)) + multiset(Where(fs, OtherFix)) == multiset(Where(fs, HasFix))
  {
    forall x
      ensures multiset(Where(fs, UrgentFix))[x] + multiset(Where(fs, OtherFix))[x] == multiset(Where(fs, HasFix))[x]
    {
      WhereMultiset(fs, UrgentFix, x);
      WhereMultiset(fs, OtherFix, x);
      WhereMultiset(fs, HasFix, x);
    }
  }

  lemma {:induction false} UrgentAcrossImages(images: seq<Image>)
    requires Every(images, EvidenceOk)
    ensures multiset(Flat(images, Fixable)) == multiset(Where(Flat(images, Occurrences), UrgentFix))
  {
    if images != [] {
      assert EvidenceOk(images[0]);
      UrgentAcrossImages(images[1..]);
      WhereConcat(Occurrences(images[0]), Flat(images[1..], Occurrences), UrgentFix);
    }
  }

  lemma {:induction false} CountsCoverAll(fs: seq<Finding>)
    ensures |fs| == Count(fs, Of(Critical)) + Count(fs, Of(High)) + Count(fs, Of(Medium)) + Count(fs, Of(Low))
                    + Count(fs, Of(Unknown))
  {
    if fs != [] {
      CountsCoverAll(fs[1..]);
    }
  }

  function CountOf(c: Counts, s: Severity): nat {
    match s
    case Critical => c.critical
    case High => c.high
    case Medium => c.medium
    case Low => c.low
    case Unknown => c.unknown
  }

  lemma WorkMultiset(images: seq<Image>)
    requires Every(images, EvidenceOk)
    ensures multiset(Work(images, true)) == multiset(Where(Flat(images, Occurrences), HasFix))
  {
    UrgentAcrossImages(images);
    FixesSplit(Flat(images, Occurrences));
  }

  lemma WorkCount(images: seq<Image>, s: Severity)
    requires Every(images, EvidenceOk)
    ensures CountOf(Totals(images, true), s) == Count(Work(images, true), Of(s))
    ensures Count(Work(images, true), Of(s)) == Count(Flat(images, Occurrences), FixOf(s))
  {
    var fixes, all := Flat(images, Fixable), Flat(images, Occurrences);
    WorkMultiset(images);
    CountByMultiset(Work(images, true), Where(all, HasFix), Of(s));
    WhereWhere(all, HasFix, Of(s), FixOf(s));
    if Urgent(s) {
      UrgentAcrossImages(images);
      CountByMultiset(fixes, Where(all, UrgentFix), Of(s));
      WhereWhere(all, UrgentFix, Of(s), FixOf(s));
    }
  }

  /** Counts by severity that are those of a list of findings. */
  ghost predicate CountsAre(c: Counts, fs: seq<Finding>) {
    && c.critical == Count(fs, Of(Critical)) && c.high == Count(fs, Of(High)) && c.medium == Count(fs, Of(Medium))
    && c.low == Count(fs, Of(Low)) && c.unknown == Count(fs, Of(Unknown))
  }

  lemma WorkTotals(images: seq<Image>)
    requires Every(images, EvidenceOk)
    ensures CountsAre(Totals(images, true), Work(images, true))
  {
    WorkCount(images, Critical);
    WorkCount(images, High);
    WorkCount(images, Medium);
    WorkCount(images, Low);
    WorkCount(images, Unknown);
  }

  /** A report accepted on its occurrences asks for exactly the occurrences that have
      a fix, each as often as it occurs, and its counts are theirs. */
  lemma WorkIsTheFixableOccurrences(r: Report, scope: string, deadMan: bool)
    requires Acceptable(r, scope, deadMan) && EvidenceDue(r.body.images.value, scope)
    ensures var images := r.body.images.value;
            var (work, totals) := (Work(images, true), Totals(images, true));
            && multiset(work) == multiset(Where(Flat(images, Occurrences), HasFix))
            && CountsAre(totals, work)
            && totals.critical + totals.high + totals.medium + totals.low + totals.unknown == |work|
  {
    WorkMultiset(r.body.images.value);
    WorkTotals(r.body.images.value);
    CountsCoverAll(Work(r.body.images.value, true));
  }

  // -------------------------------------------------------------- rearrangement

  /** Image by image, the same rows in another order. */
  predicate Reshuffled(a: seq<Image>, b: seq<Image>) {
    && |a| == |b|
    && forall i :: 0 <= i < |a| ==>
         a[i].name == b[i].name && a[i].occurrences.Rows? && b[i].occurrences.Rows? &&
         multiset(a[i].occurrences.rows) == multiset(b[i].occurrences.rows)
  }

  lemma {:induction false} ReshuffledOccurrences(a: seq<Image>, b: seq<Image>)
    requires Reshuffled(a, b)
    ensures multiset(Flat(a, Occurrences)) == multiset(Flat(b, Occurrences))
  {
    if a != [] {
      MappedMultiset(a[0].occurrences.rows, b[0].occurrences.rows, Reader(NameOf(a[0])));
      ReshuffledOccurrences(a[1..], b[1..]);
    }
  }

  /** The findings and the counts depend on the occurrences as a multiset only. */
  lemma WorkIsCanonical(r: Report, r': Report, scope: string, deadMan: bool)
    requires Acceptable(r, scope, deadMan) && Acceptable(r', scope, deadMan)
    requires EvidenceDue(r.body.images.value, scope) && EvidenceDue(r'.body.images.value, scope)
    requires multiset(Flat(r.body.images.value, Occurrences)) == multiset(Flat(r'.body.images.value, Occurrences))
    ensures Work(r.body.images.value, true) == Work(r'.body.images.value, true)
    ensures Totals(r.body.images.value, true) == Totals(r'.body.images.value, true)
  {
    var (a, b) := (r.body.images.value, r'.body.images.value);
    WorkIsTheFixableOccurrences(r, scope, deadMan);
    WorkIsTheFixableOccurrences(r', scope, deadMan);
    CountByMultiset(Flat(a, Occurrences), Flat(b, Occurrences), HasFix);
    FindingKeyInjective();
    SortSorts(Flat(a, Fixable) + Where(Shown(a, true), OtherFix), FindingKey);
    SortSorts(Flat(b, Fixable) + Where(Shown(b, true), OtherFix), FindingKey);
    SortedIsUnique(Work(a, true), Work(b, true), FindingKey);
  }

  // -------------------------------------------------------------------- trigger

  const TRIGGER_SCHEMA := "C3PO_CONTAINER_REMEDIATION_TRIGGER-v1"
  const GITHUB := "https://github.com/"

  /** The deduplication key: what is hashed, as the hash is taken to be injective. */
  datatype RemediationKey = RemediationKey(counts: Counts, findings: seq<Finding>)

  datatype Trigger = Trigger(
    schema: string, key: RemediationKey, generatedAt: string, sourceRevision: string, seal: Option<Body>,
    runUrl: string, artifactName: string, dryRun: bool, scope: string,
    counts: Counts, total: nat, findings: seq<Finding>)

  /** `build_trigger` */
  function BuildTrigger(r: Report, v: Validated, runUrl: string, artifactName: string, dryRun: bool): Result<Trigger> {
    if r.body.generatedAt == "" then Error("generated_at must be a non-empty string")
    else if r.body.sourceRevision == "" then Error("source_revision must be a non-empty string")
    else if !Stands(runUrl, 0, GITHUB) then Error("run_url must be an HTTPS GitHub URL")
    else if artifactName == "" then Error("artifact_name must not be empty")
    else
      var c := v.counts;
      Ok(Trigger(TRIGGER_SCHEMA, RemediationKey(c, v.findings), r.body.generatedAt, r.body.sourceRevision, r.seal,
                 runUrl, artifactName, dryRun, r.body.scope,
                 c, c.critical + c.high + c.medium + c.low + c.unknown, v.findings))
  }

  function ValidatedOf(r: Report): Validated
    requires Acceptable(r, PRODUCTION, true)
  {
    Validated(Totals(r.body.images.value, true), Work(r.body.images.value, true))
  }

  /** What is asked of a trigger, next to the one that the report on the host would make. */
  predicate Matches(t: Trigger, expected: Trigger, main: string) {
    && expected.findings != [] && !t.dryRun && t.sourceRevision == main
    && t.schema == expected.schema && t.key == expected.key && t.scope == expected.scope
    && t.counts == expected.counts && t.total == expected.total && t.findings == expected.findings
  }

  /** The container half of `validated_candidate`, against the report now on the host.
      An error is no refusal: it is not caught there and ends the cycle. */
  function Stand(t: Trigger, r: Report, main: string): Result<bool> {
    if !Acceptable(r, PRODUCTION, true) then Error("the report on the host is refused")
    else
      match BuildTrigger(r, ValidatedOf(r), t.runUrl, t.artifactName, false)
      case Error(reason) => Error(reason)
      case Ok(expected) => Ok(Matches(t, expected, main))
  }

  /** The address stands on the forge itself. */
  predicate OnForge(url: string) {
    |url| >= 19 && url[..19] == "https://github.com/"
  }

  lemma OnForgeIff(url: string)
    ensures Stands(url, 0, GITHUB) <==> OnForge(url)
  {
    if Stands(url, 0, GITHUB) {
      assert forall i :: 0 <= i < 19 ==> url[..19][i] == url[0 + i];
    }
    if OnForge(url) {
      assert forall i :: 0 <= i < 19 ==> url[i] == url[..19][i];
    }
  }

  ghost predicate InOrder(findings: seq<Finding>) {
    forall i, j :: 0 <= i < j < |findings| ==> NotAfter(findings[i], findings[j])
  }

  lemma OneOrder(a: seq<Finding>, b: seq<Finding>)
    requires InOrder(a) && InOrder(b) && multiset(a) == multiset(b)
    ensures a == b
  {
    hide FindingKey, NotAfter;
    forall f: Finding, g: Finding ensures KeyLeq(FindingKey(f), FindingKey(g)) <==> NotAfter(f, g) {
      FindingKeyOrders(f, g);
    }
    FindingKeyInjective();
    SortedIsUnique(a, b, FindingKey);
  }

  /** How often a finding is to be named. */
  function Named(images: seq<Image>, f: Finding): nat {
    NumberListed(images, f) + OthersFound(images, f)
  }

  /** What a production report asks for, told from its rows. */
  ghost predicate AskedFor(images: seq<Image>, counts: Counts, findings: seq<Finding>) {
    && InOrder(findings) && (forall f: Finding :: multiset(findings)[f] == Named(images, f))
    && counts == Counts(TotalListed(images, Critical), TotalListed(images, High),
                        TotalFixed(images, Medium), TotalFixed(images, Low), TotalFixed(images, Unknown))
  }

  lemma DemandedRows(r: Report)
    requires Acceptable(r, PRODUCTION, true)
    ensures Every(r.body.images.value, FixableOk) && Every(r.body.images.value, OccurrencesOk)
  {
    hide FixableOk;
    forall i | 0 <= i < |r.body.images.value| ensures OccurrencesOk(r.body.images.value[i]) {
      assert EvidenceOk(r.body.images.value[i]);
    }
  }

  lemma WorkIsAsked(images: seq<Image>)
    requires Every(images, FixableOk) && Every(images, OccurrencesOk)
    ensures AskedFor(images, Totals(images, true), Work(images, true))
  {
    hide FixableOk, NotAfter, NumberListed, OccurrencesOk, OthersFound, TotalFixed, TotalListed, Totals, Work;
    WorkMeans(images, true);
    WorkIsOrdered(images, true);
  }

  /** There is one answer to what a report asks for, and the validation gives it. */
  lemma ValidatedMeans(r: Report, counts: Counts, findings: seq<Finding>)
    requires Acceptable(r, PRODUCTION, true)
    ensures ValidatedOf(r) == Validated(counts, findings) <==> AskedFor(r.body.images.value, counts, findings)
  {
    var images := r.body.images.value;
    DemandedRows(r);
    WorkIsAsked(images);
    hide Acceptable, InOrder, Named, TotalFixed, TotalListed, Totals, Work;
    if AskedFor(images, counts, findings) {
      assert multiset(findings) == multiset(Work(images, true));
      OneOrder(findings, Work(images, true));
    }
  }

  /** The trigger is for production, of this main, and asks for what the report asks for. */
  ghost predicate CalledFor(t: Trigger, r: Report, main: string)
    requires r.body.images.Some?
  {
    && t.schema == "C3PO_CONTAINER_REMEDIATION_TRIGGER-v1" && t.scope == r.body.scope
    && !t.dryRun && t.sourceRevision == main
    && AskedFor(r.body.images.value, t.counts, t.findings) && t.findings != []
    && t.total == t.counts.critical + t.counts.high + t.counts.medium + t.counts.low + t.counts.unknown
    && t.key == RemediationKey(t.counts, t.findings)
  }

  /** When a trigger stands, when it does not, and when there is no answer. */
  lemma StandMeans(t: Trigger, r: Report, main: string)
    ensures var answerable := && Demanded(r, "production_runtime", true) && r.body.generatedAt != ""
                              && r.body.sourceRevision != "" && OnForge(t.runUrl) && t.artifactName != "";
            && (Stand(t, r, main) == Ok(true) <==> answerable && CalledFor(t, r, main))
            && (Stand(t, r, main) == Ok(false) <==> answerable && !CalledFor(t, r, main))
            && (Stand(t, r, main).Error? <==> !answerable)
  {
    hide Acceptable, AskedFor, Stands, ValidatedOf;
    DemandedHasImages(r);
    AcceptableIff(r, PRODUCTION, true);
    OnForgeIff(t.runUrl);
    if Acceptable(r, PRODUCTION, true) {
      ValidatedMeans(r, t.counts, t.findings);
      var v := ValidatedOf(r);
      ValidatedMeans(r, v.counts, v.findings);
    }
  }

  lemma DemandedHasImages(r: Report)
    ensures Demanded(r, "production_runtime", true) ==> r.body.images.Some?
  {
  }

  /** A trigger is written exactly from a dated and named report, an address on the forge
      and a named artifact, and it says of each of them what was given. */
  lemma BuildTriggerMeans(r: Report, v: Validated, runUrl: string, artifactName: string, dryRun: bool)
    ensures var b := BuildTrigger(r, v, runUrl, artifactName, dryRun);
            && (b.Ok? <==>
                  r.body.generatedAt != "" && r.body.sourceRevision != "" && OnForge(runUrl) && artifactName != "")
            && (b.Ok? ==>
                  && b.value.generatedAt == r.body.generatedAt && b.value.sourceRevision == r.body.sourceRevision
                  && b.value.seal == r.seal && b.value.scope == r.body.scope && b.value.dryRun == dryRun
                  && b.value.runUrl == runUrl && b.value.artifactName == artifactName
                  && b.value.counts == v.counts && b.value.findings == v.findings)
  {
    hide Stands;
    OnForgeIff(runUrl);
  }

  /** The report says when and from what it was made. */
  predicate Dated(r: Report) {
    r.body.generatedAt != "" && r.body.sourceRevision != ""
  }

  lemma StandsIff(r: Report, r': Report, v: Validated, runUrl: string, artifactName: string, main: string)
    requires Acceptable(r', PRODUCTION, true) && ValidatedOf(r') == v && r.body.scope == r'.body.scope
    requires BuildTrigger(r, v, runUrl, artifactName, false).Ok?
    ensures var t := BuildTrigger(r, v, runUrl, artifactName, false).value;
            if Dated(r') then Stand(t, r', main) == Ok(r.body.sourceRevision == main && v.findings != [])
            else Stand(t, r', main).Error?
  {
    hide Acceptable, ValidatedOf;
  }

  lemma SameValidated(r: Report, r': Report, middle: seq<Image>)
    requires Acceptable(r, PRODUCTION, true) && Acceptable(r', PRODUCTION, true)
    requires Reshuffled(r.body.images.value, middle) && multiset(middle) == multiset(r'.body.images.value)
    ensures ValidatedOf(r) == ValidatedOf(r') && r.body.scope == r'.body.scope
    ensures ValidatedOf(r).findings != [] <==> Where(Flat(r.body.images.value, Occurrences), HasFix) != []
  {
    var images := r.body.images.value;
    ReshuffledOccurrences(images, middle);
    FlatMultiset(middle, r'.body.images.value, Occurrences);
    WorkIsCanonical(r, r', PRODUCTION, true);
    WorkIsTheFixableOccurrences(r, PRODUCTION, true);
    assert |multiset(Work(images, true))| == |Work(images, true)|;
    assert |multiset(Where(Flat(images, Occurrences), HasFix))| == |Where(Flat(images, Occurrences), HasFix)|;
  }

  /** A trigger made from one production report, against any other that shows the
      same occurrences in whatever order: if the other report is dated and named, it
      stands exactly when there is anything to remedy and main has not moved since;
      if not, the check fails instead of answering. */
  lemma TriggerSurvivesRearrangement(
    r: Report, r': Report, middle: seq<Image>, runUrl: string, artifactName: string, main: string)
    requires Acceptable(r, PRODUCTION, true) && Acceptable(r', PRODUCTION, true)
    requires Reshuffled(r.body.images.value, middle) && multiset(middle) == multiset(r'.body.images.value)
    requires BuildTrigger(r, ValidatedOf(r), runUrl, artifactName, false).Ok?
    ensures var t := BuildTrigger(r, ValidatedOf(r), runUrl, artifactName, false).value;
            if Dated(r') then
              Stand(t, r', main) ==
              Ok(r.body.sourceRevision == main && Where(Flat(r.body.images.value, Occurrences), HasFix) != [])
            else Stand(t, r', main).Error?
  {
    SameValidated(r, r', middle);
    StandsIff(r, r', ValidatedOf(r), runUrl, artifactName, main);
  }
}
