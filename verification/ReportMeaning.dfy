/** What it means for a scan report to be accepted, said of its rows as they are
    written: which characters a field holds, which word rates it, how many rows say
    the same. */
module ReportMeaning {
  import opened Outcomes
  import opened Ordering
  import opened ScanReports
  import opened Sequences
  import opened Text

  // ---------------------------------------------------------------- single rows

  function Word(s: Severity): string {
    match s
    case Critical => "critical"
    case High => "high"
    case Medium => "medium"
    case Low => "low"
    case Unknown => "unknown"
  }

  /** The field holds more than blanks. */
  predicate Written(field: Option<string>) {
    field.Some? && exists i :: 0 <= i < |field.value| && !Space(field.value[i])
  }

  /** The field holds this text, and blanks around it at most. */
  predicate Reads(field: Option<string>, text: string) {
    field.Some? && Trimmed(field.value, text)
  }

  /** Every field is there and only the fixed version may be blank; the rating is one of five words. */
  predicate GoodOccurrence(row: Row) {
    && Written(row.id) && Written(row.severity) && Written(row.package) && Written(row.installed) && Written(row.target)
    && row.fixed.Some?
    && (Reads(row.severity, "critical") || Reads(row.severity, "high") || Reads(row.severity, "medium")
        || Reads(row.severity, "low") || Reads(row.severity, "unknown"))
  }

  /** A row of the urgent list has a fixed version as well, and is rated critical or high. */
  predicate GoodUrgent(row: Row) {
    && Written(row.id) && Written(row.package) && Written(row.installed) && Written(row.target) && Written(row.fixed)
    && (Reads(row.severity, "critical") || Reads(row.severity, "high"))
  }

  /** The finding that the row describes. */
  predicate Describes(row: Row, image: string, f: Finding) {
    && f.image == image && Reads(row.id, f.id) && Reads(row.severity, Word(f.severity)) && Reads(row.package, f.package)
    && Reads(row.installed, f.installed) && Reads(row.fixed, f.fixed) && Reads(row.target, f.target)
  }

  lemma NamedMeans(text: string)
    ensures SeverityOf(text) == if text == Name(Critical) then Some(Critical) else if text == Name(High) then Some(High)
                                else if text == Name(Medium) then Some(Medium) else if text == Name(Low) then Some(Low)
                                else if text == Name(Unknown) then Some(Unknown) else None
  {
    hide Name;
    assert [Low, Unknown][1..] == [Unknown] && [Medium, Low, Unknown][1..] == [Low, Unknown];
    assert [High, Medium, Low, Unknown][1..] == [Medium, Low, Unknown];
    assert SEVERITIES[1..] == [High, Medium, Low, Unknown];
    assert Named(text, [Unknown]) == if text == Name(Unknown) then Some(Unknown) else None;
    assert Named(text, [Low, Unknown]) ==
           if text == Name(Low) then Some(Low) else if text == Name(Unknown) then Some(Unknown) else None;
    assert Named(text, [High, Medium, Low, Unknown]) ==
           if text == Name(High) then Some(High) else if text == Name(Medium) then Some(Medium)
           else Named(text, [Low, Unknown]);
  }

  /** The names are the words, and no two of them begin alike. */
  lemma NamesAreWords(s: Severity)
    ensures Name(s) == Word(s) && Small(Word(s)) && Word(s) != ""
    ensures forall other :: Word(other) == Word(s) ==> other == s
  {
    assert Word(Critical)[0] == 'c' && Word(High)[0] == 'h' && Word(Medium)[0] == 'm';
    assert Word(Low)[0] == 'l' && Word(Unknown)[0] == 'u';
  }

  lemma SeverityIs(text: string, s: Severity)
    ensures SeverityOf(text) == Some(s) <==> text == Word(s)
  {
    hide Name, SeverityOf, Word;
    NamedMeans(text);
    forall t ensures Name(t) == Word(t) && forall other :: Word(other) == Word(t) ==> other == t {
      NamesAreWords(t);
    }
  }

  lemma FilledIff(field: Option<string>)
    ensures Filled(field) <==> Written(field)
  {
    if field.Some? {
      StripTrims(field.value);
    }
  }

  lemma ReadsIff(field: Option<string>, text: string)
    ensures Reads(field, text) <==> field.Some? && TextOf(field) == text
  {
    if field.Some? {
      StripTrims(field.value);
      if Trimmed(field.value, text) {
        TrimmedUnique(field.value, text, Strip(field.value));
      }
    }
  }

  lemma RatingIff(row: Row, s: Severity)
    requires row.severity.Some?
    ensures Reads(row.severity, Word(s)) <==> SeverityOf(TextOf(row.severity)) == Some(s)
  {
    hide SeverityOf, Word;
    ReadsIff(row.severity, Word(s));
    SeverityIs(TextOf(row.severity), s);
  }

  lemma WordReads(row: Row, s: Severity)
    ensures Reads(row.severity, Word(s)) ==> Written(row.severity)
  {
    hide Word;
    NamesAreWords(s);
    ReadsIff(row.severity, Word(s));
    FilledIff(row.severity);
  }

  lemma OccurrenceRowIff(row: Row)
    ensures OccurrenceRow(row) <==> GoodOccurrence(row)
  {
    hide Filled, Reads, SeverityOf, Written;
    FieldsIff(row);
    if row.severity.Some? {
      forall s ensures Reads(row.severity, Word(s)) <==> SeverityOf(TextOf(row.severity)) == Some(s) {
        RatingIff(row, s);
      }
      FiveWords(row);
    }
    SomeIfWritten(row);
  }

  lemma FieldsIff(row: Row)
    ensures Filled(row.id) <==> Written(row.id)
    ensures Filled(row.severity) <==> Written(row.severity)
    ensures Filled(row.package) <==> Written(row.package)
    ensures Filled(row.installed) <==> Written(row.installed)
    ensures Filled(row.fixed) <==> Written(row.fixed)
    ensures Filled(row.target) <==> Written(row.target)
  {
    hide Filled, Written;
    FilledIff(row.id);
    FilledIff(row.severity);
    FilledIff(row.package);
    FilledIff(row.installed);
    FilledIff(row.fixed);
    FilledIff(row.target);
  }

  lemma SomeIfWritten(row: Row)
    ensures Written(row.severity) ==> row.severity.Some?
    ensures Written(row.fixed) ==> row.fixed.Some?
    ensures forall s :: Reads(row.severity, Word(s)) ==> row.severity.Some?
  {
  }

  lemma FiveWords(row: Row)
    ensures Word(Critical) == "critical" && Word(High) == "high" && Word(Medium) == "medium" && Word(Low) == "low"
    ensures Word(Unknown) == "unknown"
  {
  }

  lemma UrgentRowIff(row: Row)
    ensures UrgentRow(row) <==> GoodUrgent(row)
  {
    hide Filled, Reads, SeverityOf, Written;
    FieldsIff(row);
    FiveWords(row);
    WordReads(row, Critical);
    WordReads(row, High);
    SomeIfWritten(row);
    if row.severity.Some? {
      RatingIff(row, Critical);
      RatingIff(row, High);
    }
  }

  lemma ReadIs(image: string, row: Row, f: Finding)
    requires OccurrenceRow(row)
    ensures Read(image, row) == f <==> Describes(row, image, f)
  {
    hide Filled, Reads, SeverityOf, TextOf, Word;
    RowHasFields(row);
    ReadsIff(row.id, f.id);
    ReadsIff(row.package, f.package);
    ReadsIff(row.installed, f.installed);
    ReadsIff(row.fixed, f.fixed);
    ReadsIff(row.target, f.target);
    RatingIff(row, f.severity);
  }

  lemma RowHasFields(row: Row)
    requires OccurrenceRow(row)
    ensures row.id.Some? && row.severity.Some? && row.package.Some? && row.installed.Some? && row.fixed.Some?
    ensures row.target.Some? && SeverityOf(TextOf(row.severity)).Some?
  {
    hide SeverityOf;
  }

  // ------------------------------------------------------------------- many rows

  /** How many rows describe the finding. */
  function Number(rows: seq<Row>, image: string, f: Finding): nat {
    if rows == [] then 0
    else Number(rows[..|rows| - 1], image, f) + if Describes(rows[|rows| - 1], image, f) then 1 else 0
  }

  /** How many rows have that rating, and a fixed version if that is asked. */
  function HowMany(rows: seq<Row>, s: Severity, fixed: bool): nat {
    if rows == [] then 0
    else
      var row := rows[|rows| - 1];
      HowMany(rows[..|rows| - 1], s, fixed)
      + if Reads(row.severity, Word(s)) && (fixed ==> Written(row.fixed)) then 1 else 0
  }

  lemma {:induction false} NumberIs(rows: seq<Row>, image: string, f: Finding)
    requires All(rows, OccurrenceRow)
    ensures multiset(ReadAll(image, rows))[f] == Number(rows, image, f)
  {
    hide Describes, OccurrenceRow, Read;
    if rows != [] {
      var n := |rows| - 1;
      assert All(rows[..n], OccurrenceRow);
      NumberIs(rows[..n], image, f);
      assert ReadAll(image, rows) == ReadAll(image, rows[..n]) + [Read(image, rows[n])];
      ReadIs(image, rows[n], f);
    }
  }

  lemma ReadCounts(image: string, row: Row, s: Severity)
    requires OccurrenceRow(row)
    ensures Read(image, row).severity == s <==> Reads(row.severity, Word(s))
    ensures Read(image, row).fixed != "" <==> Written(row.fixed)
  {
    hide Filled, Reads, SeverityOf, TextOf, Word, Written;
    RowHasFields(row);
    RatingIff(row, s);
    FilledIff(row.fixed);
    FilledMeans(row.fixed);
  }

  lemma FilledMeans(field: Option<string>)
    requires field.Some?
    ensures Filled(field) <==> TextOf(field) != ""
  {
  }

  lemma CountLast(fs: seq<Finding>, f: Finding, p: Finding -> bool)
    ensures Count(fs + [f], p) == Count(fs, p) + if p(f) then 1 else 0
  {
    WhereConcat(fs, [f], p);
  }

  lemma {:induction false} HowManyIs(rows: seq<Row>, image: string, s: Severity)
    requires All(rows, OccurrenceRow)
    ensures Count(ReadAll(image, rows), Of(s)) == HowMany(rows, s, false)
    ensures Count(ReadAll(image, rows), FixOf(s)) == HowMany(rows, s, true)
  {
    hide Count, OccurrenceRow, Read, Reads, Word, Written;
    if rows != [] {
      var n := |rows| - 1;
      assert All(rows[..n], OccurrenceRow);
      HowManyIs(rows[..n], image, s);
      assert ReadAll(image, rows) == ReadAll(image, rows[..n]) + [Read(image, rows[n])];
      CountLast(ReadAll(image, rows[..n]), Read(image, rows[n]), Of(s));
      CountLast(ReadAll(image, rows[..n]), Read(image, rows[n]), FixOf(s));
      ReadCounts(image, rows[n], s);
    } else {
      assert ReadAll(image, rows) == [];
      NoneCounts(s);
    }
  }

  lemma NoneCounts(s: Severity)
    ensures Count([], Of(s)) == 0 && Count([], FixOf(s)) == 0
  {
  }

  lemma UrgentRowsAreOccurrences(rows: seq<Row>)
    requires All(rows, UrgentRow)
    ensures All(rows, OccurrenceRow)
  {
    forall i | 0 <= i < |rows| ensures OccurrenceRow(rows[i]) {
      assert UrgentRow(rows[i]);
    }
  }

  // ---------------------------------------------------------------- single images

  function ListedRows(image: Image): seq<Row> {
    image.fixable.GetOr([])
  }

  function EvidenceRows(image: Image): seq<Row> {
    if image.occurrences.Rows? then image.occurrences.rows else []
  }

  /** The occurrences are all good, those that are urgent and have a fix are the listed
      ones, each as often, and the numbers beside them are theirs. */
  ghost predicate Consistent(image: Image) {
    && image.occurrences.Rows?
    && (forall i :: 0 <= i < |EvidenceRows(image)| ==> GoodOccurrence(EvidenceRows(image)[i]))
    && Agrees(image)
    && image.fixAvailable.Some?
    && image.fixAvailable.value.medium == Some(HowMany(EvidenceRows(image), Medium, true))
    && image.fixAvailable.value.low == Some(HowMany(EvidenceRows(image), Low, true))
    && image.unknown == Some(HowMany(EvidenceRows(image), Unknown, false))
    && image.unknownFixAvailable == Some(HowMany(EvidenceRows(image), Unknown, true))
  }

  ghost predicate Agrees(image: Image) {
    forall f: Finding ::
      Number(ListedRows(image), NameOf(image), f) ==
      if (f.severity == Critical || f.severity == High) && f.fixed != ""
      then Number(EvidenceRows(image), NameOf(image), f) else 0
  }

  lemma {:induction false} WhereNumber(fs: seq<Finding>, p: Finding -> bool, f: Finding)
    ensures multiset(Where(fs, p))[f] == if p(f) then multiset(fs)[f] else 0
  {
    if fs != [] {
      WhereNumber(fs[1..], p, f);
      assert fs == [fs[0]] + fs[1..];
    }
  }

  lemma AgreesIff(image: Image)
    requires image.occurrences.Rows? && All(image.occurrences.rows, OccurrenceRow) && FixableOk(image)
    ensures Agrees(image) <==> multiset(Where(Occurrences(image), UrgentFix)) == multiset(Fixable(image))
  {
    hide Number, OccurrenceRow, Read, UrgentRow, Where;
    UrgentRowsAreOccurrences(ListedRows(image));
    forall f: Finding
      ensures multiset(Fixable(image))[f] == Number(ListedRows(image), NameOf(image), f)
      ensures multiset(Where(Occurrences(image), UrgentFix))[f] ==
              if (f.severity == Critical || f.severity == High) && f.fixed != ""
              then Number(EvidenceRows(image), NameOf(image), f) else 0
    {
      NumberIs(ListedRows(image), NameOf(image), f);
      NumberIs(EvidenceRows(image), NameOf(image), f);
      WhereNumber(Occurrences(image), UrgentFix, f);
    }
  }

  lemma EvidenceOkIff(image: Image)
    requires FixableOk(image)
    ensures EvidenceOk(image) <==> Consistent(image)
  {
    hide Agrees, Count, GoodOccurrence, HowMany, OccurrenceRow, Read, UrgentRow, Where;
    forall i | 0 <= i < |EvidenceRows(image)|
      ensures OccurrenceRow(EvidenceRows(image)[i]) <==> GoodOccurrence(EvidenceRows(image)[i])
    {
      OccurrenceRowIff(EvidenceRows(image)[i]);
    }
    if OccurrencesOk(image) {
      AgreesIff(image);
      HowManyIs(EvidenceRows(image), NameOf(image), Medium);
      HowManyIs(EvidenceRows(image), NameOf(image), Low);
      HowManyIs(EvidenceRows(image), NameOf(image), Unknown);
    }
  }

  // ---------------------------------------------------------------- whole reports

  /** The rows of that rating in the urgent lists of all images. */
  function TotalListed(images: seq<Image>, s: Severity): nat {
    if images == [] then 0
    else TotalListed(images[..|images| - 1], s) + HowMany(ListedRows(images[|images| - 1]), s, false)
  }

  /** The occurrences of that rating with a fixed version, in all images. */
  function TotalFixed(images: seq<Image>, s: Severity): nat {
    if images == [] then 0
    else TotalFixed(images[..|images| - 1], s) + HowMany(EvidenceRows(images[|images| - 1]), s, true)
  }

  predicate Listed(image: Image) {
    image.fixable.Some? && forall i :: 0 <= i < |image.fixable.value| ==> GoodUrgent(image.fixable.value[i])
  }

  predicate Labelled(images: seq<Image>) {
    && (forall image :: image in images ==> image.name.Some? && image.name.value != "")
    && (forall i, j :: 0 <= i < |images| && 0 <= j < |images| && images[i].name == images[j].name ==> i == j)
  }

  lemma FixableOkIff(image: Image)
    ensures FixableOk(image) <==> Listed(image)
  {
    hide GoodUrgent, UrgentRow;
    if image.fixable.Some? {
      forall i | 0 <= i < |image.fixable.value|
        ensures UrgentRow(image.fixable.value[i]) <==> GoodUrgent(image.fixable.value[i])
      {
        UrgentRowIff(image.fixable.value[i]);
      }
    }
  }

  lemma LabelledIff(images: seq<Image>)
    ensures NamesOk(images) <==> Labelled(images)
  {
    if NamesOk(images) {
      forall image | image in images ensures image.name.Some? && image.name.value != "" {
        var i :| 0 <= i < |images| && images[i] == image;
      }
    }
    if Labelled(images) {
      forall i | 0 <= i < |images| ensures images[i].name.Some? && images[i].name.value != "" {
        assert images[i] in images;
      }
    }
  }

  lemma LastImage(images: seq<Image>, part: Image -> seq<Finding>, p: Finding -> bool)
    requires images != []
    ensures Count(Flat(images, part), p) ==
            Count(Flat(images[..|images| - 1], part), p) + Count(part(images[|images| - 1]), p)
  {
    var n := |images| - 1;
    assert images == images[..n] + [images[n]];
    FlatAppend(images[..n], images[n], part);
    WhereConcat(Flat(images[..n], part), part(images[n]), p);
  }

  lemma {:induction false} TotalListedIs(images: seq<Image>, s: Severity)
    requires Every(images, FixableOk)
    ensures Count(Flat(images, Fixable), Of(s)) == TotalListed(images, s)
  {
    hide Count, FixableOk, HowMany, OccurrenceRow, Read, UrgentRow;
    if images != [] {
      var n := |images| - 1;
      assert Every(images[..n], FixableOk) && FixableOk(images[n]);
      TotalListedIs(images[..n], s);
      LastImage(images, Fixable, Of(s));
      ListedCount(images[n], s);
    } else {
      NoneCounts(s);
    }
  }

  lemma ListedCount(image: Image, s: Severity)
    requires FixableOk(image)
    ensures Count(Fixable(image), Of(s)) == HowMany(ListedRows(image), s, false)
  {
    hide OccurrenceRow, UrgentRow;
    UrgentRowsAreOccurrences(ListedRows(image));
    HowManyIs(ListedRows(image), NameOf(image), s);
  }

  lemma {:induction false} TotalFixedIs(images: seq<Image>, s: Severity)
    requires Every(images, OccurrencesOk)
    ensures Count(Flat(images, Occurrences), FixOf(s)) == TotalFixed(images, s)
  {
    hide Count, HowMany, OccurrenceRow, Read;
    if images != [] {
      var n := |images| - 1;
      assert Every(images[..n], OccurrencesOk) && OccurrencesOk(images[n]);
      TotalFixedIs(images[..n], s);
      LastImage(images, Occurrences, FixOf(s));
      HowManyIs(EvidenceRows(images[n]), NameOf(images[n]), s);
    } else {
      NoneCounts(s);
    }
  }

  /** All that is demanded of a report, in its own terms. */
  ghost predicate Demanded(r: Report, scope: string, deadMan: bool) {
    && r.seal == Some(r.body) && r.body.schema == "C3PO_CONTAINER_VULNERABILITY_REPORT-v2"
    && r.body.scope == scope && r.body.complete && r.body.errors == [] && (deadMan ==> r.body.deadMan)
    && r.body.fixAvailable.Some? && r.body.images.Some?
    && var (images, raw) := (r.body.images.value, r.body.fixAvailable.value);
       && Labelled(images) && (forall image :: image in images ==> Listed(image))
       && raw.critical == Some(TotalListed(images, Critical)) && raw.high == Some(TotalListed(images, High))
       && (scope != "controller_dry_run" || (exists image :: image in images && !image.occurrences.Absent?) ==>
             && (forall image :: image in images ==> Consistent(image))
             && raw.medium == Some(TotalFixed(images, Medium)) && raw.low == Some(TotalFixed(images, Low)))
  }

  lemma EveryIff(images: seq<Image>, ok: Image -> bool)
    ensures Every(images, ok) <==> forall image :: image in images ==> ok(image)
  {
    if Every(images, ok) {
      forall image | image in images ensures ok(image) {
        var i :| 0 <= i < |images| && images[i] == image;
      }
    }
    if forall image :: image in images ==> ok(image) {
      forall i | 0 <= i < |images| ensures ok(images[i]) {
        assert images[i] in images;
      }
    }
  }

  lemma UrgentAgreeIff(images: seq<Image>, raw: RawCounts)
    ensures UrgentAgree(images, raw) <==>
              && Labelled(images) && (forall image :: image in images ==> Listed(image))
              && raw.critical == Some(TotalListed(images, Critical)) && raw.high == Some(TotalListed(images, High))
  {
    hide Count, FixableOk, Labelled, Listed, NamesOk, TotalListed;
    LabelledIff(images);
    EveryIff(images, FixableOk);
    forall image ensures FixableOk(image) <==> Listed(image) {
      FixableOkIff(image);
    }
    if Every(images, FixableOk) {
      TotalListedIs(images, Critical);
      TotalListedIs(images, High);
    }
  }

  lemma OccurrencesAgreeIff(images: seq<Image>, raw: RawCounts)
    requires Every(images, FixableOk)
    ensures OccurrencesAgree(images, raw) <==>
              && (forall image :: image in images ==> Consistent(image))
              && raw.medium == Some(TotalFixed(images, Medium)) && raw.low == Some(TotalFixed(images, Low))
  {
    hide Consistent, Count, EvidenceOk, FixableOk, OccurrencesOk, TotalFixed;
    EveryIff(images, EvidenceOk);
    EveryIff(images, FixableOk);
    forall image | image in images ensures EvidenceOk(image) <==> Consistent(image) {
      EvidenceOkIff(image);
    }
    if Every(images, EvidenceOk) {
      forall i | 0 <= i < |images| ensures OccurrencesOk(images[i]) {
        EvidenceHasOccurrences(images[i]);
      }
      TotalFixedIs(images, Medium);
      TotalFixedIs(images, Low);
    }
  }

  lemma EvidenceHasOccurrences(image: Image)
    requires EvidenceOk(image)
    ensures OccurrencesOk(image)
  {
  }

  lemma EvidenceDueIff(images: seq<Image>, scope: string)
    ensures EvidenceDue(images, scope) <==>
              scope != "controller_dry_run" || exists image :: image in images && !image.occurrences.Absent?
  {
    if i :| 0 <= i < |images| && !images[i].occurrences.Absent? {
      assert images[i] in images;
    }
    if image :| image in images && !image.occurrences.Absent? {
      var i :| 0 <= i < |images| && images[i] == image;
    }
  }

  /** `validate_report` accepts exactly what is demanded. */
  lemma AcceptableIff(r: Report, scope: string, deadMan: bool)
    ensures Acceptable(r, scope, deadMan) <==> Demanded(r, scope, deadMan)
  {
    hide Consistent, EvidenceDue, Labelled, Listed, OccurrencesAgree, TotalFixed, TotalListed, UrgentAgree;
    if r.body.images.Some? && r.body.fixAvailable.Some? {
      var (images, raw) := (r.body.images.value, r.body.fixAvailable.value);
      UrgentAgreeIff(images, raw);
      EvidenceDueIff(images, scope);
      if UrgentAgree(images, raw) {
        AgreeHasFixable(images, raw);
        OccurrencesAgreeIff(images, raw);
      }
    }
  }

  lemma AgreeHasFixable(images: seq<Image>, raw: RawCounts)
    requires UrgentAgree(images, raw)
    ensures Every(images, FixableOk)
  {
  }

  // ------------------------------------------------------------------ the result

  function NumberListed(images: seq<Image>, f: Finding): nat {
    if images == [] then 0
    else
      var image := images[|images| - 1];
      NumberListed(images[..|images| - 1], f) + Number(ListedRows(image), NameOf(image), f)
  }

  function NumberFound(images: seq<Image>, f: Finding): nat {
    if images == [] then 0
    else
      var image := images[|images| - 1];
      NumberFound(images[..|images| - 1], f) + Number(EvidenceRows(image), NameOf(image), f)
  }

  /** The occurrences beside the urgent list: with a fixed version, and neither critical nor high. */
  function OthersFound(images: seq<Image>, f: Finding): nat {
    if f.fixed != "" && f.severity != Critical && f.severity != High then NumberFound(images, f) else 0
  }

  lemma LastImageHas(images: seq<Image>, part: Image -> seq<Finding>, f: Finding)
    requires images != []
    ensures multiset(Flat(images, part))[f] ==
            multiset(Flat(images[..|images| - 1], part))[f] + multiset(part(images[|images| - 1]))[f]
  {
    var n := |images| - 1;
    assert images == images[..n] + [images[n]];
    FlatAppend(images[..n], images[n], part);
    ConcatHas(Flat(images[..n], part), part(images[n]), f);
  }

  lemma ConcatHas(a: seq<Finding>, b: seq<Finding>, f: Finding)
    ensures multiset(a + b)[f] == multiset(a)[f] + multiset(b)[f]
  {
  }

  lemma {:induction false} NumberListedIs(images: seq<Image>, f: Finding)
    requires Every(images, FixableOk)
    ensures multiset(Flat(images, Fixable))[f] == NumberListed(images, f)
  {
    hide Number, OccurrenceRow, Read, UrgentRow;
    if images != [] {
      var n := |images| - 1;
      assert Every(images[..n], FixableOk) && FixableOk(images[n]);
      NumberListedIs(images[..n], f);
      LastImageHas(images, Fixable, f);
      UrgentRowsAreOccurrences(ListedRows(images[n]));
      NumberIs(ListedRows(images[n]), NameOf(images[n]), f);
    }
  }

  lemma {:induction false} NumberFoundIs(images: seq<Image>, f: Finding)
    requires Every(images, OccurrencesOk)
    ensures multiset(Flat(images, Occurrences))[f] == NumberFound(images, f)
  {
    hide Number, OccurrenceRow, Read;
    if images != [] {
      var n := |images| - 1;
      assert Every(images[..n], OccurrencesOk) && OccurrencesOk(images[n]);
      NumberFoundIs(images[..n], f);
      LastImageHas(images, Occurrences, f);
      NumberIs(EvidenceRows(images[n]), NameOf(images[n]), f);
    }
  }

  /** The findings are the listed ones and, where there is evidence, the other occurrences
      with a fixed version, each as often as its rows; the counts are those of the rows. */
  lemma WorkMeans(images: seq<Image>, evidence: bool)
    requires Every(images, FixableOk) && (evidence ==> Every(images, OccurrencesOk))
    ensures forall f: Finding ::
              multiset(Work(images, evidence))[f] ==
              NumberListed(images, f) + if evidence then OthersFound(images, f) else 0
    ensures Totals(images, evidence) ==
            Counts(TotalListed(images, Critical), TotalListed(images, High),
                   if evidence then TotalFixed(images, Medium) else 0, if evidence then TotalFixed(images, Low) else 0,
                   if evidence then TotalFixed(images, Unknown) else 0)
  {
    hide FixableOk, NumberFound, NumberListed, OccurrencesOk, TotalFixed, TotalListed;
    forall f: Finding
      ensures multiset(Work(images, evidence))[f] ==
              NumberListed(images, f) + if evidence then OthersFound(images, f) else 0
    {
      NumberListedIs(images, f);
      WhereNumber(Shown(images, evidence), OtherFix, f);
      if evidence {
        NumberFoundIs(images, f);
      }
    }
    TotalListedIs(images, Critical);
    TotalListedIs(images, High);
    if evidence {
      TotalFixedIs(images, Medium);
      TotalFixedIs(images, Low);
      TotalFixedIs(images, Unknown);
    }
  }

  // ------------------------------------------------------------------- the order

  function Place(s: Severity): nat {
    match s
    case Critical => 0
    case High => 1
    case Medium => 2
    case Low => 3
    case Unknown => 4
  }

  /** The canonical order: the more urgent first, then field by field. */
  ghost predicate NotAfter(f: Finding, g: Finding) {
    if f.severity != g.severity then Place(f.severity) < Place(g.severity)
    else if f.id != g.id then TextLeq(f.id, g.id)
    else if f.image != g.image then TextLeq(f.image, g.image)
    else if f.package != g.package then TextLeq(f.package, g.package)
    else if f.installed != g.installed then TextLeq(f.installed, g.installed)
    else if f.fixed != g.fixed then TextLeq(f.fixed, g.fixed)
    else TextLeq(f.target, g.target)
  }

  lemma KeyLeqHead(a: seq<string>, b: seq<string>)
    requires a != [] && b != []
    ensures KeyLeq(a, b) <==> if a[0] != b[0] then StringLeq(a[0], b[0]) else KeyLeq(a[1..], b[1..])
  {
  }

  lemma RankOrder(s: Severity, t: Severity)
    ensures Rank(s) == Rank(t) <==> s == t
    ensures s != t ==> (StringLeq(Rank(s), Rank(t)) <==> Place(s) < Place(t))
  {
    assert Rank(s)[0] as int == '0' as int + Place(s) && Rank(t)[0] as int == '0' as int + Place(t);
    assert |Rank(s)| == 1 && |Rank(t)| == 1;
  }

  /** The findings of a report come out in that order. */
  lemma FindingKeyOrders(f: Finding, g: Finding)
    ensures KeyLeq(FindingKey(f), FindingKey(g)) <==> NotAfter(f, g)
  {
    hide Place, Rank, StringLeq, TextLeq;
    RankOrder(f.severity, g.severity);
    StringLeqIff(f.id, g.id);
    StringLeqIff(f.image, g.image);
    StringLeqIff(f.package, g.package);
    StringLeqIff(f.installed, g.installed);
    StringLeqIff(f.fixed, g.fixed);
    StringLeqIff(f.target, g.target);
    FieldsInOrder(FindingKey(f), FindingKey(g));
    TextLeqItself(f.target);
  }

  lemma TextLeqItself(a: string)
    ensures TextLeq(a, a)
  {
  }

  lemma FieldsInOrder(a: seq<string>, b: seq<string>)
    requires |a| == 7 && |b| == 7
    ensures KeyLeq(a, b) <==>
            if a[0] != b[0] then StringLeq(a[0], b[0])
            else if a[1] != b[1] then StringLeq(a[1], b[1])
            else if a[2] != b[2] then StringLeq(a[2], b[2])
            else if a[3] != b[3] then StringLeq(a[3], b[3])
            else if a[4] != b[4] then StringLeq(a[4], b[4])
            else if a[5] != b[5] then StringLeq(a[5], b[5])
            else if a[6] != b[6] then StringLeq(a[6], b[6])
            else true
  {
    hide StringLeq;
    KeyLeqHead(a, b);
    KeyLeqHead(a[1..], b[1..]);
    assert a[1..][1..] == a[2..] && b[1..][1..] == b[2..];
    KeyLeqHead(a[2..], b[2..]);
    assert a[2..][1..] == a[3..] && b[2..][1..] == b[3..];
    KeyLeqHead(a[3..], b[3..]);
    assert a[3..][1..] == a[4..] && b[3..][1..] == b[4..];
    KeyLeqHead(a[4..], b[4..]);
    assert a[4..][1..] == a[5..] && b[4..][1..] == b[5..];
    KeyLeqHead(a[5..], b[5..]);
    assert a[5..][1..] == a[6..] && b[5..][1..] == b[6..];
    KeyLeqHead(a[6..], b[6..]);
    assert a[6..][1..] == [] && b[6..][1..] == [];
  }

  /** So the work list is in the canonical order. */
  lemma WorkIsOrdered(images: seq<Image>, evidence: bool)
    ensures var work := Work(images, evidence); forall i, j :: 0 <= i < j < |work| ==> NotAfter(work[i], work[j])
  {
    hide FindingKey, NotAfter;
    var work := Work(images, evidence);
    SortSorts(Flat(images, Fixable) + Where(Shown(images, evidence), OtherFix), FindingKey);
    forall i, j | 0 <= i < j < |work| ensures NotAfter(work[i], work[j]) {
      FindingKeyOrders(work[i], work[j]);
    }
  }
}
