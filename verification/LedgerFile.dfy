/** The entries of the schedule-recovery ledger and the file that holds them: what
    is accepted entry by entry, and how long the file is. */
module LedgerFile {
  import opened Decimals
  import opened Outcomes
  import opened RecoverySlots
  import opened Text

  datatype State =
    | DispatchHeld | Skipped | DispatchIntent | DispatchUnknown
    | RunConfirmed | NoticeIntent | NoticeUnknown | Complete

  datatype Entry = Entry(
    workflow: Workflow, slot: int, state: State, attemptedAt: int, headSha: string, beforeId: int,
    runId: Option<int>, commentId: Option<int>)

  const ENTRY_LIMIT := 50000
  const SIZE_LIMIT := 8 * 1024 * 1024

  predicate HasRun(state: State) {
    state in {RunConfirmed, NoticeIntent, NoticeUnknown, Complete}
  }

  /** What loading the ledger demands of one entry. */
  predicate Accepted(key: Slot, e: Entry) {
    e.workflow.Retired? ||
    (&& ValidSlot(Slot(e.workflow, e.slot))
     && key == Slot(e.workflow, e.slot)
     && ShaOk(e.headSha)
     && e.beforeId >= 0
     && (HasRun(e.state) ==> e.runId.Some? && e.runId.value > e.beforeId))
  }

  /** An entry of a retired workflow is not looked at; any other is under the key that it
      names itself, of a slot of today's workflows, with a full commit id, and with the
      run it speaks of numbered above the runs that were there before. */
  lemma AcceptedMeans(key: Slot, e: Entry)
    ensures Accepted(key, e) <==>
              || e.workflow == Retired
              || (&& key.workflow == e.workflow && key.at == e.slot && ValidSlot(key)
                  && |e.headSha| == 40 && (forall i :: 0 <= i < 40 ==> HexDigit(e.headSha[i]))
                  && 0 <= e.beforeId
                  && (e.state in {RunConfirmed, NoticeIntent, NoticeUnknown, Complete} ==>
                        match e.runId case None => false case Some(id) => e.beforeId < id))
  {
    hide HexDigit, ShaOk;
    ShaOkIff(e.headSha);
  }

  predicate AllAccepted(m: map<Slot, Entry>) {
    forall k :: k in m ==> Accepted(k, m[k])
  }

  // --------------------------------------------------------------------- size

  function FileName(w: Workflow): string {
    match w
    case Ops => "ops-readonly-report.yml"
    case Export => "decisor-verdict-export.yml"
    case Retired => "valuation-pit-grid-autopilot.yml"
    case Unlisted(name) => name
  }

  function StateName(state: State): string {
    match state
    case DispatchHeld => "dispatch_held"
    case Skipped => "skipped"
    case DispatchIntent => "dispatch_intent"
    case DispatchUnknown => "dispatch_unknown"
    case RunConfirmed => "run_confirmed"
    case NoticeIntent => "notice_intent"
    case NoticeUnknown => "notice_unknown"
    case Complete => "complete"
  }

  /** Bytes of one character inside a JSON string kept to ASCII. */
  function CharSize(c: char): (n: nat)
    ensures n >= 1
  {
    if c in {'"', '\\', '\n', '\r', '\t', 8 as char, 12 as char} then 2
    else if ' ' <= c <= '~' then 1
    else if c as int < 0x10000 then 6
    else 12
  }

  const HEX := "0123456789abcdef"

  /** A number below 65536 as a JSON escape. */
  function Escape(n: nat): (s: string)
    requires n < 0x10000
    ensures |s| == 6
  {
    "\\u" + [HEX[n / 4096], HEX[n / 256 % 16], HEX[n / 16 % 16], HEX[n % 16]]
  }

  /** What JSON writes for a character when it is kept to ASCII; one that sixteen bits do
      not hold becomes a pair of surrogates. */
  function Encoded(c: char): string {
    var n := c as int;
    if c == '"' then "\\\""
    else if c == '\\' then "\\\\"
    else if n == 8 then "\\b"
    else if n == 9 then "\\t"
    else if n == 10 then "\\n"
    else if n == 12 then "\\f"
    else if n == 13 then "\\r"
    else if 32 <= n <= 126 then [c]
    else if n <= 0xFFFF then Escape(n)
    else Escape(0xD800 + (n - 0x10000) / 0x400) + Escape(0xDC00 + (n - 0x10000) % 0x400)
  }

  lemma EncodedSize(c: char)
    ensures |Encoded(c)| == CharSize(c)
  {
    assert '\t' as int == 9 && '\n' as int == 10 && '\r' as int == 13 && ' ' as int == 32 && '~' as int == 126;
    assert (8 as char) as int == 8 && (12 as char) as int == 12;
  }

  function TextSize(s: string): (n: nat)
    ensures n >= |s|
  {
    if s == "" then 0 else CharSize(s[0]) + TextSize(s[1..])
  }

  function NumberSize(n: int): (size: nat)
    ensures size >= 1
  {
    if n < 0 then 1 + |Digits(-n)| else |Digits(n)|
  }

  /** Every stamp is written as in 2026-01-31T06:30:00Z. */
  const STAMP := 20

  /** What an entry and its key take up besides their values, sorted by name. */
  const FRAME :=
    "\":\":{\"attempted_at\":\"\",\"before_id\":,\"head_sha\":\"\",\"slot\":\"\",\"state\":\"\",\"workflow\":\"\"}"

  function EntrySize(key: Slot, e: Entry): nat {
    |FRAME| + TextSize(FileName(key.workflow)) + STAMP + STAMP + NumberSize(e.beforeId) + TextSize(e.headSha) + STAMP
    + |StateName(e.state)| + TextSize(FileName(e.workflow))
    + (if e.commentId.Some? then |",\"comment_id\":"| + NumberSize(e.commentId.value) else 0)
    + (if e.runId.Some? then |",\"run_id\":"| + NumberSize(e.runId.value) else 0)
  }

  function EncodedText(s: string): string {
    if s == "" then "" else Encoded(s[0]) + EncodedText(s[1..])
  }

  function NumberText(n: int): string {
    if n < 0 then "-" + Digits(-n) else Digits(n)
  }

  function FieldText(name: string, n: Option<int>): string {
    if n.None? then "" else ",\"" + name + "\":" + NumberText(n.value)
  }

  /** An entry under its key, as it is written, with stamps of any form. */
  function EntryText(key: Slot, e: Entry, stamp: int -> string): string {
    "\"" + EncodedText(FileName(key.workflow)) + ":" + stamp(key.at) + "\":{\"attempted_at\":\"" + stamp(e.attemptedAt)
    + "\",\"before_id\":" + NumberText(e.beforeId) + FieldText("comment_id", e.commentId)
    + ",\"head_sha\":\"" + EncodedText(e.headSha) + "\"" + FieldText("run_id", e.runId)
    + ",\"slot\":\"" + stamp(e.slot) + "\",\"state\":\"" + StateName(e.state)
    + "\",\"workflow\":\"" + EncodedText(FileName(e.workflow)) + "\"}"
  }

  lemma {:induction false} TextSizeIsLength(s: string)
    ensures |EncodedText(s)| == TextSize(s)
  {
    if s != "" {
      EncodedSize(s[0]);
      TextSizeIsLength(s[1..]);
    }
  }

  /** The size of an entry is the length of what is written for it. */
  lemma EntrySizeIsLength(key: Slot, e: Entry, stamp: int -> string)
    requires forall t :: |stamp(t)| == 20
    ensures |EntryText(key, e, stamp)| == EntrySize(key, e)
  {
    hide Digits, EncodedText, FileName, StateName, TextSize;
    TextSizeIsLength(FileName(key.workflow));
    TextSizeIsLength(e.headSha);
    TextSizeIsLength(FileName(e.workflow));
  }

  const ENVELOPE := "{\"entries\":{},\"schema\":\"C3PO-WORKFLOW-SCHEDULE-RECOVERY-v1\"}\n"

  /** The entries, each with a comma behind it. */
  ghost function EntriesSize(m: map<Slot, Entry>): nat
    decreases |m|
  {
    if m == map[] then 0
    else
      var k :| k in m;
      EntrySize(k, m[k]) + 1 + EntriesSize(m - {k})
  }

  /** Bytes of the file; no comma follows the last entry. */
  ghost function FileSize(m: map<Slot, Entry>): int {
    |ENVELOPE| + EntriesSize(m) - if m == map[] then 0 else 1
  }

  /** The sum does not depend on the order in which the entries are written. */
  lemma {:induction false} EntriesSizeWithout(m: map<Slot, Entry>, k: Slot)
    requires k in m
    ensures EntriesSize(m) == EntrySize(k, m[k]) + 1 + EntriesSize(m - {k})
    decreases |m|
  {
    hide EntrySize;
    var j :| j in m && EntriesSize(m) == EntrySize(j, m[j]) + 1 + EntriesSize(m - {j});
    if j != k {
      EntriesSizeWithout(m - {j}, k);
      EntriesSizeWithout(m - {k}, j);
      assert m - {j} - {k} == m - {k} - {j};
    }
  }

  /** `path.stat().st_size` */
  method Measure(m: map<Slot, Entry>) returns (size: int)
    ensures size == FileSize(m)
  {
    size := |ENVELOPE| - if m == map[] then 0 else 1;
    var todo := m;
    while todo != map[]
      invariant size + EntriesSize(todo) == FileSize(m)
      decreases |todo|
    {
      var k :| k in todo;
      EntriesSizeWithout(todo, k);
      size := size + EntrySize(k, todo[k]) + 1;
      todo := todo - {k};
    }
  }

  /** What the start of a process demands of the whole file. */
  ghost predicate Loadable(m: map<Slot, Entry>) {
    FileSize(m) <= SIZE_LIMIT && |m| <= ENTRY_LIMIT && AllAccepted(m)
  }

  /** The checks of `Ledger.__init__`, whatever file there is. */
  method CheckFile(m: map<Slot, Entry>) returns (r: Exec<()>)
    ensures r.Done? <==> FileSize(m) <= 8 * 1024 * 1024 && |m| <= 50000 && forall k :: k in m ==> Accepted(k, m[k])
    ensures r.Done? <==> Loadable(m)
    ensures !r.Crashed?
  {
    var size := Measure(m);
    if size > SIZE_LIMIT {
      return Raised("unsafe_ledger");
    }
    if |m| > ENTRY_LIMIT {
      return Raised("invalid_ledger");
    }
    var todo := m.Keys;
    while todo != {}
      invariant todo <= m.Keys && forall k :: k in m && k !in todo ==> Accepted(k, m[k])
    {
      var k :| k in todo;
      if !Accepted(k, m[k]) {
        return Raised("invalid_ledger_entry");
      }
      todo := todo - {k};
    }
    r := Done(());
  }

  // ------------------------------------------------------ which limit comes first

  const SHORTEST := 239
  const MOST := 34952

  /** No entry of today's workflows takes less. */
  lemma LiveEntriesAreLong(key: Slot, e: Entry)
    requires Accepted(key, e) && !e.workflow.Retired?
    ensures EntrySize(key, e) >= SHORTEST
  {
    FrameSize();
    NamesAreLong(e);
  }

  lemma FrameSize()
    ensures |FRAME| == 85 && |ENVELOPE| == 61
  {
  }

  lemma NamesAreLong(e: Entry)
    ensures |StateName(e.state)| >= 7 && |StateName(Skipped)| == 7
    ensures e.workflow in {Ops, Export} ==> |FileName(e.workflow)| >= 23
  {
  }

  lemma {:induction false} LiveFilesAreLong(m: map<Slot, Entry>)
    requires AllAccepted(m) && forall k :: k in m ==> !m[k].workflow.Retired?
    ensures EntriesSize(m) >= 240 * |m|
    decreases |m|
  {
    if m != map[] {
      var k :| k in m;
      EntriesSizeWithout(m, k);
      LiveEntriesAreLong(k, m[k]);
      LiveFilesAreLong(m - {k});
      assert |m - {k}| == |m| - 1 by {
        assert (m - {k}).Keys == m.Keys - {k};
      }
    }
  }

  /** The limit on the number of entries never decides about today's workflows: the
      limit on the size is reached first. */
  lemma SizeDecides(m: map<Slot, Entry>)
    requires AllAccepted(m) && forall k :: k in m ==> !m[k].workflow.Retired?
    ensures Loadable(m) <==> FileSize(m) <= SIZE_LIMIT
    ensures FileSize(m) <= SIZE_LIMIT ==> |m| <= MOST
  {
    LiveFilesAreLong(m);
    FrameSize();
  }

  function DailySlot(day: nat): Slot {
    Slot(Ops, At(day, HALF_PAST_THREE))
  }

  /** A ledger of so many of the shortest entries there are. */
  function Shortest(n: nat, sha: string): map<Slot, Entry> {
    if n == 0 then map[]
    else Shortest(n - 1, sha)[DailySlot(n - 1) := ShortEntry(DailySlot(n - 1), sha)]
  }

  function ShortEntry(k: Slot, sha: string): Entry {
    Entry(k.workflow, k.at, Skipped, k.at, sha, 0, None, None)
  }

  lemma OpsNameSize()
    ensures TextSize(FileName(Ops)) == 23
  {
    var name := FileName(Ops);
    assert |name| == 23 && forall i :: 0 <= i < |name| ==> ' ' <= name[i] <= '~' && name[i] != '"' && name[i] != '\\';
    PlainTextSize(name);
  }

  lemma {:induction false} PlainTextSize(s: string)
    requires forall i :: 0 <= i < |s| ==> ' ' <= s[i] <= '~' && s[i] != '"' && s[i] != '\\'
    ensures TextSize(s) == |s|
  {
    if s != "" {
      PlainTextSize(s[1..]);
    }
  }

  lemma ShortSize(k: Slot, e: Entry)
    requires e.workflow == k.workflow && TextSize(FileName(k.workflow)) == 23 && |StateName(e.state)| == 7
    requires TextSize(e.headSha) == 40 && NumberSize(e.beforeId) == 1 && e.runId.None? && e.commentId.None?
    ensures EntrySize(k, e) == SHORTEST
  {
    FrameSize();
  }

  lemma ShortEntryAccepted(day: nat, sha: string)
    requires ShaOk(sha)
    ensures Accepted(DailySlot(day), ShortEntry(DailySlot(day), sha))
  {
    AtFields(day, HALF_PAST_THREE);
  }

  lemma ShaSize(sha: string)
    requires ShaOk(sha)
    ensures TextSize(sha) == 40
  {
    forall i | 0 <= i < |sha| ensures ' ' <= sha[i] <= '~' && sha[i] != '"' && sha[i] != '\\' {
      assert sha[i] in sha;
    }
    PlainTextSize(sha);
  }

  lemma ShortEntrySize(k: Slot, sha: string)
    requires ShaOk(sha) && k.workflow == Ops
    ensures EntrySize(k, ShortEntry(k, sha)) == SHORTEST
  {
    OpsNameSize();
    NamesAreLong(ShortEntry(k, sha));
    ShaSize(sha);
    ZeroSize();
    ShortSize(k, ShortEntry(k, sha));
  }

  lemma ZeroSize()
    ensures NumberSize(0) == 1
  {
  }

  lemma OneEntryMore(m: map<Slot, Entry>, k: Slot, e: Entry)
    requires k !in m && AllAccepted(m) && Accepted(k, e)
    ensures EntriesSize(m[k := e]) == EntriesSize(m) + EntrySize(k, e) + 1
    ensures |m[k := e]| == |m| + 1 && AllAccepted(m[k := e])
  {
    EntriesSizeWithout(m[k := e], k);
    assert m[k := e] - {k} == m;
  }

  /** So many accepted entries, all of the shortest kind. */
  ghost predicate AllShort(m: map<Slot, Entry>, n: nat) {
    |m| == n && EntriesSize(m) == 240 * n && AllAccepted(m)
  }

  lemma OneShortMore(m: map<Slot, Entry>, n: nat, k: Slot, e: Entry)
    requires AllShort(m, n) && k !in m && Accepted(k, e) && EntrySize(k, e) == SHORTEST
    ensures AllShort(m[k := e], n + 1)
  {
    OneEntryMore(m, k, e);
  }

  lemma {:induction false} NewDay(n: nat, day: nat, sha: string)
    requires day >= n
    ensures DailySlot(day) !in Shortest(n, sha)
  {
    if n > 0 {
      NewDay(n - 1, day, sha);
      assert DailySlot(n - 1).at != DailySlot(day).at;
    }
  }

  lemma {:induction false} ShortestIsShort(n: nat, sha: string)
    requires ShaOk(sha)
    ensures AllShort(Shortest(n, sha), n)
  {
    hide Accepted, EntrySize, ShaOk, ShortEntry;
    if n > 0 {
      ShortestIsShort(n - 1, sha);
      NewDay(n - 1, n - 1, sha);
      ShortEntryAccepted(n - 1, sha);
      ShortEntrySize(DailySlot(n - 1), sha);
      OneShortMore(Shortest(n - 1, sha), n - 1, DailySlot(n - 1), ShortEntry(DailySlot(n - 1), sha));
    }
  }

  /** Ledgers between the two limits exist and are refused: of the shortest entries,
      34952 are the most that a file may hold, where the other limit says 50000. */
  lemma ShortestLoadsIff(n: nat, sha: string)
    requires ShaOk(sha)
    ensures Loadable(Shortest(n, sha)) <==> n <= MOST
    ensures |Shortest(n, sha)| == n && AllAccepted(Shortest(n, sha))
  {
    ShortestIsShort(n, sha);
    FrameSize();
  }
}
