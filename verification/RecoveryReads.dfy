/** What a turn of the schedule recovery is answered, and what it makes of it: the
    coverage of a slot by the listed runs, the decision to dispatch, the runs that
    answer a request, the notices. */
module RecoveryReads {
  import opened LedgerFile
  import opened Outcomes
  import opened RecoverySlots
  import opened Text

  datatype Event = Schedule | WorkflowDispatch | OtherEvent

  datatype Cron = Early | Late

  /** What the scripts look for in a run's display title. */
  datatype Title = Title(
    recoveryMark: bool, tags: set<int>, scheduleMark: bool, crons: set<Cron>, lastCompleted: bool)

  datatype Run = Run(id: int, event: Event, completed: bool, title: Title, headSha: string, createdAt: int)

  /** A raw row of a listing; `expected` says that its path, branch and field types are right. */
  datatype Row = Row(run: Run, expected: bool)

  /** The text of a notice names the slot and the run and nothing else that varies. */
  datatype Body = Notice(slot: Slot, runId: int) | OtherText(text: string)

  datatype Comment = Comment(id: Option<int>, body: Body)

  datatype Tally = Covered | Planned | Confirmed

  /** `Send` carries the entry to record and the reading that justifies it. */
  datatype Decision = End(tally: Tally) | Send(entry: Entry, runs: seq<Run>, readAt: int)

  datatype Counters = Counters(covered: nat, planned: nat, confirmed: nat, errors: nat)

  /** Each of n turns is in exactly one of covered, planned and errors, or only confirmed. */
  predicate AllCounted(c: Counters, n: nat) {
    c.covered + c.planned + c.errors <= n <= c.covered + c.planned + c.confirmed + c.errors
  }

  // ---------------------------------------------------------------- coverage

  predicate Relevant(slot: Slot, run: Run, now: int) {
    !run.event.OtherEvent? && slot.at <= run.createdAt <= now
  }

  predicate OtherCron(slot: Slot, run: Run) {
    slot.workflow == Ops && run.event == Schedule && run.title.scheduleMark &&
    (if LocalSecond(slot.at) / 3600 == 3 then Early else Late) !in run.title.crons
  }

  predicate AmbiguousNight(slot: Slot, run: Run) {
    slot.workflow == Export && run.event == WorkflowDispatch && !run.title.lastCompleted
  }

  /** `covered`: scan the listing until a run settles the question. */
  function CoveredBy(slot: Slot, runs: seq<Run>, now: int): Result<bool> {
    if runs == [] then Ok(false)
    else
      var run := runs[0];
      if !run.completed then Ok(true)
      else if !Relevant(slot, run, now) then CoveredBy(slot, runs[1..], now)
      else if run.title.recoveryMark then
        if slot.at in run.title.tags then Ok(true) else CoveredBy(slot, runs[1..], now)
      else if OtherCron(slot, run) then CoveredBy(slot, runs[1..], now)
      else if AmbiguousNight(slot, run) then Error("ambiguous_export_night")
      else Ok(true)
  }

  /** What one listed run says about a slot. */
  datatype Word = Silent | Standing | Unclear

  /** A run that is not completed stands for any slot. A completed one speaks only if
      it was created since the slot, and not in the future, by the schedule or by hand;
      then a recovery run stands for the slots it names and for no other, a scheduled
      report that names its crons for the slots of those, and an export by hand is
      unclear unless it is marked as one of the last completed night. */
  function Says(slot: Slot, run: Run, now: int): Word {
    if !run.completed then Standing
    else if run.createdAt < slot.at || now < run.createdAt then Silent
    else
      match run.event
      case OtherEvent => Silent
      case Schedule =>
        if run.title.recoveryMark then (if slot.at in run.title.tags then Standing else Silent)
        else if slot.workflow == Ops && run.title.scheduleMark && CronOf(slot) !in run.title.crons then Silent
        else Standing
      case WorkflowDispatch =>
        if run.title.recoveryMark then (if slot.at in run.title.tags then Standing else Silent)
        else if slot.workflow == Export && !run.title.lastCompleted then Unclear
        else Standing
  }

  /** The report is scheduled twice a day; the cron of a slot is that of its local hour. */
  function CronOf(slot: Slot): Cron {
    if 3 * 3600 <= LocalSecond(slot.at) < 4 * 3600 then Early else Late
  }

  predicate Uncovered(slot: Slot, runs: seq<Run>, now: int) {
    forall i :: 0 <= i < |runs| ==> Says(slot, runs[i], now) == Silent
  }

  /** The run at this place is the first of the listing that does not keep silent. */
  predicate Speaks(slot: Slot, runs: seq<Run>, now: int, i: int, word: Word) {
    0 <= i < |runs| && word != Silent && Says(slot, runs[i], now) == word &&
    forall j :: 0 <= j < i ==> Says(slot, runs[j], now) == Silent
  }

  /** The answer for a whole listing: uncovered exactly when all of its runs keep
      silent, so always for an empty one; else the first run that does not decides. */
  lemma {:induction false} CoveredMeans(slot: Slot, runs: seq<Run>, now: int)
    ensures CoveredBy(slot, runs, now) == Ok(false) <==> Uncovered(slot, runs, now)
    ensures CoveredBy(slot, runs, now) == Ok(true) <==> exists i :: Speaks(slot, runs, now, i, Standing)
    ensures CoveredBy(slot, runs, now).Error? <==> exists i :: Speaks(slot, runs, now, i, Unclear)
  {
    if runs != [] {
      CoveredMeans(slot, runs[1..], now);
      HeadSpeaks(slot, runs, now, Standing);
      HeadSpeaks(slot, runs, now, Unclear);
      HeadDecides(slot, runs, now);
      assert forall i :: 0 < i < |runs| ==> runs[i] == runs[1..][i - 1];
    }
  }

  lemma HeadDecides(slot: Slot, runs: seq<Run>, now: int)
    requires runs != []
    ensures CoveredBy(slot, runs, now) ==
            match Says(slot, runs[0], now)
            case Silent => CoveredBy(slot, runs[1..], now)
            case Standing => Ok(true)
            case Unclear => Error("ambiguous_export_night")
  {
  }

  lemma HeadSpeaks(slot: Slot, runs: seq<Run>, now: int, word: Word)
    requires runs != [] && word != Silent
    ensures (exists i :: Speaks(slot, runs, now, i, word)) <==>
            Says(slot, runs[0], now) == word ||
            (Says(slot, runs[0], now) == Silent && exists i :: Speaks(slot, runs[1..], now, i, word))
  {
    hide Says;
    if Says(slot, runs[0], now) == word {
      assert Speaks(slot, runs, now, 0, word);
    }
    if i :| Speaks(slot, runs, now, i, word) && i > 0 {
      assert forall j :: 0 <= j < i - 1 ==> runs[1..][j] == runs[j + 1];
      assert Speaks(slot, runs[1..], now, i - 1, word);
    }
    if Says(slot, runs[0], now) == Silent {
      if i :| Speaks(slot, runs[1..], now, i, word) {
        assert forall j :: 0 < j <= i ==> runs[j] == runs[1..][j - 1];
        assert Speaks(slot, runs, now, i + 1, word);
      }
    }
  }

  function MaxId(runs: seq<Run>): (m: int)
    ensures 0 <= m
    ensures forall i :: 0 <= i < |runs| ==> runs[i].id <= m
  {
    if runs == [] then 0
    else
      var m := MaxId(runs[1..]);
      assert forall i :: 0 < i < |runs| ==> runs[i] == runs[1..][i - 1];
      if runs[0].id > m then runs[0].id else m
  }

  /** Everything a dispatch is justified by: a fresh request of the slot, made in
      its window, numbered above a listing in which nothing stands for it. */
  predicate Sendable(slot: Slot, d: Decision)
    requires d.Send?
  {
    && d.entry == Entry(slot.workflow, slot.at, DispatchIntent,
                        d.entry.attemptedAt, d.entry.headSha, MaxId(d.runs), None, None)
    && ValidSlot(slot) && ShaOk(d.entry.headSha) && InWindow(slot, d.entry.attemptedAt)
    && Uncovered(slot, d.runs, d.readAt)
  }

  predicate GoodRows(rows: seq<Row>) {
    && (forall i :: 0 <= i < |rows| ==> rows[i].expected && rows[i].run.id > 0)
    && (forall i, j :: 0 <= i < j < |rows| ==> rows[i].run.id != rows[j].run.id)
  }

  /** The runs of a listing, in its order. */
  function RunsOf(rows: seq<Row>): seq<Run> {
    seq(|rows|, i requires 0 <= i < |rows| => rows[i].run)
  }

  /** The checks of `run_listing`: a listing is used whole or not at all. */
  method CheckRows(rows: seq<Row>) returns (r: Exec<seq<Run>>)
    ensures r.Done? <==> GoodRows(rows)
    ensures r.Done? ==> r.value == RunsOf(rows)
    ensures !r.Crashed?
  {
    var runs: seq<Run> := [];
    var seen: set<int> := {};
    for i := 0 to |rows|
      invariant |runs| == i && forall j :: 0 <= j < i ==> runs[j] == rows[j].run
      invariant forall id :: id in seen <==> exists j :: 0 <= j < i && rows[j].run.id == id
      invariant GoodRows(rows[..i])
    {
      var run := rows[i].run;
      if run.id <= 0 || run.id in seen {
        return Raised("invalid_run_identity");
      }
      if !rows[i].expected {
        return Raised("unexpected_run");
      }
      seen := seen + {run.id};
      runs := runs + [run];
      assert rows[..i + 1] == rows[..i] + [rows[i]];
    }
    assert rows[..|rows|] == rows;
    r := Done(runs);
  }

  /** The answers that one turn of deciding gets, in the order it asks for them. */
  datatype Reading = Reading(
    active: Exec<bool>, firstAt: Exec<int>, main: Exec<Option<string>>, rows: Exec<seq<Row>>,
    readAt: Exec<int>, checkedMain: Exec<Option<string>>, liveNow: Exec<int>, mayWrite: Exec<bool>)

  /** Every answer arrived, and none of them speaks against dispatching. */
  predicate ClearToSend(slot: Slot, firstRuns: seq<Run>, q: Reading) {
    && q.active == Done(true)
    && q.firstAt.Done? && Uncovered(slot, firstRuns, q.firstAt.value)
    && q.main.Done? && q.main.value.Some? && ShaOk(q.main.value.value)
    && q.rows.Done? && GoodRows(q.rows.value)
    && q.readAt.Done? && Uncovered(slot, RunsOf(q.rows.value), q.readAt.value)
    && q.checkedMain == q.main
    && q.liveNow.Done? && InWindow(slot, q.liveNow.value)
    && q.mayWrite == Done(true)
  }

  /** The first run of the listing that speaks at all stands for the slot. */
  ghost predicate Standing1(slot: Slot, runs: seq<Run>, now: int) {
    exists i :: Speaks(slot, runs, now, i, Standing)
  }

  /** The slot turns out to be taken care of, too old by now, or put on hold. */
  ghost predicate EndsCovered(slot: Slot, act: bool, firstRuns: seq<Run>, q: Reading) {
    && q.active == Done(true) && q.firstAt.Done?
    && (|| Standing1(slot, firstRuns, q.firstAt.value)
        || (act && Uncovered(slot, firstRuns, q.firstAt.value) && EndsLate(slot, q)))
  }

  ghost predicate EndsLate(slot: Slot, q: Reading) {
    && q.main.Done? && q.main.value.Some? && ShaOk(q.main.value.value)
    && q.rows.Done? && GoodRows(q.rows.value) && q.readAt.Done?
    && (Standing1(slot, RunsOf(q.rows.value), q.readAt.value)
        || (Uncovered(slot, RunsOf(q.rows.value), q.readAt.value) && q.checkedMain == q.main && q.liveNow.Done?
            && (!InWindow(slot, q.liveNow.value) || q.mayWrite == Done(false))))
  }

  /** What `recover` decides for a slot with no usable entry, from reads alone. */
  method Decide(slot: Slot, act: bool, firstRuns: seq<Run>, q: Reading) returns (r: Exec<Decision>)
    requires ValidSlot(slot)
    ensures r.Done? && r.value.Send? <==> act && ClearToSend(slot, firstRuns, q)
    ensures r.Done? && r.value.Send? ==>
              && Sendable(slot, r.value)
              && r.value.entry.headSha == q.main.value.value && r.value.entry.attemptedAt == q.liveNow.value
    ensures r == Done(End(Planned)) <==>
              && !act && q.active == Done(true)
              && q.firstAt.Done? && Uncovered(slot, firstRuns, q.firstAt.value)
    ensures r == Done(End(Covered)) <==> EndsCovered(slot, act, firstRuns, q)
    ensures r.Done? && r.value.End? ==> r.value.tally in {Covered, Planned}
  {
    hide Says;
    var active :- q.active;
    if !active {
      return Raised("workflow_not_active");
    }
    var firstAt :- q.firstAt;
    CoveredMeans(slot, firstRuns, firstAt);
    var first := CoveredBy(slot, firstRuns, firstAt);
    if first.Error? {
      return Raised(first.reason);
    }
    if first.value {
      return Done(End(Covered));
    }
    if !act {
      return Done(End(Planned));
    }
    var main :- q.main;
    if main.None? || !ShaOk(main.value) {
      return Raised("main_revision_unavailable");
    }
    var rows :- q.rows;
    var runs :- CheckRows(rows);
    var readAt :- q.readAt;
    CoveredMeans(slot, runs, readAt);
    var second := CoveredBy(slot, runs, readAt);
    if second.Error? {
      return Raised(second.reason);
    }
    if second.value {
      return Done(End(Covered));
    }
    var checkedMain :- q.checkedMain;
    if checkedMain != main {
      return Raised("main_revision_changed");
    }
    var liveNow :- q.liveNow;
    if !InWindow(slot, liveNow) {
      return Done(End(Covered));
    }
    var mayWrite :- q.mayWrite;
    if !mayWrite {
      return Done(End(Covered));
    }
    var entry := Entry(slot.workflow, slot.at, DispatchIntent, liveNow, main.value, MaxId(runs), None, None);
    r := Done(Send(entry, runs, readAt));
  }

  // ------------------------------------------------------------ confirmation

  predicate Answers(entry: Entry, slot: Slot, run: Run) {
    && run.id > entry.beforeId
    && run.event == WorkflowDispatch
    && slot.at in run.title.tags
    && run.headSha == entry.headSha
    && run.createdAt >= entry.attemptedAt - 5
  }

  /** `confirm_run`: the listed runs that answer the request. */
  function Matching(entry: Entry, slot: Slot, runs: seq<Run>): (found: seq<Run>)
    ensures forall run :: run in found <==> run in runs && Answers(entry, slot, run)
  {
    if runs == [] then []
    else
      var run := runs[0];
      var rest := Matching(entry, slot, runs[1..]);
      if run.id > entry.beforeId && run.event == WorkflowDispatch && slot.at in run.title.tags
         && run.headSha == entry.headSha && run.createdAt >= entry.attemptedAt - 5
      then [run] + rest else rest
  }

  predicate NoneAnswers(entry: Entry, slot: Slot, runs: seq<Run>) {
    forall i :: 0 <= i < |runs| ==> !Answers(entry, slot, runs[i])
  }

  predicate OnlyAnswer(entry: Entry, slot: Slot, runs: seq<Run>, i: int) {
    0 <= i < |runs| && Answers(entry, slot, runs[i]) &&
    forall j :: 0 <= j < |runs| && Answers(entry, slot, runs[j]) ==> j == i
  }

  ghost predicate OneAnswers(entry: Entry, slot: Slot, runs: seq<Run>) {
    exists i :: OnlyAnswer(entry, slot, runs, i)
  }

  lemma {:induction false} MatchingCounts(entry: Entry, slot: Slot, runs: seq<Run>)
    ensures Matching(entry, slot, runs) == [] <==> NoneAnswers(entry, slot, runs)
    ensures |Matching(entry, slot, runs)| == 1 <==> OneAnswers(entry, slot, runs)
    ensures forall i :: OnlyAnswer(entry, slot, runs, i) ==> Matching(entry, slot, runs) == [runs[i]]
  {
    hide Answers;
    if runs != [] {
      var rest := runs[1..];
      MatchingCounts(entry, slot, rest);
      MatchingHead(entry, slot, runs);
      assert forall i :: 0 < i < |runs| ==> runs[i] == rest[i - 1];
      forall i | OnlyAnswer(entry, slot, runs, i) ensures Matching(entry, slot, runs) == [runs[i]] {
        if i > 0 {
          assert OnlyAnswer(entry, slot, rest, i - 1);
        } else {
          assert NoneAnswers(entry, slot, rest);
        }
      }
      if |Matching(entry, slot, runs)| == 1 {
        if Answers(entry, slot, runs[0]) {
          assert OnlyAnswer(entry, slot, runs, 0);
        } else {
          var i :| OnlyAnswer(entry, slot, rest, i);
          assert OnlyAnswer(entry, slot, runs, i + 1);
        }
      }
    }
  }

  lemma MatchingHead(entry: Entry, slot: Slot, runs: seq<Run>)
    requires runs != []
    ensures Matching(entry, slot, runs) ==
            if Answers(entry, slot, runs[0]) then [runs[0]] + Matching(entry, slot, runs[1..])
            else Matching(entry, slot, runs[1..])
  {
  }

  function CommentsWith(body: Body, comments: seq<Comment>): seq<Comment> {
    if comments == [] then []
    else if comments[0].body == body then [comments[0]] + CommentsWith(body, comments[1..])
    else CommentsWith(body, comments[1..])
  }

  predicate NoneShows(body: Body, comments: seq<Comment>) {
    forall i :: 0 <= i < |comments| ==> comments[i].body != body
  }

  predicate OnlyShows(body: Body, comments: seq<Comment>, i: int) {
    0 <= i < |comments| && comments[i].body == body &&
    forall j :: 0 <= j < |comments| && comments[j].body == body ==> j == i
  }

  lemma {:induction false} CommentsCount(body: Body, comments: seq<Comment>)
    ensures CommentsWith(body, comments) == [] <==> NoneShows(body, comments)
    ensures |CommentsWith(body, comments)| == 1 <==> exists i :: OnlyShows(body, comments, i)
    ensures forall i :: OnlyShows(body, comments, i) ==> CommentsWith(body, comments) == [comments[i]]
  {
    if comments != [] {
      var rest := comments[1..];
      CommentsCount(body, rest);
      assert forall i :: 0 < i < |comments| ==> comments[i] == rest[i - 1];
      forall i | OnlyShows(body, comments, i) ensures CommentsWith(body, comments) == [comments[i]] {
        if i > 0 {
          assert OnlyShows(body, rest, i - 1);
        } else {
          assert NoneShows(body, rest);
        }
      }
      if |CommentsWith(body, comments)| == 1 {
        if comments[0].body == body {
          assert OnlyShows(body, comments, 0);
        } else {
          var i :| OnlyShows(body, rest, i);
          assert OnlyShows(body, comments, i + 1);
        }
      }
    }
  }

  /** The listed comments show exactly one notice of the entry's run, and it has an id. */
  ghost predicate NoticeFound(entry: Entry, slot: Slot, comments: Exec<seq<Comment>>) {
    entry.runId.Some? && comments.Done? &&
    exists i :: OnlyShows(Notice(slot, entry.runId.value), comments.value, i) && comments.value[i].id.Some?
  }

  // ------------------------------------------------------ the answers of one turn

  /** What is answered from the recorded intent to dispatch up to the last poll. */
  datatype Sending = Sending(
    intent: Writing, mayWrite: Exec<bool>, sentAt: Exec<int>, withdrawn: Writing,
    sent: Exec<()>, unsure: Writing, polls: nat -> Exec<seq<Row>>, found: Writing)

  /** What is answered at the end of a turn. */
  datatype Posting = Posting(
    unanswered: Writing, comments: Exec<seq<Comment>>, found: Writing, mayWrite: Exec<bool>,
    intent: Writing, stillMay: Exec<bool>, withdrawn: Writing,
    posted: Exec<Comment>, listed: Exec<seq<Comment>>, ended: Writing)

  /** All answers that one turn may ask for. */
  datatype Turn = Turn(
    clock: Exec<int>, rows: Exec<seq<Row>>, saved: Writing, reading: Reading, sending: Sending, posting: Posting)

  /** A process: when it starts, whether it acts, and what each slot's turn is answered. */
  datatype Launch = Launch(now: int, act: bool, answers: Slot -> Turn)

  /** Nothing comes between the decision and the request. */
  predicate Goes(slot: Slot, s: Sending) {
    s.intent.Works() && s.mayWrite == Done(true) && s.sentAt.Done? && InWindow(slot, s.sentAt.value)
  }

  /** The poll with this number is the first to list the one run that answers. */
  ghost predicate PolledAt(entry: Entry, slot: Slot, polls: nat -> Exec<seq<Row>>, i: nat) {
    && polls(i).Done? && GoodRows(polls(i).value) && OneAnswers(entry, slot, RunsOf(polls(i).value))
    && forall j :: 0 <= j < i ==> Unheard(entry, slot, polls(j))
  }

  predicate Unheard(entry: Entry, slot: Slot, rows: Exec<seq<Row>>) {
    rows.Done? && GoodRows(rows.value) && NoneAnswers(entry, slot, RunsOf(rows.value))
  }

  /** A notice of the run is sent: none is listed, and no hold or failing save comes first. */
  predicate Announces(entry: Entry, slot: Slot, p: Posting) {
    && entry.state == RunConfirmed && entry.runId.Some?
    && p.comments.Done? && NoneShows(Notice(slot, entry.runId.value), p.comments.value)
    && p.mayWrite == Done(true) && p.intent.Works() && p.stillMay == Done(true)
  }

  /** The notice that was sent came back and is listed. */
  predicate Acknowledged(body: Body, p: Posting) {
    && p.posted.Done? && p.posted.value.id.Some? && p.posted.value.body == body
    && p.listed.Done? && p.posted.value in p.listed.value
  }

  /** The whole way to a dispatch, for a slot with this entry. */
  predicate Dispatches(entry: Option<Entry>, slot: Slot, act: bool, q: Turn) {
    && act
    && (entry.Some? ==> entry.value.state == DispatchHeld && q.clock.Done? && InWindow(slot, q.clock.value))
    && q.rows.Done? && GoodRows(q.rows.value)
    && ClearToSend(slot, RunsOf(q.rows.value), q.reading) && Goes(slot, q.sending)
  }

  /** The missed schedule: whatever the slot, with no entry, nothing listed and nothing
      in the way, the turn calls for a dispatch. */
  lemma MissedScheduleIsDispatched(slot: Slot, sha: string, now: int, q: Turn)
    requires ShaOk(sha) && InWindow(slot, now) && q.rows == Done([]) && Goes(slot, q.sending)
    requires q.reading == Reading(Done(true), Done(now), Done(Some(sha)), Done([]),
                                  Done(now), Done(Some(sha)), Done(now), Done(true))
    ensures ClearToSend(slot, [], q.reading) && Dispatches(None, slot, true, q)
  {
  }

  /** Answers on which a turn that only plans would have dispatched. */
  predicate Plans(entry: Option<Entry>, slot: Slot, act: bool, q: Turn) {
    && !act
    && (entry.Some? ==> entry.value.state == DispatchHeld && q.clock.Done? && InWindow(slot, q.clock.value))
    && q.rows.Done? && GoodRows(q.rows.value) && q.reading.active == Done(true)
    && q.reading.firstAt.Done? && Uncovered(slot, RunsOf(q.rows.value), q.reading.firstAt.value)
  }
}
