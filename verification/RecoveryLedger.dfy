/** The schedule-recovery ledger: a memory copy of the entries, the durable file,
    and what has been posted to the outside world.

    Every call that leaves the process, and every save, may raise or crash. A
    crash loses the memory copy and nothing else, so what a method ensures on
    every exit holds at every statement where the process can die. */
module RecoveryLedger {
  import opened LedgerFile
  import opened Outcomes
  import opened RecoveryReads
  import opened RecoverySlots
  import opened Sequences

  // ------------------------------------------------------------- what may be

  predicate SameRequest(a: Entry, b: Entry) {
    a.(state := b.state, runId := b.runId, commentId := b.commentId) == b
  }

  /** The order in which the copies of one entry may follow each other. */
  predicate Leads(a: Option<Entry>, b: Option<Entry>) {
    a == b ||
    match a
    case None => true
    case Some(x) =>
      b.Some? &&
      var y := b.value;
      match x.state
      case Skipped => false
      case Complete => false
      case DispatchHeld => true
      case DispatchIntent => true
      case DispatchUnknown => SameRequest(x, y) && (y.state.DispatchUnknown? || HasRun(y.state))
      case NoticeUnknown => RunKept(x, y) && y.state in {NoticeUnknown, Complete}
      case _ => RunKept(x, y) && HasRun(y.state)
  }

  predicate RunKept(a: Entry, b: Entry) {
    SameRequest(a, b) && a.runId.Some? && a.runId == b.runId
  }

  /** Entries that no process changes: the ended ones, and those that speak of a run
      without naming it. */
  predicate Settled(e: Entry) {
    e.state in {Complete, Skipped} || (HasRun(e.state) && e.runId.None?)
  }

  /** A listing and comments that settle what an entry past its dispatch waits for. */
  ghost predicate MovedBy(e: Entry, slot: Slot, runs: seq<Run>, comments: Exec<seq<Comment>>) {
    match e.state
    case DispatchIntent => OneAnswers(e, slot, runs) || NoneAnswers(e, slot, runs)
    case DispatchUnknown => OneAnswers(e, slot, runs)
    case _ => HasRun(e.state) && e.state != Complete && NoticeFound(e, slot, comments)
  }

  /** Answers on which an acting turn changes the entry. */
  ghost predicate MovesOn(e: Entry, slot: Slot, q: Turn) {
    q.saved.Lands() && q.posting.unanswered.Lands() && q.posting.found.Lands() &&
    if e.state == DispatchHeld then q.clock.Done? && !InWindow(slot, q.clock.value)
    else q.rows.Done? && GoodRows(q.rows.value) && MovedBy(e, slot, RunsOf(q.rows.value), q.posting.comments)
  }

  predicate Asked(e: Entry) {
    e.state in {DispatchIntent, DispatchUnknown}
  }

  /** Under a key of today's workflows the settled entries are the only ones that
      nothing can change, whatever workflow they name themselves. */
  lemma MovableIff(slot: Slot, e: Entry)
    ensures (exists q :: MovesOn(e, slot, q)) <==> !Settled(e)
  {
    if !Settled(e) {
      var q := Mover(e, slot);
      if e.state in {RunConfirmed, NoticeIntent, NoticeUnknown} {
        assert OnlyShows(Notice(slot, e.runId.value), q.posting.comments.value, 0);
      } else if e.state == DispatchUnknown {
        assert OnlyAnswer(e, slot, RunsOf(q.rows.value), 0);
      }
      assert MovesOn(e, slot, q);
    }
  }

  /** For every entry that is not settled, answers that move it. */
  function Mover(e: Entry, slot: Slot): Turn {
    var id := 1 + if e.beforeId < 0 then 0 else e.beforeId;
    var title := Title(true, {slot.at}, false, {}, false);
    var answer := Run(id, WorkflowDispatch, true, title, e.headSha, e.attemptedAt);
    var notice := Comment(Some(1), Notice(slot, e.runId.GetOr(0)));
    var works := Writing(Done(()), Done(()));
    Turn(Done(slot.at), Done(if e.state == DispatchUnknown then [Row(answer, true)] else []), works,
         Reading(Crashed, Crashed, Crashed, Crashed, Crashed, Crashed, Crashed, Crashed),
         Sending(works, Crashed, Crashed, works, Crashed, works, _ => Crashed, works),
         Posting(works, Done([notice]), works, Crashed, works, Crashed, works, Crashed, Crashed, works))
  }

  lemma NothingToAnnounce(e: Entry, slot: Slot, p: Posting)
    ensures !HasRun(e.state) ==> !Announces(e, slot, p)
  {
  }

  lemma OnlyActingDispatches(e: Option<Entry>, slot: Slot, act: bool, q: Turn)
    ensures Dispatches(e, slot, act, q) ==> act
  {
  }

  /** What answers a request does not depend on the state of its entry. */
  lemma SameAnswers(a: Entry, b: Entry, slot: Slot, rows: Exec<seq<Row>>)
    requires b == a.(state := b.state)
    ensures Unheard(a, slot, rows) <==> Unheard(b, slot, rows)
    ensures rows.Done? ==>
              (OneAnswers(a, slot, RunsOf(rows.value)) <==> OneAnswers(b, slot, RunsOf(rows.value)))
  {
    if rows.Done? {
      var runs := RunsOf(rows.value);
      assert forall i :: OnlyAnswer(a, slot, runs, i) <==> OnlyAnswer(b, slot, runs, i);
    }
  }

  lemma PolledIsHeard(entry: Entry, slot: Slot, polls: nat -> Exec<seq<Row>>, i: nat)
    ensures PolledAt(entry, slot, polls, i) ==> !Unheard(entry, slot, polls(i))
  {
    if PolledAt(entry, slot, polls, i) {
      var k :| OnlyAnswer(entry, slot, RunsOf(polls(i).value), k);
    }
  }

  /** Once a poll is not unheard, it alone can be the one that finds the run. */
  lemma FirstHeard(entry: Entry, slot: Slot, polls: nat -> Exec<seq<Row>>, at: nat)
    requires forall j :: 0 <= j < at ==> Unheard(entry, slot, polls(j))
    requires !Unheard(entry, slot, polls(at))
    ensures forall i: nat :: PolledAt(entry, slot, polls, i) ==> i == at
  {
    forall i: nat ensures PolledAt(entry, slot, polls, i) ==> i == at {
      PolledIsHeard(entry, slot, polls, i);
    }
  }

  lemma NeverHeard(entry: Entry, slot: Slot, polls: nat -> Exec<seq<Row>>, n: nat)
    requires forall j :: 0 <= j < n ==> Unheard(entry, slot, polls(j))
    ensures forall i: nat :: i < n ==> !PolledAt(entry, slot, polls, i)
  {
    forall i: nat | i < n ensures !PolledAt(entry, slot, polls, i) {
      PolledIsHeard(entry, slot, polls, i);
    }
  }

  /** The dispatches of before, and those that the turns on these slots call for. */
  ghost function Sends(
    before: multiset<Slot>, file: map<Slot, Entry>, order: seq<Slot>, act: bool, answers: Slot -> Turn): multiset<Slot>
  {
    if order == [] then before
    else
      var k := order[|order| - 1];
      Sends(before, file, order[..|order| - 1], act, answers)
      + if Dispatches(Lookup(file, k), k, act, answers(k)) then multiset{k} else multiset{}
  }

  lemma SendsNext(before: multiset<Slot>, file: map<Slot, Entry>, order: seq<Slot>, i: nat, act: bool,
                  answers: Slot -> Turn)
    requires i < |order|
    ensures var k := order[i];
            Sends(before, file, order[..i + 1], act, answers) ==
            Sends(before, file, order[..i], act, answers) +
              if Dispatches(Lookup(file, k), k, act, answers(k)) then multiset{k} else multiset{}
  {
    hide Dispatches;
    assert order[..i + 1][..i] == order[..i];
  }

  lemma SendsNothing(before: multiset<Slot>, file: map<Slot, Entry>, order: seq<Slot>, act: bool, answers: Slot -> Turn)
    ensures Sends(before, file, order[..0], act, answers) == before
  {
  }

  lemma {:induction false} SendsOnce(before: multiset<Slot>, file: map<Slot, Entry>, order: seq<Slot>, act: bool,
                                     answers: Slot -> Turn, k: Slot)
    requires Distinct(order)
    ensures Sends(before, file, order, act, answers)[k] ==
            before[k] + if k in order && Dispatches(Lookup(file, k), k, act, answers(k)) then 1 else 0
  {
    hide Dispatches;
    if order != [] {
      var n := |order| - 1;
      SendsOnce(before, file, order[..n], act, answers, k);
      assert order == order[..n] + [order[n]];
    }
  }

  lemma NothingCounted()
    ensures AllCounted(Counters(0, 0, 0, 0), 0)
  {
  }

  lemma DistinctFrom(todo: seq<Slot>, i: nat)
    requires Distinct(todo) && i < |todo|
    ensures forall j :: i < j < |todo| ==> todo[j] != todo[i]
  {
  }

  ghost function CountPlans(file: map<Slot, Entry>, order: seq<Slot>, act: bool, answers: Slot -> Turn): nat {
    if order == [] then 0
    else
      var k := order[|order| - 1];
      CountPlans(file, order[..|order| - 1], act, answers) + if Plans(Lookup(file, k), k, act, answers(k)) then 1 else 0
  }

  lemma LeadsTransitive(a: Option<Entry>, b: Option<Entry>, c: Option<Entry>)
    requires Leads(a, b) && Leads(b, c)
    ensures Leads(a, c)
  {
  }

  ghost predicate AllLead(a: map<Slot, Entry>, b: map<Slot, Entry>) {
    forall k :: Leads(Lookup(a, k), Lookup(b, k))
  }

  /** Keys that no workflow of today owns: nothing may happen to them. */
  ghost predicate SameHistory(a: map<Slot, Entry>, b: map<Slot, Entry>) {
    forall k :: !ValidSlot(k) ==> Lookup(a, k) == Lookup(b, k)
  }

  lemma AllLeadTransitive(a: map<Slot, Entry>, b: map<Slot, Entry>, c: map<Slot, Entry>)
    requires AllLead(a, b) && AllLead(b, c)
    ensures AllLead(a, c)
  {
    forall k ensures Leads(Lookup(a, k), Lookup(c, k)) {
      LeadsTransitive(Lookup(a, k), Lookup(b, k), Lookup(c, k));
    }
  }

  lemma SettledStay(a: map<Slot, Entry>, b: map<Slot, Entry>)
    requires AllLead(a, b) && SameHistory(a, b)
    ensures forall k :: k in a && (Settled(a[k]) || !ValidSlot(k)) ==> k in b && b[k] == a[k]
  {
    forall k | k in a && (Settled(a[k]) || !ValidSlot(k))
      ensures k in b && b[k] == a[k]
    {
      assert Leads(Lookup(a, k), Lookup(b, k));
      assert !ValidSlot(k) ==> Lookup(a, k) == Lookup(b, k);
    }
  }

  /** One slot's turn, seen from the file as it was when the process started. */
  lemma TurnFollows(start: map<Slot, Entry>, disk: map<Slot, Entry>, memory: map<Slot, Entry>,
                    disk': map<Slot, Entry>, slot: Slot)
    requires AllLead(start, disk) && AllLead(disk, memory)
    requires disk' - {slot} == disk - {slot} || disk' - {slot} == memory - {slot}
    requires Leads(Lookup(disk, slot), Lookup(disk', slot))
    ensures AllLead(start, disk')
  {
    forall k ensures Leads(Lookup(start, k), Lookup(disk', k)) {
      if k == slot {
        LeadsTransitive(Lookup(start, k), Lookup(disk, k), Lookup(disk', k));
      } else {
        ElsewhereSame(disk', if disk' - {slot} == disk - {slot} then disk else memory, slot, k);
        LeadsTransitive(Lookup(start, k), Lookup(disk, k), Lookup(disk', k));
      }
    }
  }

  lemma ElsewhereSame(a: map<Slot, Entry>, b: map<Slot, Entry>, slot: Slot, k: Slot)
    requires a - {slot} == b - {slot} && k != slot
    ensures Lookup(a, k) == Lookup(b, k)
  {
    assert Lookup(a - {slot}, k) == Lookup(b - {slot}, k);
  }

  /** States from which a dispatch may still be sent: nothing has been posted. */
  predicate Unsent(e: Option<Entry>) {
    e.None? || e.value.state in {DispatchHeld, Skipped}
  }

  /** States that a posted notice can be in. */
  predicate Announced(e: Option<Entry>) {
    e.Some? && e.value.state in {NoticeIntent, NoticeUnknown, Complete}
  }

  /** What holds of one slot at every moment: the file can be loaded again, memory
      is ahead of it, and every post left its mark in both before it was made. */
  ghost predicate SlotOk(key: Slot, onDisk: Option<Entry>, inMemory: Option<Entry>,
                         dispatches: nat, request: Option<Entry>, notices: nat)
  {
    && (onDisk.Some? ==> Accepted(key, onDisk.value))
    && (inMemory.Some? ==> Accepted(key, inMemory.value))
    && Leads(onDisk, inMemory)
    && dispatches <= 1
    && (dispatches > 0 ==>
          && request.Some? && !Unsent(onDisk) && !Unsent(inMemory)
          && SameRequest(request.value, onDisk.value) && SameRequest(request.value, inMemory.value))
    && notices <= 1
    && (notices > 0 ==> Announced(onDisk) && Announced(inMemory))
  }

  /** The slot is due, or the file holds an entry of today's workflows that has not ended. */
  predicate Candidate(entries: map<Slot, Entry>, now: int, k: Slot) {
    (ValidSlot(k) && InWindow(k, now)) || Unfinished(entries, k)
  }

  predicate Unfinished(entries: map<Slot, Entry>, k: Slot) {
    k in entries && !entries[k].workflow.Retired? && entries[k].state !in {Complete, Skipped}
  }

  /** Always true. Naming a slot this way is how a proof brings in what the
      invariant says of that slot, and of no other. */
  ghost predicate Watched(k: Slot) {
    true
  }

  class Ledger {
    var entries: map<Slot, Entry>          // memory
    var disk: map<Slot, Entry>             // the file
    ghost var dispatches: multiset<Slot>   // dispatch requests attempted, ever
    ghost var requests: map<Slot, Entry>   // the entry each of them was made for
    ghost var notices: multiset<Slot>      // notice comments attempted, ever

    ghost predicate Valid()
      reads this
    {
      forall k {:trigger Watched(k)} :: Watched(k) ==> ValidAt(k)
    }

    ghost predicate ValidAt(k: Slot)
      reads this
    {
      SlotOk(k, Lookup(disk, k), Lookup(entries, k), dispatches[k], Lookup(requests, k), notices[k])
    }

    lemma LookAt(slot: Slot)
      requires Valid()
      ensures ValidAt(slot)
    {
      assert Watched(slot);
    }

    lemma MemoryLeads()
      requires Valid()
      ensures AllLead(disk, entries)
    {
      forall k ensures Leads(Lookup(disk, k), Lookup(entries, k)) {
        LookAt(k);
      }
    }

    /** Only this slot's entry moved, and forward; the other entries are as they
        were in memory, and in the file as they were there or in memory. */
    twostate predicate OnlyTouches(slot: Slot)
      reads this
    {
      && entries - {slot} == old(entries) - {slot}
      && (disk - {slot} == old(disk) - {slot} || disk - {slot} == old(entries) - {slot})
      && Leads(old(Lookup(disk, slot)), Lookup(disk, slot))
    }

    /** What was sent once stays sent, for the entry it was sent for. */
    twostate predicate Remembers()
      reads this
    {
      && old(dispatches) <= dispatches && old(notices) <= notices
      && forall k :: k in old(dispatches) ==> Lookup(requests, k) == Lookup(old(requests), k)
    }

    constructor ()
      ensures Valid() && entries == map[] && disk == map[] && dispatches == multiset{} && notices == multiset{}
    {
      entries, disk := map[], map[];
      dispatches, requests, notices := multiset{}, map[], multiset{};
    }

    /** Any file whose entries are accepted, found by the first process. */
    constructor WithFile(file: map<Slot, Entry>)
      requires AllAccepted(file)
      ensures Valid() && entries == file && disk == file && dispatches == multiset{} && notices == multiset{}
    {
      entries, disk := file, file;
      dispatches, requests, notices := multiset{}, map[], multiset{};
    }

    /** The file has only moved forward since it read as `start`, and neither it nor
        memory has touched what no workflow of today owns. */
    ghost predicate Follows(start: map<Slot, Entry>)
      reads this
    {
      AllLead(start, disk) && SameHistory(start, disk) && SameHistory(start, entries)
    }

    /** A turn that counts a confirmed run has the run on record, in the file when acting. */
    ghost predicate Concluded(slot: Slot, act: bool, r: Exec<Tally>, confirmed: bool)
      reads this
    {
      && (r.Done? ==> (confirmed <==> r.value == Confirmed))
      && (confirmed ==> slot in entries && HasRun(entries[slot].state))
      && (r == Done(Confirmed) ==>
            && slot in entries && HasRun(entries[slot].state)
            && (act ==> slot in disk && disk[slot].state in {RunConfirmed, Complete}))
    }

    /** Start of a process: memory is what the file holds, if the file is accepted. */
    method Load() returns (r: Exec<()>)
      requires Valid()
      modifies this`entries
      ensures Valid()
      ensures !r.Crashed?
      ensures r.Done? <==> FileSize(disk) <= 8 * 1024 * 1024 && |disk| <= 50000
      ensures r.Done? ==> entries == disk
    {
      forall k ensures k in disk ==> Accepted(k, disk[k]) {
        LookAt(k);
      }
      r := CheckFile(disk);
      if r.Done? {
        entries := disk;
        forall k ensures ValidAt(k) {
          assert Watched(k) && old(ValidAt(k));
        }
      }
    }

    /** `save`: the whole file is replaced at once, or not at all; the failure
        and the crash can come before or after the replacement. */
    method Save(w: Writing) returns (r: Exec<()>)
      requires Valid()
      modifies this`disk
      ensures Valid()
      ensures disk == if w.Lands() then entries else old(disk)
      ensures r == w.Result()
    {
      var reached :- w.reached;
      disk := entries;
      r := w.returned;
    }

    /** Assignment to one entry in memory. */
    method Put(slot: Slot, e: Entry)
      requires Valid()
      requires Accepted(slot, e)
      requires Leads(Lookup(entries, slot), Some(e))
      requires dispatches[slot] > 0 ==> !Unsent(Some(e)) && slot in entries && SameRequest(entries[slot], e)
      requires notices[slot] > 0 ==> Announced(Some(e))
      modifies this`entries
      ensures Valid()
      ensures entries == old(entries)[slot := e]
      ensures entries - {slot} == old(entries) - {slot}
    {
      LookAt(slot);
      LeadsTransitive(Lookup(disk, slot), Lookup(entries, slot), Some(e));
      entries := entries[slot := e];
      forall k
        ensures ValidAt(k)
      {
        assert Watched(k) && old(ValidAt(k));
      }
    }

    /** The dispatch request itself. What justifies it must be in the file. */
    method PostDispatch(slot: Slot, ghost decision: Decision, ghost sentAt: int, sent: Exec<()>) returns (r: Exec<()>)
      requires Valid()
      requires Lookup(disk, slot) == Lookup(entries, slot)
      requires decision.Send? && Sendable(slot, decision) && Lookup(disk, slot) == Some(decision.entry)
      requires InWindow(slot, sentAt)
      requires dispatches[slot] == 0
      modifies this`dispatches, this`requests
      ensures Valid()
      ensures dispatches == old(dispatches) + multiset{slot}
      ensures requests == old(requests)[slot := disk[slot]]
      ensures r == sent
    {
      dispatches := dispatches + multiset{slot};
      requests := requests[slot := disk[slot]];
      forall k
        ensures ValidAt(k)
      {
        assert Watched(k) && old(ValidAt(k));
      }
      r := sent;
    }

    /** The request that adds the notice comment. */
    method PostNotice(slot: Slot, posted: Exec<Comment>) returns (r: Exec<Comment>)
      requires Valid()
      requires Lookup(disk, slot) == Lookup(entries, slot)
      requires slot in disk && disk[slot].state == NoticeIntent
      requires notices[slot] == 0
      modifies this`notices
      ensures Valid()
      ensures notices == old(notices) + multiset{slot} && r == posted
    {
      notices := notices + multiset{slot};
      forall k
        ensures ValidAt(k)
      {
        assert Watched(k) && old(ValidAt(k));
      }
      r := posted;
    }

    /** `confirm_run`: record the one run that answers the request, if any. */
    method ConfirmRun(slot: Slot, runs: seq<Run>) returns (r: Exec<bool>)
      requires Valid()
      requires slot in entries && Asked(entries[slot])
      requires notices[slot] == 0
      modifies this`entries
      ensures Valid()
      ensures !r.Crashed?
      ensures entries - {slot} == old(entries) - {slot} && slot in entries
      ensures Leads(Some(old(entries[slot])), Some(entries[slot]))
      ensures !(r == Done(true)) ==> entries == old(entries)
      ensures r == Done(true) <==> OneAnswers(old(entries[slot]), slot, runs)
      ensures forall i :: OnlyAnswer(old(entries[slot]), slot, runs, i) ==>
                entries == old(entries)[slot := old(entries[slot]).(state := RunConfirmed, runId := Some(runs[i].id))]
      ensures r == Done(true) ==> entries[slot].state == RunConfirmed && entries[slot].runId.Some?
      ensures r == Done(false) <==> NoneAnswers(old(entries[slot]), slot, runs)
    {
      var entry := entries[slot];
      var matching := Matching(entry, slot, runs);
      MatchingCounts(entry, slot, runs);
      if |matching| > 1 {
        return Raised("multiple_recovery_runs");
      }
      if matching == [] {
        return Done(false);
      }
      var run := matching[0];
      assert run in matching;
      LookAt(slot);
      Put(slot, entry.(state := RunConfirmed, runId := Some(run.id)));
      r := Done(true);
    }

    /** The guarded part of `publish_notice`: post, then confirm by a separate listing. */
    method SendNotice(slot: Slot, body: Body, p: Posting) returns (r: Exec<int>)
      requires Valid()
      requires Lookup(disk, slot) == Lookup(entries, slot)
      requires slot in disk && disk[slot].state == NoticeIntent
      requires notices[slot] == 0
      modifies this`notices
      ensures Valid()
      ensures notices == old(notices) + multiset{slot}
      ensures r.Done? <==> Acknowledged(body, p)
      ensures r.Crashed? ==> p.posted.Crashed? || p.listed.Crashed?
    {
      var result :- PostNotice(slot, p.posted);
      if result.id.None? || result.body != body {
        return Raised("notice_not_confirmed");
      }
      var comments :- p.listed;
      if result !in comments {
        return Raised("notice_not_confirmed");
      }
      r := Done(result.id.value);
    }

    /** The tail of `publish_notice`: durable intent, a last look at the hold, the post. */
    method Announce(slot: Slot, p: Posting) returns (r: Exec<()>)
      requires Valid()
      requires Lookup(disk, slot) == Lookup(entries, slot)
      requires slot in entries && entries[slot].state == RunConfirmed && entries[slot].runId.Some?
      requires notices[slot] == 0 && Accepted(slot, entries[slot])
      modifies this`entries, this`disk, this`notices
      ensures Valid() && OnlyTouches(slot)
      ensures notices == old(notices) +
                if p.intent.Works() && p.stillMay == Done(true) then multiset{slot} else multiset{}
      ensures slot in entries && Leads(Some(old(entries[slot])), Some(entries[slot]))
      ensures r.Done? ==> Lookup(disk, slot) == Lookup(entries, slot)
      ensures r.Done? ==> entries[slot].state == if notices == old(notices) then RunConfirmed else Complete
      ensures r.Done? && notices != old(notices) ==> Acknowledged(Notice(slot, old(entries[slot]).runId.value), p)
      // What was sent ends as complete if it is acknowledged and else as unknown.
      ensures notices != old(notices) && Acknowledged(Notice(slot, old(entries[slot]).runId.value), p) ==>
                entries[slot].state == Complete && (p.ended.Lands() ==> slot in disk && disk[slot] == entries[slot])
      ensures notices != old(notices) && entries[slot].state != Complete && !r.Crashed? ==>
                entries[slot].state == NoticeUnknown
    {
      var entry := entries[slot];
      Put(slot, entry.(state := NoticeIntent));
      var saved :- Save(p.intent);
      var mayWrite :- p.stillMay;
      if !mayWrite {
        Put(slot, entry);
        r := Save(p.withdrawn);
        return;
      }
      var sent := SendNotice(slot, Notice(slot, entry.runId.value), p);
      match sent
      case Crashed =>
        r := Crashed;
      case Raised(_) =>
        Put(slot, entry.(state := NoticeUnknown));
        saved :- Save(p.ended);
        r := Raised("notice_outcome_unknown");
      case Done(id) =>
        Put(slot, entry.(state := Complete, commentId := Some(id)));
        r := Save(p.ended);
    }

    /** `publish_notice`: announce the run at most once, whatever becomes of the request. */
    method PublishNotice(slot: Slot, p: Posting) returns (r: Exec<()>)
      requires Valid()
      requires Lookup(disk, slot) == Lookup(entries, slot)
      requires slot in entries && entries[slot].state in {RunConfirmed, NoticeIntent, NoticeUnknown}
      modifies this`entries, this`disk, this`notices
      ensures Valid() && OnlyTouches(slot)
      ensures notices == old(notices) + if Announces(old(entries[slot]), slot, p) then multiset{slot} else multiset{}
      ensures slot in entries && Leads(Some(old(entries[slot])), Some(entries[slot]))
      ensures r.Done? ==> Lookup(disk, slot) == Lookup(entries, slot)
      ensures r.Done? ==> entries[slot].state in {RunConfirmed, Complete}
      ensures r.Done? && entries[slot].state == RunConfirmed ==> notices == old(notices)
      // A notice that is already there completes the entry, and the file says so.
      ensures NoticeFound(old(entries[slot]), slot, p.comments) && p.found.Lands() ==>
                slot in disk && disk[slot].state == Complete
      // So does one that is sent and acknowledged.
      ensures Announces(old(entries[slot]), slot, p) && p.ended.Lands()
              && Acknowledged(Notice(slot, old(entries[slot]).runId.value), p) ==>
                slot in disk && disk[slot].state == Complete
    {
      LookAt(slot);
      var entry := entries[slot];
      if entry.runId.None? {
        return Raised("KeyError");
      }
      var body := Notice(slot, entry.runId.value);
      var comments :- p.comments;
      var matches := CommentsWith(body, comments);
      CommentsCount(body, comments);
      if |matches| == 1 && matches[0].id.Some? {
        Put(slot, entry.(state := Complete, commentId := matches[0].id));
        r := Save(p.found);
        return;
      }
      if matches != [] {
        return Raised("multiple_recovery_notices");
      }
      if entry.state in {NoticeIntent, NoticeUnknown} {
        return Raised("notice_outcome_unknown");
      }
      var mayWrite :- p.mayWrite;
      if !mayWrite {
        return Done(());
      }
      r := Announce(slot, p);
    }

    /** Record the intent and take the last look at the hold and the clock. `Some`
        is the moment at which the request may be sent; `None` records that it was not. */
    method Intend(slot: Slot, entry: Entry, s: Sending) returns (r: Exec<Option<int>>)
      requires Valid()
      requires Lookup(disk, slot) == Lookup(entries, slot)
      requires slot in entries ==> entries[slot].state == DispatchHeld
      requires Accepted(slot, entry) && entry.state == DispatchIntent
      requires dispatches[slot] == 0 && notices[slot] == 0
      modifies this`entries, this`disk
      ensures Valid() && OnlyTouches(slot)
      ensures slot in entries && Leads(Some(entry), Lookup(entries, slot))
      ensures r.Done? ==> Lookup(disk, slot) == Lookup(entries, slot)
      ensures r.Done? && r.value.Some? <==> Goes(slot, s)
      ensures r.Done? && r.value.Some? ==> entries[slot] == entry && r.value.value == s.sentAt.value
      // A hold leaves the entry for a later turn, a late clock ends it.
      ensures s.intent.Works() && s.mayWrite == Done(false) ==> entries[slot] == entry.(state := DispatchHeld)
      ensures s.intent.Works() && s.mayWrite == Done(true) && s.sentAt.Done? && !InWindow(slot, s.sentAt.value) ==>
                entries[slot] == entry.(state := Skipped)
      ensures r.Done? && r.value.None? ==> entries[slot].state in {DispatchHeld, Skipped}
    {
      Put(slot, entry);
      var saved :- Save(s.intent);
      var mayWrite :- s.mayWrite;
      if !mayWrite {
        Put(slot, entry.(state := DispatchHeld));
        saved :- Save(s.withdrawn);
        return Done(None);
      }
      var sentAt :- s.sentAt;
      if !InWindow(slot, sentAt) {
        Put(slot, entry.(state := Skipped));
        saved :- Save(s.withdrawn);
        return Done(None);
      }
      r := Done(Some(sentAt));
    }

    /** One poll for the run that a request has started. */
    method Poll(slot: Slot, rows: Exec<seq<Row>>, found: Writing) returns (r: Exec<bool>)
      requires Valid()
      requires Lookup(disk, slot) == Lookup(entries, slot)
      requires slot in entries && Asked(entries[slot]) && notices[slot] == 0
      modifies this`entries, this`disk
      ensures Valid() && OnlyTouches(slot) && slot in entries
      ensures r.Done? ==> Lookup(disk, slot) == Lookup(entries, slot)
      ensures Leads(Some(old(entries[slot])), Some(entries[slot]))
      ensures r == Done(false) <==> Unheard(old(entries[slot]), slot, rows)
      ensures r == Done(false) ==> entries == old(entries) && disk == old(disk)
      ensures entries == old(entries) || entries[slot].state == RunConfirmed
      ensures entries != old(entries) <==>
                rows.Done? && GoodRows(rows.value) && OneAnswers(old(entries[slot]), slot, RunsOf(rows.value))
      ensures entries != old(entries) && found.Lands() ==> slot in disk && disk[slot].state == RunConfirmed
    {
      hide GoodRows, OneAnswers, RunsOf;
      var listed :- rows;
      var runs :- CheckRows(listed);
      var confirmed :- ConfirmRun(slot, runs);
      if confirmed {
        var saved :- Save(found);
      }
      r := Done(confirmed);
    }

    /** Send the request, then poll for the run it starts. */
    method SendAndPoll(slot: Slot, ghost decision: Decision, s: Sending) returns (r: Exec<()>)
      requires Valid()
      requires Lookup(disk, slot) == Lookup(entries, slot)
      requires decision.Send? && Sendable(slot, decision) && Lookup(disk, slot) == Some(decision.entry)
      requires Goes(slot, s)
      requires dispatches[slot] == 0 && notices[slot] == 0
      modifies this`entries, this`disk, this`dispatches, this`requests
      ensures Valid() && OnlyTouches(slot)
      ensures dispatches == old(dispatches) + multiset{slot}
      ensures requests == old(requests)[slot := decision.entry]
      ensures slot in entries && Leads(Some(decision.entry), Lookup(entries, slot))
      ensures r.Done? ==> entries[slot].state in {DispatchIntent, DispatchUnknown, RunConfirmed}
      ensures r.Done? ==> Lookup(disk, slot) == Lookup(entries, slot)
      // The run is on record as soon as one of the twelve polls lists it alone.
      ensures SentOrSaved(s) && (exists i: nat :: i < 12 && PolledAt(decision.entry, slot, s.polls, i)) ==>
                && entries[slot].state == RunConfirmed
                && (s.found.Lands() ==> slot in disk && disk[slot].state == RunConfirmed)
    {
      var entry := entries[slot];
      var sent := PostDispatch(slot, decision, s.sentAt.value, s.sent);
      if sent.Crashed? {
        return Crashed;
      }
      if sent.Raised? {
        Put(slot, entry.(state := DispatchUnknown));
        var saved :- Save(s.unsure);
      }
      r := PollAll(slot, entry, s);
    }

    /** The request returned, or raised and that was saved. */
    predicate SentOrSaved(s: Sending) {
      s.sent.Done? || (s.sent.Raised? && s.unsure.Works())
    }

    /** At most twelve polls, up to the first that lists the run. */
    method PollAll(slot: Slot, entry: Entry, s: Sending) returns (r: Exec<()>)
      requires Valid()
      requires Lookup(disk, slot) == Lookup(entries, slot)
      requires slot in entries && Asked(entries[slot]) && notices[slot] == 0
      requires entries[slot] == entry.(state := entries[slot].state)
      modifies this`entries, this`disk
      ensures Valid() && OnlyTouches(slot)
      // After the twelfth poll that hears nothing, it is left at that.
      ensures (forall j :: 0 <= j < 12 ==> Unheard(entry, slot, s.polls(j))) ==>
                r == Done(()) && entries == old(entries) && disk == old(disk)
      ensures slot in entries && Leads(Some(old(entries[slot])), Lookup(entries, slot))
      ensures r.Done? ==> entries[slot].state in {DispatchIntent, DispatchUnknown, RunConfirmed}
      ensures r.Done? ==> Lookup(disk, slot) == Lookup(entries, slot)
      ensures (exists i: nat :: i < 12 && PolledAt(entry, slot, s.polls, i)) ==>
                && entries[slot].state == RunConfirmed
                && (s.found.Lands() ==> slot in disk && disk[slot].state == RunConfirmed)
    {
      hide GoodRows, OneAnswers, NoneAnswers, RunsOf;
      for attempt := 0 to 12
        invariant Valid() && entries == old(entries) && disk == old(disk)
        invariant forall j :: 0 <= j < attempt ==> Unheard(entry, slot, s.polls(j))
      {
        SameAnswers(entry, entries[slot], slot, s.polls(attempt));
        var confirmed := Poll(slot, s.polls(attempt), s.found);
        if confirmed != Done(false) {
          FirstHeard(entry, slot, s.polls, attempt);
          return confirmed.Ends();
        }
      }
      NeverHeard(entry, slot, s.polls, 12);
      r := Done(());
    }

    /** The part of `recover` for a slot with no usable entry; `Some` ends its turn. */
    method Dispatch(slot: Slot, act: bool, firstRuns: seq<Run>, q: Reading, s: Sending) returns (r: Exec<Option<Tally>>)
      requires Valid() && ValidSlot(slot)
      requires Lookup(disk, slot) == Lookup(entries, slot)
      requires slot in entries ==> entries[slot].state == DispatchHeld
      modifies this`entries, this`disk, this`dispatches, this`requests
      ensures Valid() && OnlyTouches(slot)
      ensures Remembers()
      // A request is sent exactly on these answers.
      ensures dispatches == old(dispatches) +
                if act && ClearToSend(slot, firstRuns, q) && Goes(slot, s) then multiset{slot} else multiset{}
      ensures !act ==> entries == old(entries) && disk == old(disk)
      ensures r.Done? && r.value.Some? ==> r.value.value != Confirmed && dispatches == old(dispatches)
      ensures r == Done(Some(Planned)) <==>
                !act && q.active == Done(true) && q.firstAt.Done? && Uncovered(slot, firstRuns, q.firstAt.value)
      ensures r.Done? && r.value.None? ==>
                act && slot in entries && entries[slot].state in {DispatchIntent, DispatchUnknown, RunConfirmed}
      ensures r.Done? ==> Lookup(disk, slot) == Lookup(entries, slot)
    {
      hide ClearToSend, Goes, Uncovered;
      LookAt(slot);
      var decision :- Decide(slot, act, firstRuns, q);
      if decision.End? {
        return Done(Some(decision.tally));
      }
      var sentAt :- Intend(slot, decision.entry, s);
      if sentAt.None? {
        return Done(Some(Covered));
      }
      var polled :- SendAndPoll(slot, decision, s);
      r := Done(None);
    }

    /** The end of a turn: an unanswered request is an error, a confirmed run is announced. */
    method Conclude(slot: Slot, act: bool, p: Posting) returns (r: Exec<Tally>, confirmed: bool)
      requires Valid()
      requires act ==> Lookup(disk, slot) == Lookup(entries, slot)
      requires slot in entries
      requires entries[slot].state in {DispatchIntent, DispatchUnknown, RunConfirmed, NoticeIntent, NoticeUnknown}
      modifies this`entries, this`disk, this`notices
      ensures Valid()
      ensures entries - {slot} == old(entries) - {slot}
      ensures disk - {slot} == old(disk) - {slot} || disk - {slot} == old(entries) - {slot}
      ensures act ==> OnlyTouches(slot)
      ensures !act ==> disk == old(disk)
      ensures confirmed <==> HasRun(old(entries[slot]).state)
      ensures r.Done? ==> r.value == Confirmed
      ensures Concluded(slot, act, r, confirmed)
      ensures !act && confirmed ==> r == Done(Confirmed)
      ensures notices == old(notices) +
                if act && Announces(old(entries[slot]), slot, p) then multiset{slot} else multiset{}
      ensures act && p.unanswered.Lands() && !confirmed ==> slot in disk && disk[slot].state == DispatchUnknown
      ensures act && p.found.Lands() && confirmed && NoticeFound(old(entries[slot]), slot, p.comments) ==>
                slot in disk && disk[slot].state == Complete
    {
      hide Announces, NoticeFound;
      confirmed := false;
      var entry := entries[slot];
      NothingToAnnounce(entry, slot, p);
      if entry.state in {DispatchIntent, DispatchUnknown} {
        if act {
          LookAt(slot);
          Put(slot, entry.(state := DispatchUnknown));
          var saved :- Save(p.unanswered);
        }
        return Raised("dispatch_outcome_unknown"), false;
      }
      confirmed := true;
      if act {
        var published :- PublishNotice(slot, p);
      }
      r := Done(Confirmed);
    }

    /** A held entry, known not to have been sent, ends when its window does. */
    method Expire(slot: Slot, act: bool, clock: Exec<int>, w: Writing) returns (r: Exec<bool>)
      requires Valid()
      requires Lookup(disk, slot) == Lookup(entries, slot)
      requires slot in entries && entries[slot].state == DispatchHeld
      modifies this`entries, this`disk
      ensures Valid() && OnlyTouches(slot)
      ensures !act ==> disk == old(disk)
      ensures entries != old(entries) ==> act && entries == old(entries)[slot := old(entries[slot]).(state := Skipped)]
      ensures r == Done(false) <==> clock.Done? && InWindow(slot, clock.value)
      ensures r == Done(true) <==> clock.Done? && !InWindow(slot, clock.value) && (act ==> w.Works())
      ensures r == Done(false) ==> entries == old(entries) && disk == old(disk)
      // Past the window the file shows it as skipped, if the save got that far.
      ensures act && clock.Done? && !InWindow(slot, clock.value) && w.Lands() ==>
                slot in disk && disk[slot] == old(entries[slot]).(state := Skipped)
    {
      var now :- clock;
      if InWindow(slot, now) {
        return Done(false);
      }
      if act {
        LookAt(slot);
        Put(slot, entries[slot].(state := Skipped));
        var saved :- Save(w);
      }
      r := Done(true);
    }

    /** The rest of a turn on a slot with no usable entry: dispatch, then conclude. */
    method Start(slot: Slot, act: bool, runs: seq<Run>, q: Turn) returns (r: Exec<Tally>, confirmed: bool)
      requires Valid() && ValidSlot(slot)
      requires Lookup(disk, slot) == Lookup(entries, slot)
      requires slot in entries ==> entries[slot].state == DispatchHeld
      modifies this
      ensures Valid() && OnlyTouches(slot) && Remembers()
      ensures !act ==> disk == old(disk)
      ensures Concluded(slot, act, r, confirmed)
      ensures dispatches == old(dispatches) +
                if act && ClearToSend(slot, runs, q.reading) && Goes(slot, q.sending) then multiset{slot}
                else multiset{}
      ensures r == Done(Planned) <==>
                !act && q.reading.active == Done(true) && q.reading.firstAt.Done?
                && Uncovered(slot, runs, q.reading.firstAt.value)
      ensures notices != old(notices) ==> act && confirmed && notices == old(notices) + multiset{slot}
      ensures r.Done? && r.value != Confirmed ==> dispatches == old(dispatches) && notices == old(notices)
    {
      hide Announces, ClearToSend, Goes, Uncovered;
      LookAt(slot);
      confirmed := false;
      var ended :- Dispatch(slot, act, runs, q.reading, q.sending);
      if ended.Some? {
        return Done(ended.value), false;
      }
      NothingToAnnounce(entries[slot], slot, q.posting);
      r, confirmed := Conclude(slot, act, q.posting);
    }

    /** The rest of a turn on an entry that a request or a run stands behind: look for
        the run that answers the request, then conclude. */
    method Pursue(slot: Slot, act: bool, runs: seq<Run>, w: Writing, p: Posting)
      returns (r: Exec<Tally>, confirmed: bool)
      requires Valid()
      requires Lookup(disk, slot) == Lookup(entries, slot)
      requires slot in entries && entries[slot].state !in {DispatchHeld, Skipped, Complete}
      modifies this`entries, this`disk, this`notices
      ensures Valid() && OnlyTouches(slot)
      ensures !act ==> disk == old(disk)
      ensures Concluded(slot, act, r, confirmed) && (r.Done? ==> r.value == Confirmed)
      ensures notices != old(notices) ==> act && confirmed && notices == old(notices) + multiset{slot}
      ensures HasRun(old(entries[slot]).state) ==>
                notices == old(notices) +
                if act && Announces(old(entries[slot]), slot, p) then multiset{slot} else multiset{}
      ensures act && w.Lands() && p.unanswered.Lands() && p.found.Lands()
              && MovedBy(old(entries[slot]), slot, runs, p.comments) ==>
                slot in disk && disk[slot].state != old(entries[slot]).state
      // A run that is on record, or is listed alone, makes a planning turn end as confirmed.
      ensures !act && (HasRun(old(entries[slot]).state) || OneAnswers(old(entries[slot]), slot, runs)) ==>
                r == Done(Confirmed)
    {
      hide Announces, NoticeFound, OneAnswers, NoneAnswers, OnlyAnswer;
      LookAt(slot);
      confirmed := false;
      NothingToAnnounce(entries[slot], slot, p);
      if Asked(entries[slot]) {
        var answered :- ConfirmRun(slot, runs);
        if answered && act {
          var saved :- Save(w);
        }
      }
      r, confirmed := Conclude(slot, act, p);
    }

    /** One turn of the loop of `recover`; `confirmed` is set once the turn has
        counted a confirmed run, even if announcing it then fails. */
    method RecoverSlot(slot: Slot, act: bool, q: Turn) returns (r: Exec<Tally>, confirmed: bool)
      requires Valid() && ValidSlot(slot)
      requires Lookup(disk, slot) == Lookup(entries, slot)
      modifies this
      ensures Valid() && OnlyTouches(slot) && Remembers()
      // A dispatch is sent exactly on these answers, and planned on these.
      ensures dispatches == old(dispatches) +
                if Dispatches(old(Lookup(entries, slot)), slot, act, q) then multiset{slot} else multiset{}
      ensures r == Done(Planned) <==> Plans(old(Lookup(entries, slot)), slot, act, q)
      // On these answers, and some such answers there are for every entry that is not
      // settled, the file's entry changes.
      ensures act && slot in old(entries) && MovesOn(old(entries[slot]), slot, q) ==>
                slot in disk && disk[slot] != old(entries[slot])
      ensures slot in old(entries) && old(entries[slot]).state in {Complete, Skipped} ==>
                r == Done(Covered) && disk == old(disk) && entries == old(entries)
      ensures notices != old(notices) ==> act && confirmed && notices == old(notices) + multiset{slot}
      ensures (slot in old(entries) && old(entries[slot]).state == RunConfirmed &&
               q.rows.Done? && GoodRows(q.rows.value)) ==>
                notices == old(notices) +
                  if act && Announces(old(entries[slot]), slot, q.posting) then multiset{slot} else multiset{}
      ensures r.Done? && r.value != Confirmed ==> dispatches == old(dispatches) && notices == old(notices)
      // Planning writes nothing.
      ensures !act ==> disk == old(disk)
      // A counted confirmation is backed by a recorded run, in the file when acting.
      ensures Concluded(slot, act, r, confirmed)
    {
      hide Announces, ClearToSend, GoodRows, Goes, RunsOf, Uncovered;
      LookAt(slot);
      confirmed := false;
      var entry := Lookup(entries, slot);
      if entry.Some? && entry.value.state in {Complete, Skipped} {
        return Done(Covered), false;
      }
      if entry.Some? && entry.value.state == DispatchHeld {
        var expired :- Expire(slot, act, q.clock, q.saved);
        if expired {
          return Done(Covered), false;
        }
        entry := None;
      }
      var rows :- q.rows;
      var runs :- CheckRows(rows);
      if entry.Some? {
        r, confirmed := Pursue(slot, act, runs, q.saved, q.posting);
        return;
      }
      r, confirmed := Start(slot, act, runs, q);
    }

    /** The slots a process works on: those of the moment, then every unsettled entry. */
    method Candidates(now: int) returns (order: seq<Slot>)
      requires Valid()
      ensures Distinct(order) && forall k :: k in order <==> Candidate(entries, now, k)
      ensures forall k :: k in order ==> ValidSlot(k)
    {
      order := Slots(now);
      var todo := entries.Keys;
      while todo != {}
        invariant Distinct(order) && todo <= entries.Keys
        invariant forall k :: k in order <==>
                    (ValidSlot(k) && InWindow(k, now)) || (k !in todo && Unfinished(entries, k))
        invariant forall k :: k in order ==> ValidSlot(k)
      {
        var k :| k in todo;
        var entry := entries[k];
        LookAt(k);
        if entry.state !in {Complete, Skipped} && !entry.workflow.Retired? && k !in order {
          DistinctAppend(order, [k]);
          order := order + [k];
        }
        todo := todo - {k};
      }
    }

    /** A turn within the loop of `recover`, against the file from which the process started. */
    method TakeTurn(slot: Slot, act: bool, q: Turn, ghost start: map<Slot, Entry>)
      returns (r: Exec<Tally>, confirmed: bool)
      requires Valid() && ValidSlot(slot)
      requires Lookup(disk, slot) == Lookup(entries, slot)
      requires Follows(start)
      modifies this
      ensures Valid() && Remembers() && Follows(start)
      ensures dispatches == old(dispatches) +
                if Dispatches(old(Lookup(entries, slot)), slot, act, q) then multiset{slot} else multiset{}
      ensures !act ==> disk == old(disk) && dispatches == old(dispatches) && notices == old(notices)
      ensures forall k :: k != slot ==> Lookup(entries, k) == old(Lookup(entries, k))
      ensures forall k :: k != slot && old(Lookup(disk, k) == Lookup(entries, k)) ==>
                Lookup(disk, k) == Lookup(entries, k)
      ensures r.Done? ==> (confirmed <==> r.value == Confirmed)
      ensures r == Done(Planned) <==> Plans(old(Lookup(entries, slot)), slot, act, q)
    {
      hide Plans;
      OnlyActingDispatches(Lookup(entries, slot), slot, act, q);
      MemoryLeads();
      ghost var disk0, entries0 := disk, entries;
      r, confirmed := RecoverSlot(slot, act, q);
      TurnFollows(start, disk0, entries0, disk, slot);
      forall k | k != slot
        ensures Lookup(entries, k) == Lookup(entries0, k)
        ensures Lookup(disk, k) == Lookup(disk0, k) || Lookup(disk, k) == Lookup(entries0, k)
      {
        ElsewhereSame(entries, entries0, slot, k);
        ElsewhereSame(disk, if disk - {slot} == disk0 - {slot} then disk0 else entries0, slot, k);
      }
    }

    /** From that place on the slots are as they were at the start, in memory and in the file. */
    ghost predicate Untouched(todo: seq<Slot>, i: nat, start: map<Slot, Entry>)
      reads this
    {
      forall j :: i <= j < |todo| ==> Lookup(disk, todo[j]) == Lookup(entries, todo[j]) == Lookup(start, todo[j])
    }

    /** The loop of `recover`; a turn that raises is counted and the next one goes on
        with the same memory. */
    method TakeTurns(todo: seq<Slot>, act: bool, answers: Slot -> Turn, ghost start: map<Slot, Entry>)
      returns (r: Exec<Counters>)
      requires Valid() && Follows(start) && Untouched(todo, 0, start)
      requires Distinct(todo) && forall k :: k in todo ==> ValidSlot(k)
      modifies this
      ensures Valid() && Remembers() && Follows(start)
      ensures !act ==> disk == old(disk) && dispatches == old(dispatches) && notices == old(notices)
      ensures !r.Raised?
      ensures r.Done? ==> AllCounted(r.value, |todo|) && r.value.planned == CountPlans(start, todo, act, answers)
      ensures r.Done? ==> dispatches == Sends(old(dispatches), start, todo, act, answers)
    {
      hide AllCounted, Dispatches, Distinct, Follows, Plans, Sends, ValidSlot;
      SendsNothing(old(dispatches), start, todo, act, answers);
      var count := Counters(0, 0, 0, 0);
      NothingCounted();
      for i := 0 to |todo|
        invariant Valid() && Remembers() && Follows(start) && Untouched(todo, i, start)
        invariant !act ==> disk == old(disk) && dispatches == old(dispatches) && notices == old(notices)
        invariant dispatches == Sends(old(dispatches), start, todo[..i], act, answers)
        invariant AllCounted(count, i) && count.planned == CountPlans(start, todo[..i], act, answers)
      {
        hide CountPlans;
        var next := NextTurn(todo, i, act, answers, start, old(dispatches), count);
        if next.Crashed? {
          return Crashed;
        }
        count := next.value;
      }
      assert todo[..|todo|] == todo;
      r := Done(count);
    }

    /** One round of that loop. */
    method NextTurn(todo: seq<Slot>, i: nat, act: bool, answers: Slot -> Turn, ghost start: map<Slot, Entry>,
                    ghost before: multiset<Slot>, count: Counters)
      returns (r: Exec<Counters>)
      requires Valid() && Follows(start) && i < |todo| && Untouched(todo, i, start)
      requires Distinct(todo) && ValidSlot(todo[i])
      requires dispatches == Sends(before, start, todo[..i], act, answers)
      requires AllCounted(count, i) && count.planned == CountPlans(start, todo[..i], act, answers)
      modifies this
      ensures Valid() && Remembers() && Follows(start) && Untouched(todo, i + 1, start)
      ensures !act ==> disk == old(disk) && dispatches == old(dispatches) && notices == old(notices)
      ensures !r.Raised?
      ensures dispatches == Sends(before, start, todo[..i + 1], act, answers)
      ensures r.Done? ==>
                AllCounted(r.value, i + 1) && r.value.planned == CountPlans(start, todo[..i + 1], act, answers)
    {
      hide AllCounted, Dispatches, Distinct, Follows, Plans, Sends, ValidSlot;
      assert todo[..i + 1][..i] == todo[..i];
      DistinctFrom(todo, i);
      SendsNext(before, start, todo, i, act, answers);
      var turn, confirmed := TakeTurn(todo[i], act, answers(todo[i]), start);
      if turn.Crashed? {
        return Crashed;
      }
      var next := CountTurn(count, i, turn, confirmed);
      r := Done(next);
    }

    /** How one turn is counted. */
    method CountTurn(count: Counters, ghost n: nat, turn: Exec<Tally>, confirmed: bool) returns (next: Counters)
      requires AllCounted(count, n) && !turn.Crashed? && (turn.Done? ==> (confirmed <==> turn.value == Confirmed))
      ensures AllCounted(next, n + 1)
      ensures next.planned == count.planned + if turn == Done(Planned) then 1 else 0
      ensures next.confirmed == count.confirmed + if confirmed then 1 else 0
      ensures next.errors == count.errors + if turn.Raised? then 1 else 0
      ensures next.covered == count.covered + if turn == Done(Covered) then 1 else 0
    {
      match turn
      case Raised(_) =>
        next := count.(errors := count.errors + 1, confirmed := count.confirmed + if confirmed then 1 else 0);
      case Done(Covered) =>
        next := count.(covered := count.covered + 1);
      case Done(Planned) =>
        next := count.(planned := count.planned + 1);
      case Done(Confirmed) =>
        next := count.(confirmed := count.confirmed + 1);
    }

    /** `recover`: every candidate gets its turn. */
    method Recover(now: int, act: bool, answers: Slot -> Turn) returns (r: Exec<Counters>, ghost order: seq<Slot>)
      requires Valid() && entries == disk
      modifies this
      ensures Valid() && Remembers()
      ensures AllLead(old(disk), disk) && SameHistory(old(disk), disk)
      ensures !act ==> disk == old(disk) && dispatches == old(dispatches) && notices == old(notices)
      ensures !r.Raised?
      // Every candidate is counted once; only a confirmed run whose notice failed is counted twice.
      ensures Distinct(order) && forall k :: k in order <==> Candidate(old(disk), now, k)
      ensures r.Done? ==> AllCounted(r.value, |order|)
      // A process that ends has dispatched exactly the candidates whose answers called
      // for it, and has planned as many as it reports.
      ensures r.Done? ==>
                forall k :: dispatches[k] == old(dispatches)[k] +
                  if k in order && Dispatches(Lookup(old(disk), k), k, act, answers(k)) then 1 else 0
      ensures r.Done? ==> r.value.planned == CountPlans(old(disk), order, act, answers)
    {
      hide AllCounted, Dispatches, Distinct, Plans;
      var todo := Candidates(now);
      order := todo;
      MemoryLeads();
      r := TakeTurns(todo, act, answers, old(disk));
      forall k
        ensures Sends(old(dispatches), old(disk), todo, act, answers)[k] == old(dispatches)[k] +
                  if k in todo && Dispatches(Lookup(old(disk), k), k, act, answers(k)) then 1 else 0
      {
        SendsOnce(old(dispatches), old(disk), todo, act, answers, k);
      }
    }

    /** What the invariant says to an operator. */
    lemma EveryRunIsSafe()
      requires Valid()
      ensures forall k :: dispatches[k] <= 1 && notices[k] <= 1
      ensures forall k :: Unsent(Lookup(disk, k)) ==> dispatches[k] == 0
      ensures forall k :: dispatches[k] > 0 ==>
                k in disk && k in requests && SameRequest(requests[k], disk[k])
      ensures forall k :: notices[k] > 0 ==> Announced(Lookup(disk, k))
      ensures Loadable(disk) <==> FileSize(disk) <= 8 * 1024 * 1024 && |disk| <= 50000
    {
      forall k
        ensures dispatches[k] <= 1 && notices[k] <= 1
        ensures Unsent(Lookup(disk, k)) ==> dispatches[k] == 0
        ensures dispatches[k] > 0 ==> k in disk && k in requests && SameRequest(requests[k], disk[k])
        ensures notices[k] > 0 ==> Announced(Lookup(disk, k))
        ensures k in disk ==> Accepted(k, disk[k])
      {
        LookAt(k);
      }
    }

    /** Any number of processes, one after another, each started from the file the
        last one left, at any time, planning or acting, each free to crash anywhere. */
    method Runs(processes: seq<Launch>)
      requires Valid()
      modifies this
      ensures Valid() && Remembers()
      // Never a second dispatch request nor a second notice for a slot.
      ensures forall k :: dispatches[k] <= 1 && notices[k] <= 1
      // A file that shows a slot as absent, held or skipped means nothing was sent for it;
      // once sent, the request it was sent for stays on record.
      ensures forall k :: Unsent(Lookup(disk, k)) ==> dispatches[k] == 0
      ensures forall k :: dispatches[k] > 0 ==>
                k in disk && k in requests && SameRequest(requests[k], disk[k])
      ensures forall k :: notices[k] > 0 ==> Announced(Lookup(disk, k))
      // Entries only move forward; settled ones, and all under a key that is no slot of
      // today's workflows, never change.
      ensures AllLead(old(disk), disk) && SameHistory(old(disk), disk)
      ensures forall k :: k in old(disk) && (Settled(old(disk[k])) || !ValidSlot(k)) ==>
                k in disk && disk[k] == old(disk[k])
      // The file left behind is accepted again exactly when it is within both limits.
      ensures Loadable(disk) <==> FileSize(disk) <= 8 * 1024 * 1024 && |disk| <= 50000
    {
      for i := 0 to |processes|
        invariant Valid() && Remembers()
        invariant AllLead(old(disk), disk) && SameHistory(old(disk), disk)
      {
        var loaded := Load();
        if loaded.Done? {
          ghost var disk0 := disk;
          var result, _ := Recover(processes[i].now, processes[i].act, processes[i].answers);
          AllLeadTransitive(old(disk), disk0, disk);
        }
      }
      EveryRunIsSafe();
      SettledStay(old(disk), disk);
    }
  }

  /** History that is not kept: an entry of a retired workflow, held under a key of
      today's, is rewritten by the first acting turn after the window. */
  method RetiredEntryIsRewritten(slot: Slot, entry: Entry, now: int) returns (ledger: Ledger)
    requires ValidSlot(slot) && !InWindow(slot, now)
    requires entry.workflow.Retired? && entry.state == DispatchHeld
    ensures Lookup(ledger.disk, slot) == Some(entry.(state := Skipped))
  {
    ledger := new Ledger.WithFile(map[slot := entry]);
    var expired := ledger.Expire(slot, true, Done(now), Writing(Done(()), Done(())));
  }
}
