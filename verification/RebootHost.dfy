/** The maintenance reboot: the pause of the schedulers with its undo log, the
    durable reboot state, the controller, the watchdog and the machine itself.

    The deployment lock makes the controller's pause, the boot check and the
    watchdog's check exclude each other, so a run is a sequence of them, each of
    which can raise or crash at any statement. */
module RebootHost {
  import opened Outcomes

  type Timer = string

  /** The timers of the security routine itself, which a pause leaves alone. */
  const OWN_TIMERS: set<Timer> := {"c3po-security-watchdog.timer", "c3po-security-daily.timer"}

  /** The timers the watchdog keeps alive. */
  const GUARDED_TIMERS: seq<Timer> :=
    ["c3po-security-daily.timer", "c3po-security-watchdog.timer",
     "c3po-host-security-snapshot.timer", "apt-daily-upgrade.timer"]

  const FRESH := 15 * 60
  const COOLDOWN := 24 * 60 * 60

  /** The cron daemon: no process when `pid` is 0; `start` tells processes with one pid apart. */
  datatype Cron = Cron(pid: nat, start: nat, suspended: bool)

  /** The durable record of what a pause stops. */
  datatype Receipt = Receipt(timers: set<Timer>, cronPid: nat, cronStart: nat, bootId: nat, restored: bool)

  datatype Phase = Requested | Verifying | Verified | Failed

  datatype RebootState = RebootState(phase: Phase, bootId: nat, requestedAt: int, currentBootId: Option<nat>)

  datatype Issued = Issued(requestedAt: int, at: int)

  /** The receipt undoes everything that is still stopped. */
  predicate Covers(receipt: Option<Receipt>, paused: set<Timer>, cron: Cron, bootId: nat) {
    && (paused != {} ==> receipt.Some? && !receipt.value.restored && paused <= receipt.value.timers)
    && (cron.suspended ==>
          && receipt.Some? && !receipt.value.restored && receipt.value.bootId == bootId
          && cron.pid != 0 && receipt.value.cronPid == cron.pid && receipt.value.cronStart == cron.start)
  }

  /** What `__enter__` records before it touches anything. */
  function Snapshot(active: set<Timer>, cron: Cron, bootId: nat): Receipt {
    Receipt(active - OWN_TIMERS, cron.pid, cron.start, bootId, false)
  }

  /** All active timers are recorded but the two of the routine itself. */
  lemma SnapshotSpares(active: set<Timer>, cron: Cron, bootId: nat)
    ensures Snapshot(active, cron, bootId).timers ==
            set t | t in active && t != "c3po-security-watchdog.timer" && t != "c3po-security-daily.timer"
  {
  }

  /** A pause replaces the receipt by a snapshot of what is active. What an earlier
      pause stopped is not active, so the replacement is safe exactly when no
      timer is still stopped. */
  lemma SnapshotCoversIff(receipt: Option<Receipt>, active: set<Timer>, paused: set<Timer>, cron: Cron, bootId: nat)
    requires Covers(receipt, paused, cron, bootId) && paused !! active
    ensures Covers(Some(Snapshot(active, cron, bootId)), paused, cron, bootId) <==> paused == {}
  {
    if paused != {} {
      var t :| t in paused;
      assert t !in active;
    }
  }

  /** The case the lock-busy branch of the boot check leaves open: a controller died
      after stopping a timer, the next one could not take the lock to restore it,
      took it later to pause, and the stopped timer is in no receipt any more. */
  lemma PauseOverUnrestoredReceiptLosesTimer()
    ensures var record := Some(Receipt({"backup.timer", "report.timer"}, 0, 0, 7, false));
            var cron := Cron(0, 0, false);
            && Covers(record, {"backup.timer"}, cron, 7)
            && !Covers(Some(Snapshot({"report.timer"}, cron, 7)), {"backup.timer"}, cron, 7)
  {
    SnapshotCoversIff(Some(Receipt({"backup.timer", "report.timer"}, 0, 0, 7, false)),
                      {"report.timer"}, {"backup.timer"}, Cron(0, 0, false), 7);
  }

  /** Requests are recorded a cooldown apart, and no command precedes its record. */
  predicate Spaced(commands: seq<Issued>) {
    && (forall i :: 0 <= i < |commands| ==> commands[i].requestedAt <= commands[i].at)
    && (forall i, j :: 0 <= i < j < |commands| ==> commands[i].requestedAt + COOLDOWN <= commands[j].requestedAt)
  }

  /** The state on file is of the last command or of a later request. */
  predicate Recorded(commands: seq<Issued>, state: Option<RebootState>, clock: int) {
    forall i :: 0 <= i < |commands| ==>
      commands[i].at <= clock && state.Some? && commands[i].requestedAt <= state.value.requestedAt
  }

  /** Two reboot commands are a day apart, less what the first of them took from
      its record to the command. */
  lemma CommandsADayApart(commands: seq<Issued>, i: nat, j: nat)
    requires Spaced(commands) && i < j < |commands|
    ensures commands[j].at - commands[i].at >= 86400 - (commands[i].at - commands[i].requestedAt)
  {
    assert commands[j].requestedAt <= commands[j].at;
  }

  /** What a cycle that began at `now` can command: the record comes first. */
  predicate CommandedAfter(now: int, next: Issued) {
    now <= next.requestedAt <= next.at
  }

  /** At most one command more, asked for no earlier than that. */
  predicate OneMore(before: seq<Issued>, after: seq<Issued>, now: int) {
    after == before || (|after| == |before| + 1 && before <= after && CommandedAfter(now, after[|before|]))
  }

  /** Once the cooldown check has let a cycle through, its command is certain to be a
      full day after the previous command exactly when the cycle began that late. */
  lemma FullDayIff(previous: Issued, now: int)
    requires previous.requestedAt + COOLDOWN <= now
    ensures now >= previous.at + COOLDOWN <==>
            forall next :: CommandedAfter(now, next) ==> next.at - previous.at >= COOLDOWN
  {
    assert CommandedAfter(now, Issued(now, now));
  }

  /** A command ten minutes behind its record, and the next one a day after that record. */
  lemma LateCommandShortensTheDay()
    ensures var previous, next := Issued(0, 600), Issued(COOLDOWN, COOLDOWN);
            && previous.requestedAt + COOLDOWN <= COOLDOWN && CommandedAfter(COOLDOWN, next)
            && Spaced([previous, next]) && next.at - previous.at < COOLDOWN
  {
  }

  // ----------------------------------------------------- what a request looks at

  /** What a request for a reboot can come to. */
  datatype Answer =
    | Granted | NotNeeded | Cooldown | Deferred | WaitingPipeline | WaitingPackages | WaitingDatabase
    | WaitingIngestion | WaitingPackagesOrDeploy | WaitingAdmission | WaitingActiveJobs | WaitingCoverage
    | WaitingScheduledJobs

  /** What a visit of the watchdog can come to. */
  datatype Watched = Busy | Held | Pending | Checked

  /** The looks before any lock is taken. */
  datatype Looks = Looks(
    needed: Exec<bool>, allowed: Exec<bool>, healthy: Exec<bool>, pipelineBusy: Exec<bool>,
    packagesBusy: Exec<bool>, databaseBusy: Exec<bool>, ingestionBusy: Exec<bool>)

  /** The locks, and the looks under them. */
  datatype Locks = Locks(taken: Exec<bool>, gateTaken: Exec<bool>, drained: Exec<bool>, covered: Exec<bool>)

  /** The last looks, with the schedulers stopped. */
  datatype LastLooks = LastLooks(idle: Exec<bool>, databaseBusy: Exec<bool>, allowed: Exec<bool>)

  /** What happens on the host in the meantime: how long it is, which units came up or
      went down, and whether cron is another process now. */
  datatype Change = Change(elapsed: nat, up: set<Timer>, down: set<Timer>, restarted: Option<nat>)

  /** What becomes of the record, the two markers, the command, and the record of a
      failure, and how long record and command take. */
  datatype Effects = Effects(
    recordTakes: nat, commandTakes: nat, recorded: Writing, marked: Exec<()>, gateMarked: Exec<()>,
    commanded: Exec<()>, failed: Writing)

  /** All that one request for a reboot is answered, with the watchdog's visits up to its locks. */
  datatype Request = Request(
    looks: Looks, meantime: Change, visits: seq<Visit>, locks: Locks, pausing: Pausing, between: Change,
    last: LastLooks, effects: Effects, restoring: Restoring)

  predicate Permitted(l: Looks) {
    l.needed == Done(true) && l.allowed == Done(true) && l.healthy == Done(true)
  }

  predicate PipelineIdle(l: Looks) {
    Permitted(l) && l.pipelineBusy == Done(false)
  }

  predicate PackagesIdle(l: Looks) {
    PipelineIdle(l) && l.packagesBusy == Done(false)
  }

  predicate DatabaseIdle(l: Looks) {
    PackagesIdle(l) && l.databaseBusy == Done(false)
  }

  /** Nothing is in the way so far. */
  predicate Free(l: Looks) {
    DatabaseIdle(l) && l.ingestionBusy == Done(false)
  }

  /** All jobs are out, and every container is known to keep out of the way. */
  predicate Secured(k: Locks) {
    k.taken == Done(true) && k.gateTaken == Done(true) && k.drained == Done(true) && k.covered == Done(true)
  }

  predicate Quiet(l: LastLooks) {
    l.idle == Done(true) && l.databaseBusy == Done(false) && l.allowed == Done(true)
  }

  /** The command is given: the record is in the file and both markers are out. */
  predicate Reaches(e: Effects) {
    e.recorded.Works() && e.marked.Done? && e.gateMarked.Done?
  }

  /** Everything speaks for the reboot, from the first look to the last. */
  predicate Clear(q: Request) {
    Free(q.looks) && Secured(q.locks) && Quiet(q.last) && Reaches(q.effects)
  }

  /** The answer that the looks call for, each one by the first look in the way. */
  predicate CallsFor(q: Request, cooling: bool, a: Answer) {
    var (l, k, last) := (q.looks, q.locks, q.last);
    match a
    case NotNeeded => l.needed == Done(false)
    case Cooldown => l.needed == Done(true) && cooling
    case WaitingPipeline => !cooling && Permitted(l) && l.pipelineBusy == Done(true)
    case WaitingPackages => !cooling && PipelineIdle(l) && l.packagesBusy == Done(true)
    case WaitingIngestion => !cooling && DatabaseIdle(l) && l.ingestionBusy == Done(true)
    case WaitingPackagesOrDeploy => !cooling && Free(l) && k.taken == Done(false)
    case WaitingAdmission => !cooling && Free(l) && k.taken == Done(true) && k.gateTaken == Done(false)
    case WaitingActiveJobs =>
      !cooling && Free(l) && k.taken == Done(true) && k.gateTaken == Done(true) && k.drained == Done(false)
    case WaitingCoverage =>
      && !cooling && Free(l) && k.taken == Done(true) && k.gateTaken == Done(true) && k.drained == Done(true)
      && k.covered == Done(false)
    case WaitingScheduledJobs => !cooling && Free(l) && Secured(k) && last.idle == Done(false)
    case WaitingDatabase =>
      || (!cooling && PackagesIdle(l) && l.databaseBusy == Done(true))
      || (!cooling && Free(l) && Secured(k) && last.idle == Done(true) && last.databaseBusy == Done(true))
    case Deferred =>
      || (l.needed == Done(true) && !cooling
          && (l.allowed == Done(false) || (l.allowed == Done(true) && l.healthy == Done(false))))
      || (!cooling && Free(l) && Secured(k)
          && last.idle == Done(true) && last.databaseBusy == Done(false) && last.allowed == Done(false))
    case Granted => !cooling && Clear(q) && q.effects.commanded.Done?
  }

  lemma FreeMeans(l: Looks)
    requires Free(l)
    ensures l.needed == Done(true) && l.allowed == Done(true) && l.healthy == Done(true)
    ensures l.pipelineBusy == Done(false) && l.packagesBusy == Done(false) && l.databaseBusy == Done(false)
    ensures Permitted(l) && PipelineIdle(l) && PackagesIdle(l) && DatabaseIdle(l) && l.ingestionBusy == Done(false)
  {
  }

  /** What the first looks call for by themselves. */
  predicate Early(l: Looks, cooling: bool, a: Answer) {
    match a
    case NotNeeded => l.needed == Done(false)
    case Cooldown => l.needed == Done(true) && cooling
    case Deferred =>
      l.needed == Done(true) && !cooling
      && (l.allowed == Done(false) || (l.allowed == Done(true) && l.healthy == Done(false)))
    case WaitingPipeline => !cooling && Permitted(l) && l.pipelineBusy == Done(true)
    case WaitingPackages => !cooling && PipelineIdle(l) && l.packagesBusy == Done(true)
    case WaitingDatabase => !cooling && PackagesIdle(l) && l.databaseBusy == Done(true)
    case WaitingIngestion => !cooling && DatabaseIdle(l) && l.ingestionBusy == Done(true)
    case _ => false
  }

  lemma EarlyAnswers(q: Request)
    ensures forall cooling, a :: Early(q.looks, cooling, a) ==> CallsFor(q, cooling, a)
    ensures forall cooling, a :: CallsFor(q, cooling, a) && (cooling || !Free(q.looks)) ==> Early(q.looks, cooling, a)
    ensures Clear(q) ==> Free(q.looks)
  {
  }

  /** What becomes of a restoration: of the signal to cron, of the start of the timers, which
      may reach some of them before it fails, and of the receipt. */
  datatype Restoring = Restoring(signalled: Exec<()>, reached: set<Timer>, started: Exec<()>, written: Writing) {
    predicate Works() {
      signalled.Done? && started.Done? && written.Works()
    }
  }

  /** What becomes of a pause: whether every unit has a proper name, of the receipt, of the
      stop, and of the signal to cron if it still is the same process. */
  datatype Pausing = Pausing(
    recognized: Exec<bool>, receipt: Writing, reached: set<Timer>, stopped: Exec<()>, same: bool, signalled: Exec<()>)
  {
    predicate Works(cron: bool) {
      recognized == Done(true) && receipt.Works() && stopped.Done? && (cron ==> same && signalled.Done?)
    }
  }

  /** What a boot check is answered about the host's health. */
  datatype Health = Health(restoring: Restoring, healthy: bool, inventory: Exec<()>, written: Writing) {
    predicate Works() {
      restoring.Works() && inventory.Done? && written.Works()
    }
  }

  /** What a visit of the watchdog is answered. */
  datatype Visit = Visit(
    before: Change, locked: bool, at: int, hold: Exec<bool>, recover: Exec<bool>, containers: Exec<()>,
    starting: Exec<()>, health: Health, later: Health)

  /** What can happen on the host, and whether the deployment lock was free for it. */
  datatype Event =
    | Cycle(locked: bool, health: Health, meantime: Change, visits: seq<Visit>, gatesOpen: Exec<bool>,
          request: Request)
    | Check(visit: Visit)
    | Reboot(change: Change)

  /** The cycles that did not get the lock for their boot check. */
  function Blind(events: seq<Event>): nat {
    if events == [] then 0
    else
      var last := events[|events| - 1];
      Blind(events[..|events| - 1]) + if last.Cycle? && !last.locked then 1 else 0
  }

  /** The cycles that everything speaks for. */
  function Permits(events: seq<Event>): nat {
    if events == [] then 0
    else
      var last := events[|events| - 1];
      Permits(events[..|events| - 1])
      + if Permit(last) then 1 else 0
  }

  predicate Permit(event: Event) {
    event.Cycle? && event.gatesOpen == Done(true) && Clear(event.request)
  }

  class Host {
    var state: Option<RebootState>   // security-reboot-state.json
    var receipt: Option<Receipt>     // reboot-schedulers.json
    var bootId: nat
    var active: set<Timer>
    var cron: Cron
    var marker: bool                 // /run/c3po-security/reboot.pending
    var gateMarker: bool             // maintenance/reboot.pending
    ghost var paused: set<Timer>     // stopped by a pause and not started since
    ghost var lost: set<Timer>       // those of them that the receipt on file no longer covers
    ghost var overwrites: nat        // pauses that lost a timer, ever
    ghost var starts: nat            // scheduler resumptions asked for, ever
    ghost var checks: nat            // those of them that the watchdog asked for
    var clock: int                   // never goes back
    ghost var commands: seq<Issued> // reboots commanded, ever

    ghost predicate Valid()
      reads this
    {
      && paused !! active && paused !! OWN_TIMERS && lost <= paused
      && Covers(receipt, paused - lost, cron, bootId)
      && Spaced(commands) && Recorded(commands, state, clock)
    }

    /** Nothing that a receipt could still undo is stopped. */
    ghost predicate Undone()
      reads this
    {
      paused == lost && !cron.suspended && (receipt.Some? ==> receipt.value.restored)
    }

    predicate SignalDue()
      reads this
    {
      && receipt.Some? && !receipt.value.restored && receipt.value.bootId == bootId
      && receipt.value.cronPid != 0 && receipt.value.cronPid == cron.pid && receipt.value.cronStart == cron.start
    }

    predicate TimersDue()
      reads this
    {
      receipt.Some? && !receipt.value.restored && receipt.value.timers != {}
    }

    /** Within a day of the last request on file. */
    ghost predicate Cooling(now: int)
      reads this
    {
      match state
      case None => false
      case Some(request) => now < request.requestedAt + 86400
    }

    /** Nothing more is stopped or lost, and the request on file is of the same time. */
    twostate predicate Eases()
      reads this
    {
      && paused <= old(paused) && lost <= old(lost) && paused - lost <= old(paused) - old(lost)
      && starts >= old(starts)
      && state.Some? == old(state).Some?
      && (state.Some? ==> state.value.requestedAt == old(state).value.requestedAt)
    }

    /** A host on which the routine has never run. */
    constructor (timers: set<Timer>, pid: nat, start: nat, boot: nat, now: int)
      ensures Valid() && Undone()
      ensures paused == {} && lost == {} && overwrites == 0 && commands == [] && state.None? && receipt.None?
      ensures active == timers && cron == Cron(pid, start, false) && bootId == boot && clock == now
      ensures !marker && !gateMarker && starts == 0 && checks == 0
    {
      state, receipt, bootId, active := None, None, boot, timers;
      cron, marker, gateMarker, clock := Cron(pid, start, false), false, false, now;
      paused, lost, starts, checks, overwrites, commands := {}, {}, 0, 0, 0, [];
    }

    /** A request in this boot that the machine still has time to act on. */
    ghost predicate Fresh(now: int)
      reads this
    {
      state.Some? && state.value.phase in {Requested, Verifying} && state.value.bootId == bootId &&
      now <= state.value.requestedAt + 900
    }

    /** `systemctl start`: when it fails, it may have started some of them. */
    method StartTimers(timers: set<Timer>, some: set<Timer>, started: Exec<()>) returns (r: Exec<()>)
      requires Valid()
      modifies this`active, this`paused, this`lost, this`starts
      ensures Valid() && Eases() && old(active) <= active && r == started && starts == old(starts) + 1
      ensures var reached := if started.Done? then timers else some * timers;
              paused == old(paused) - reached && lost == old(lost) - reached && active == old(active) + reached
    {
      var reached := if started.Done? then timers else some * timers;
      starts := starts + 1;
      active := active + reached;
      paused := paused - reached;
      lost := lost - reached;
      r := started;
    }

    /** A snapshot takes the place of the receipt on file, and with it whatever only
        that receipt covered. */
    method Overwrite(record: Receipt, w: Writing) returns (r: Exec<()>)
      requires Valid() && record == Snapshot(active, cron, bootId)
      modifies this`receipt, this`lost, this`overwrites
      ensures Valid() && r == w.Result()
      ensures receipt == if w.Lands() then Some(record) else old(receipt)
      ensures lost == if w.Lands() then paused else old(lost)
      ensures overwrites == old(overwrites) + if w.Lands() && old(lost) != paused then 1 else 0
    {
      var reached :- w.reached;
      receipt := Some(record);
      overwrites := overwrites + if lost == paused then 0 else 1;
      lost := paused;
      r := w.returned;
    }

    method WriteReceipt(value: Receipt, w: Writing) returns (r: Exec<()>)
      requires Valid() && Covers(Some(value), paused - lost, cron, bootId)
      modifies this`receipt
      ensures Valid() && r == w.Result()
      ensures receipt == if w.Lands() then Some(value) else old(receipt)
    {
      var reached :- w.reached;
      receipt := Some(value);
      r := w.returned;
    }

    method WriteState(value: RebootState, w: Writing) returns (r: Exec<()>)
      requires Valid()
      requires Recorded(commands, Some(value), clock)
      modifies this`state
      ensures Valid()
      ensures state == if w.Lands() then Some(value) else old(state)
      ensures r == w.Result()
    {
      var reached :- w.reached;
      state := Some(value);
      r := w.returned;
    }

    /** `restore`: undo what the receipt records. Stopping half-way leaves a receipt
        from which it can be done again, and doing it twice changes nothing. */
    method Restore(a: Restoring) returns (r: Exec<()>)
      requires Valid()
      modifies this`active, this`paused, this`lost, this`starts, this`cron, this`receipt
      ensures Valid() && Eases() && old(active) <= active && (cron.suspended ==> old(cron).suspended)
      ensures r.Done? ==> Undone()
      ensures a.Works() ==> r.Done?
      // Cron is signalled only if it still is the process that this boot's receipt names.
      ensures starts == old(starts) + (if old(SignalDue()) && a.signalled.Done? then 1 else 0)
                        + (if old(TimersDue()) && (old(SignalDue()) ==> a.signalled.Done?) then 1 else 0)
      ensures cron == if old(SignalDue()) && a.signalled.Done? then old(cron).(suspended := false) else old(cron)
      // What it starts is what the receipt names, and nothing else.
      ensures active <= old(active) + if old(receipt).Some? then old(receipt).value.timers else {}
      ensures old(Undone()) ==>
                r.Done? && active == old(active) && paused == old(paused) && starts == old(starts) &&
                cron == old(cron) && receipt == old(receipt)
    {
      if receipt.None? || receipt.value.restored {
        return Done(());
      }
      var record := receipt.value;
      if record.bootId == bootId && record.cronPid != 0 {
        if cron.pid == record.cronPid && cron.start == record.cronStart {
          var signalled :- a.signalled;
          cron := cron.(suspended := false);
          starts := starts + 1;
        }
      }
      if record.timers != {} {
        var started :- StartTimers(record.timers, a.reached, a.started);
      }
      r := WriteReceipt(record.(restored := true), a.written);
    }

    /** `systemctl stop` and the signal to cron, either of which may fail part-way. */
    method StopSchedulers(record: Receipt, p: Pausing) returns (r: Exec<()>)
      requires Valid() && receipt == Some(record) && !record.restored
      requires record.bootId == bootId && record.timers !! OWN_TIMERS
      requires paused == lost && record.cronPid == cron.pid && record.cronStart == cron.start
      modifies this`active, this`paused, this`cron
      ensures Valid() && lost <= paused
      ensures r.Done? ==> active == old(active) - record.timers && paused == old(paused) + old(active) * record.timers
      ensures r.Done? ==> cron == if cron.pid != 0 then old(cron).(suspended := true) else old(cron)
      ensures cron.pid == old(cron).pid && cron.start == old(cron).start
      ensures r.Done? <==> p.stopped.Done? && (cron.pid != 0 ==> p.same && p.signalled.Done?)
    {
      var stopped := (if p.stopped.Done? then record.timers else p.reached * record.timers) * active;
      active := active - stopped;
      paused := paused + stopped;
      var done :- p.stopped;
      if record.cronPid != 0 {
        // The process with this pid may be another one by now.
        if !p.same {
          return Raised("RuntimeError");
        }
        cron := cron.(suspended := true);
        var signalled :- p.signalled;
      }
      r := Done(());
    }

    /** `SchedulingPause.__enter__`: snapshot, then stop, and restore if that fails.
        What was still stopped before is lost, and nothing else. */
    method Pause(p: Pausing, a: Restoring) returns (r: Exec<()>)
      requires Valid()
      modifies this`active, this`paused, this`lost, this`overwrites, this`starts, this`cron, this`receipt
      ensures Valid() && lost <= old(paused)
      ensures (overwrites == old(overwrites) && lost <= old(lost)) ||
              (overwrites == old(overwrites) + 1 && old(paused) != old(lost))
      ensures r.Done? <==> p.Works(old(cron).pid != 0)
      // Everything that was running is stopped and on record, but the routine's own timers.
      ensures r.Done? ==>
                && receipt == Some(Snapshot(old(active), old(cron), bootId))
                && active == old(active) * OWN_TIMERS && paused == old(paused) + (old(active) - OWN_TIMERS)
                && lost == old(paused)
                && (cron.pid != 0 ==> cron.suspended) && starts == old(starts)
    {
      var recognized :- p.recognized;
      if !recognized {
        return Raised("RuntimeError");
      }
      var record := Snapshot(active, cron, bootId);
      var written :- Overwrite(record, p.receipt);
      r := StopSchedulers(record, p);
      if r.Raised? {
        var restored :- Restore(a);
      }
    }

    /** The request of this boot came to nothing. */
    method GiveUp(health: Health) returns (r: Exec<Option<RebootState>>)
      requires Valid() && state.Some?
      modifies this`state, this`active, this`paused, this`lost, this`starts, this`cron, this`receipt
      modifies this`marker, this`gateMarker
      ensures Valid() && Eases() && old(active) <= active
      ensures r.Done? ==>
                && Undone() && !marker && !gateMarker
                && state == Some(old(state).value.(phase := Failed)) && r.value == state
      ensures health.Works() ==> r.Done?
    {
      marker, gateMarker := false, false;
      var restored :- Restore(health.restoring);
      var failed :- WriteState(state.value.(phase := Failed), health.written);
      r := Done(state);
    }

    /** The first boots after a request: undo the pause, then see whether all is well. */
    method VerifyBoot(health: Health) returns (r: Exec<Option<RebootState>>)
      requires Valid() && state.Some?
      modifies this`state, this`active, this`paused, this`lost, this`starts, this`cron, this`receipt
      modifies this`marker, this`gateMarker
      ensures Valid() && Eases() && old(active) <= active
      ensures r.Done? ==> Undone() && !marker && !gateMarker && state.Some? && r.value == state
      ensures r.Done? ==>
                state.value == old(state).value.(phase := if health.healthy then Verified else Verifying,
                                                 currentBootId := Some(bootId))
      ensures health.Works() ==> r.Done?
    {
      var restored :- Restore(health.restoring);
      marker, gateMarker := false, false;
      r := RecordBoot(health);
    }

    /** What the first boots leave on file: this boot, verified or not. */
    method RecordBoot(health: Health) returns (r: Exec<Option<RebootState>>)
      requires Valid() && state.Some?
      modifies this`state
      ensures Valid() && Eases()
      ensures r.Done? ==>
                && state.Some? && r.value == state
                && state.value == old(state).value.(phase := if health.healthy then Verified else Verifying,
                                                    currentBootId := Some(bootId))
      ensures health.Works() ==> r.Done?
      ensures r.Done? <==> (health.healthy ==> health.inventory.Done?) && health.written.Works()
    {
      if health.healthy {
        // The inventory of the running containers, taken for the record.
        var inventory :- health.inventory;
      }
      var phase := if health.healthy then Verified else Verifying;
      var written :- WriteState(state.value.(phase := phase, currentBootId := Some(bootId)), health.written);
      r := Done(state);
    }

    /** `_boot_receipt_locked`. Outside the fresh window of a request it leaves nothing
        stopped; inside it, it touches nothing. */
    method BootCheck(now: int, health: Health) returns (r: Exec<Option<RebootState>>)
      requires Valid()
      modifies this`state, this`active, this`paused, this`lost, this`starts, this`cron, this`receipt
      modifies this`marker, this`gateMarker
      ensures Valid() && Eases() && old(active) <= active
      ensures r.Done? && !old(Fresh(now)) ==> Undone()
      ensures old(Fresh(now)) ==>
                && r == Done(old(state)) && state == old(state) && active == old(active)
                && paused == old(paused) && lost == old(lost)
                && starts == old(starts) && cron == old(cron) && receipt == old(receipt) && marker == old(marker)
      ensures r.Done? && old(state).None? ==> r.value.None? && state.None?
      ensures r.Done? && old(state).Some? ==>
                && state.Some? && r.value == state && state.value.requestedAt == old(state).value.requestedAt
                && state.value.bootId == old(state).value.bootId
      // How a request ends: in this boot after its time, or in the next boot.
      ensures r.Done? && old(state).Some? && old(state).value.phase in {Requested, Verifying} && !old(Fresh(now)) ==>
                if old(state).value.bootId == bootId then state.value.phase == Failed
                else
                  && state.value.phase == (if health.healthy then Verified else Verifying)
                  && state.value.currentBootId == Some(bootId) && !marker
      ensures r.Done? && old(state).Some? && old(state).value.phase !in {Requested, Verifying} ==> state == old(state)
      ensures health.Works() ==> r.Done?
      // A boot that is verified takes its markers away, any other settled state leaves them.
      ensures r.Done? && (old(state).None? || old(state).value.phase !in {Requested, Verifying}) ==>
                if && old(state).Some? && old(state).value.phase == Verified
                   && old(state).value.currentBootId == Some(bootId)
                then !marker && !gateMarker
                else marker == old(marker) && gateMarker == old(gateMarker)
    {
      if state.None? || state.value.phase !in {Requested, Verifying} {
        var restored :- Restore(health.restoring);
        if state.Some? && state.value.phase == Verified && state.value.currentBootId == Some(bootId) {
          marker, gateMarker := false, false;
        }
        return Done(state);
      }
      if state.value.bootId != bootId {
        r := VerifyBoot(health);
      } else if now - state.value.requestedAt > FRESH {
        r := GiveUp(health);
      } else {
        r := Done(state);
      }
    }

    method Tick(elapsed: nat)
      requires Valid()
      modifies this`clock
      ensures Valid()
      ensures clock == old(clock) + elapsed
    {
      clock := clock + elapsed;
    }

    /** The guarded part of `request_reboot`: publish the markers and give the command. */
    method Command(record: RebootState, e: Effects) returns (r: Exec<()>)
      requires Valid() && state == Some(record) && record.requestedAt <= clock
      requires forall i :: 0 <= i < |commands| ==> commands[i].requestedAt + COOLDOWN <= record.requestedAt
      modifies this`marker, this`gateMarker, this`clock, this`commands
      ensures Valid() && clock >= old(clock)
      ensures commands == old(commands) +
                if e.marked.Done? && e.gateMarked.Done?
                then [Issued(record.requestedAt, old(clock) + e.commandTakes)] else []
      ensures r == if !e.marked.Done? then e.marked else if !e.gateMarked.Done? then e.gateMarked else e.commanded
      ensures r.Done? ==> marker && gateMarker
    {
      var published :- e.marked;
      marker := true;
      published :- e.gateMarked;
      gateMarker := true;
      Tick(e.commandTakes);
      commands := commands + [Issued(record.requestedAt, clock)];
      r := e.commanded;
    }

    /** The body of `request_reboot` under the pause. */
    method RequestPaused(last: LastLooks, e: Effects) returns (r: Exec<Answer>)
      requires Valid()
      requires state.Some? ==> state.value.requestedAt + COOLDOWN <= clock
      modifies this`state, this`marker, this`gateMarker, this`clock, this`commands
      ensures Valid() && clock >= old(clock)
      ensures OneMore(old(commands), commands, old(clock))
      ensures r == Done(Granted) ==>
                && |commands| == |old(commands)| + 1 && marker && gateMarker
                && state.Some? && state.value.phase == Requested && state.value.bootId == bootId
                && state.value.requestedAt == commands[|old(commands)|].requestedAt
      ensures r.Done? && r.value != Granted ==> commands == old(commands) && state == old(state)
      // The command is given exactly when the jobs are idle, the database is not busy, the
      // window is open, and record and markers are out.
      ensures commands != old(commands) <==> Quiet(last) && Reaches(e)
      ensures Quiet(last) && Reaches(e) ==>
                var at := old(clock) + e.recordTakes; commands == old(commands) + [Issued(at, at + e.commandTakes)]
      ensures r == Done(Granted) <==> Quiet(last) && Reaches(e) && e.commanded.Done?
      // Each refusal names the first look that stands in the way.
      ensures r == Done(WaitingScheduledJobs) <==> last.idle == Done(false)
      ensures r == Done(WaitingDatabase) <==> last.idle == Done(true) && last.databaseBusy == Done(true)
      ensures r == Done(Deferred) <==>
                last.idle == Done(true) && last.databaseBusy == Done(false) && last.allowed == Done(false)
      ensures r.Done? ==> r.value in {Granted, WaitingScheduledJobs, WaitingDatabase, Deferred}
    {
      hide Covers, Spaced;
      var idle :- last.idle;
      if !idle {
        return Done(WaitingScheduledJobs);
      }
      var busy :- last.databaseBusy;
      if busy {
        return Done(WaitingDatabase);
      }
      var allowed :- last.allowed;
      if !allowed {
        return Done(Deferred);
      }
      Tick(e.recordTakes);
      r := RecordAndCommand(e);
    }

    /** The durable record of a request comes before the command, and says so when the
        command fails. */
    method RecordAndCommand(e: Effects) returns (r: Exec<Answer>)
      requires Valid()
      requires state.Some? ==> state.value.requestedAt + COOLDOWN <= clock
      modifies this`state, this`marker, this`gateMarker, this`clock, this`commands
      ensures Valid() && clock >= old(clock)
      ensures OneMore(old(commands), commands, old(clock))
      ensures r.Done? ==>
                && r.value == Granted && |commands| == |old(commands)| + 1 && marker && gateMarker
                && state.Some? && state.value.phase == Requested && state.value.bootId == bootId
                && state.value.requestedAt == commands[|old(commands)|].requestedAt
      ensures commands != old(commands) <==> Reaches(e)
      ensures r.Done? <==> Reaches(e) && e.commanded.Done?
      // A command that fails is on file as failed, and its markers are gone.
      ensures Reaches(e) && e.commanded.Raised? && e.failed.Works() ==>
                !marker && !gateMarker && state.Some? && state.value.phase == Failed
      ensures Reaches(e) ==> commands == old(commands) + [Issued(old(clock), old(clock) + e.commandTakes)]
    {
      hide Covers;
      var record := RebootState(Requested, bootId, clock, None);
      var written :- WriteState(record, e.recorded);
      var commanded := Command(record, e);
      match commanded
      case Crashed =>
        r := Crashed;
      case Raised(error) =>
        var failed :- WriteState(record.(phase := Failed), e.failed);
        marker, gateMarker := false, false;
        r := Raised(error);
      case Done(_) =>
        r := Done(Granted);
    }

    /** Anything else that happens on the host: time passes, units come and go, cron is restarted. */
    method Elsewhere(c: Change)
      requires Valid()
      modifies this`active, this`paused, this`lost, this`cron, this`clock
      ensures Valid() && Eases() && clock == old(clock) + c.elapsed
      ensures active == old(active) - c.down + c.up && paused == old(paused) - c.up && lost == old(lost) - c.up
      ensures cron == match c.restarted case None => old(cron) case Some(pid) => Cron(pid, old(cron).start + 1, false)
    {
      Tick(c.elapsed);
      active := active - c.down + c.up;
      paused, lost := paused - c.up, lost - c.up;
      if c.restarted.Some? {
        cron := Cron(c.restarted.value, cron.start + 1, false);
      }
    }

    /** `check`: the watchdog under the same lock. */
    method Watchdog(v: Visit) returns (r: Exec<Watched>)
      requires Valid()
      modifies this`state, this`active, this`paused, this`lost, this`starts, this`checks, this`cron, this`receipt
      modifies this`marker, this`gateMarker
      ensures Valid() && Eases() && old(active) <= active
      ensures checks == old(checks) + (starts - old(starts))
      ensures old(Fresh(v.at)) && old(state).value.phase == Requested ==>
                starts == old(starts) && active == old(active) && state == old(state) && marker == old(marker)
      // Without the lock or under a hold nothing happens.
      ensures r == Done(Busy) <==> !v.locked
      ensures r == Done(Held) <==> v.locked && v.hold == Done(true)
      ensures !v.locked || v.hold != Done(false) ==>
                starts == old(starts) && active == old(active) && state == old(state) && receipt == old(receipt)
                && marker == old(marker)
      ensures r == Done(Pending) <==>
                v.locked && v.hold == Done(false) && old(Fresh(v.at)) && old(state).value.phase == Requested
      ensures r.Done? ==>
                r.value in {Busy, Held, Pending, Checked}
      ensures r == Done(Checked) ==> forall t :: t in GUARDED_TIMERS ==> t in active
      ensures r == Done(Checked) && !old(Fresh(v.at)) ==> Undone()
    {
      if !v.locked {
        return Done(Busy);
      }
      var hold :- v.hold;
      if hold {
        return Done(Held);
      }
      r := CheckTimers(v);
      checks := checks + (starts - old(starts));
    }

    /** The watchdog's timers, each started unless it is running. */
    method StartGuarded(starting: Exec<()>) returns (r: Exec<()>)
      requires Valid()
      modifies this`active, this`paused, this`lost, this`starts
      ensures Valid() && Eases() && old(active) <= active && (old(Undone()) ==> Undone())
      ensures r.Done? ==> forall t :: t in GUARDED_TIMERS ==> t in active
      ensures r.Done? ==>
                && "c3po-security-daily.timer" in active && "c3po-security-watchdog.timer" in active
                && "c3po-host-security-snapshot.timer" in active && "apt-daily-upgrade.timer" in active
      ensures (forall t :: t in GUARDED_TIMERS ==> t in old(active)) ==> r.Done? && starts == old(starts)
      ensures starting.Done? ==> r.Done?
    {
      for i := 0 to |GUARDED_TIMERS|
        invariant Valid() && Eases() && old(active) <= active && (old(Undone()) ==> Undone())
        invariant forall j :: 0 <= j < i ==> GUARDED_TIMERS[j] in active
        invariant (forall t :: t in GUARDED_TIMERS ==> t in old(active)) ==> starts == old(starts)
      {
        if GUARDED_TIMERS[i] !in active {
          var some: set<Timer> := *;
          var started :- StartTimers({GUARDED_TIMERS[i]}, some, starting);
        }
      }
      assert forall i :: 0 <= i < 4 ==> GUARDED_TIMERS[i] in active;
      r := Done(());
    }

    /** `_check_locked` behind the look at the hold. */
    method CheckTimers(v: Visit) returns (r: Exec<Watched>)
      requires Valid()
      modifies this`state, this`active, this`paused, this`lost, this`starts, this`cron, this`receipt
      modifies this`marker, this`gateMarker
      ensures Valid() && Eases() && old(active) <= active
      ensures old(Fresh(v.at)) && old(state).value.phase == Requested ==>
                starts == old(starts) && active == old(active) && state == old(state) && marker == old(marker)
      ensures r == Done(Pending) <==> old(Fresh(v.at)) && old(state).value.phase == Requested
      ensures r.Done? ==> r.value in {Pending, Checked}
      // After a recovery of the containers the boot is looked at again.
      ensures r == Done(Checked) && old(state).Some? && old(state).value.phase in {Requested, Verifying}
              && old(state).value.bootId != bootId && !v.health.healthy ==>
                state.value.phase == if v.recover == Done(true) && v.later.healthy then Verified else Verifying
      ensures r == Done(Checked) ==> forall t :: t in GUARDED_TIMERS ==> t in active
      ensures r == Done(Checked) && !old(Fresh(v.at)) ==> Undone()
      ensures v.health.Works() && v.later.Works() && v.starting.Done? && v.recover.Done? && v.containers.Done? ==>
                r.Done?
    {
      var reboot :- BootCheck(v.at, v.health);
      if reboot.Some? && reboot.value.phase == Requested {
        return Done(Pending);
      }
      var started :- StartGuarded(v.starting);
      var recover :- v.recover;
      if reboot.Some? && reboot.value.phase == Verifying && recover {
        // The required containers are started, and the boot is looked at again.
        var containers :- v.containers;
        reboot :- BootCheck(v.at, v.later);
      }
      r := Done(Checked);
    }

    /** What may come between two steps of a cycle that does not hold the deployment
        lock: time, other events, and the watchdog at these times, which alone starts
        anything. */
    method Meanwhile(c: Change, visits: seq<Visit>)
      requires Valid()
      modifies this`state, this`active, this`paused, this`lost, this`starts, this`checks, this`cron, this`receipt
      modifies this`marker, this`gateMarker, this`clock
      ensures Valid() && Eases() && clock >= old(clock)
      ensures starts - old(starts) == checks - old(checks) && (visits == [] ==> starts == old(starts))
      ensures visits == [] ==>
                && marker == old(marker) && state == old(state) && clock == old(clock) + c.elapsed
                && active == old(active) - c.down + c.up
    {
      Elsewhere(c);
      for i := 0 to |visits|
        invariant Valid() && Eases() && clock >= old(clock)
        invariant starts - old(starts) == checks - old(checks) && (i == 0 ==> starts == old(starts))
        invariant i == 0 ==>
                    && marker == old(marker) && state == old(state) && clock == old(clock) + c.elapsed
                    && active == old(active) - c.down + c.up
      {
        Elsewhere(visits[i].before);
        var checked := Watchdog(visits[i]);
      }
    }

    /** `request_reboot`. The cooldown is looked at before the deployment lock is taken. */
    method RequestReboot(now: int, q: Request) returns (r: Exec<Answer>)
      requires Valid() && now <= clock
      modifies this
      ensures Valid() && clock >= old(clock) && bootId == old(bootId)
      ensures OneMore(old(commands), commands, now)
      // Within a day of the last request nothing at all is done.
      ensures old(Cooling(now)) ==>
                && commands == old(commands) && starts == old(starts) && checks == old(checks) && active == old(active)
                && paused == old(paused) && cron == old(cron) && receipt == old(receipt) && state == old(state)
                && lost == old(lost) && overwrites == old(overwrites)
      ensures r.Done? && r.value != Granted ==> paused <= old(paused) && commands == old(commands)
      ensures r == Done(Granted) ==>
                && |commands| == |old(commands)| + 1 && marker && gateMarker
                && state.Some? && state.value.phase == Requested && state.value.bootId == bootId
      // A command is given only if every look, from the first to the last, speaks for it.
      ensures commands != old(commands) ==> Clear(q) && !old(Cooling(now))
      ensures Clear(q) && !old(Cooling(now)) && q.pausing.Works(true) ==> commands != old(commands)
      // Every answer is the one the looks call for, and up to the locks they get it.
      ensures r.Done? ==> CallsFor(q, old(Cooling(now)), r.value)
      ensures forall a :: CallsFor(q, old(Cooling(now)), a) && !(Free(q.looks) && Secured(q.locks)) ==> r == Done(a)
      // A timer is lost only if it was stopped and on record before.
      ensures (overwrites == old(overwrites) && lost <= old(lost)) ||
              (overwrites == old(overwrites) + 1 && old(paused) != old(lost))
    {
      hide Clear, CallsFor, Covers, Recorded, Secured, Spaced;
      EarlyAnswers(q);
      var cooling := state.Some? && now - state.value.requestedAt < COOLDOWN;
      var refusal :- LookAround(q.looks, cooling);
      if refusal.Some? {
        return Done(refusal.value);
      }
      r := RequestFurther(now, q);
    }

    /** The rest of `request_reboot`, once all looks without a lock are free. */
    method RequestFurther(now: int, q: Request) returns (r: Exec<Answer>)
      requires Valid() && now <= clock && Free(q.looks) && !Cooling(now)
      modifies this
      ensures Valid() && clock >= old(clock) && bootId == old(bootId)
      ensures OneMore(old(commands), commands, now)
      ensures r.Done? && r.value != Granted ==> paused <= old(paused) && commands == old(commands)
      ensures r == Done(Granted) ==>
                && |commands| == |old(commands)| + 1 && marker && gateMarker
                && state.Some? && state.value.phase == Requested && state.value.bootId == bootId
      ensures commands != old(commands) ==> Clear(q)
      ensures Clear(q) && q.pausing.Works(true) ==> commands != old(commands)
      ensures r.Done? ==> CallsFor(q, false, r.value)
      ensures forall a :: CallsFor(q, false, a) && !Secured(q.locks) ==> r == Done(a)
      ensures (overwrites == old(overwrites) && lost <= old(lost)) ||
              (overwrites == old(overwrites) + 1 && old(paused) != old(lost))
    {
      hide Covers, DatabaseIdle, Free, PackagesIdle, Permitted, PipelineIdle, Recorded, Spaced;
      FreeMeans(q.looks);
      Meanwhile(q.meantime, q.visits);
      // From here on the deployment lock is held, or the request is put off.
      var refusal :- LookUnderLocks(q.locks);
      if refusal.Some? {
        return Done(refusal.value);
      }
      r := RebootUnderLock(q.pausing, q.between, q.last, q.effects, q.restoring);
    }

    /** The looks of `request_reboot` before any lock. */
    method LookAround(l: Looks, cooling: bool) returns (r: Exec<Option<Answer>>)
      ensures r == Done(None) <==> !cooling && Free(l)
      ensures forall a :: r == Done(Some(a)) <==> Early(l, cooling, a)
    {
      var needed :- l.needed;
      if !needed {
        return Done(Some(NotNeeded));
      }
      if cooling {
        return Done(Some(Cooldown));
      }
      var allowed :- l.allowed;
      if !allowed {
        return Done(Some(Deferred));
      }
      var healthy :- l.healthy;
      if !healthy {
        return Done(Some(Deferred));
      }
      var busy :- l.pipelineBusy;
      if busy {
        return Done(Some(WaitingPipeline));
      }
      busy :- l.packagesBusy;
      if busy {
        return Done(Some(WaitingPackages));
      }
      busy :- l.databaseBusy;
      if busy {
        return Done(Some(WaitingDatabase));
      }
      busy :- l.ingestionBusy;
      r := Done(if busy then Some(WaitingIngestion) else None);
    }

    /** The locks of `request_reboot`, and what is looked at under them. */
    method LookUnderLocks(k: Locks) returns (r: Exec<Option<Answer>>)
      ensures r == Done(None) <==> Secured(k)
      ensures r == Done(Some(WaitingPackagesOrDeploy)) <==> k.taken == Done(false)
      ensures r == Done(Some(WaitingAdmission)) <==> k.taken == Done(true) && k.gateTaken == Done(false)
      ensures r == Done(Some(WaitingActiveJobs)) <==>
                k.taken == Done(true) && k.gateTaken == Done(true) && k.drained == Done(false)
      ensures r == Done(Some(WaitingCoverage)) <==>
                && k.taken == Done(true) && k.gateTaken == Done(true) && k.drained == Done(true)
                && k.covered == Done(false)
      ensures r.Done? && r.value.Some? ==>
                r.value.value in {WaitingPackagesOrDeploy, WaitingAdmission, WaitingActiveJobs, WaitingCoverage}
    {
      var taken :- k.taken;
      if !taken {
        return Done(Some(WaitingPackagesOrDeploy));
      }
      var gateTaken :- k.gateTaken;
      if !gateTaken {
        return Done(Some(WaitingAdmission));
      }
      var drained :- k.drained;
      if !drained {
        return Done(Some(WaitingActiveJobs));
      }
      var covered :- k.covered;
      r := Done(if covered then None else Some(WaitingCoverage));
    }

    /** The part of `request_reboot` under the pause, the end of the pause included. */
    method RebootUnderLock(p: Pausing, between: Change, last: LastLooks, e: Effects, a: Restoring)
      returns (r: Exec<Answer>)
      requires Valid()
      requires state.Some? ==> state.value.requestedAt + COOLDOWN <= clock
      modifies this
      ensures Valid() && clock >= old(clock) && bootId == old(bootId)
      ensures OneMore(old(commands), commands, old(clock))
      ensures r.Done? && r.value != Granted ==> paused <= old(paused) && commands == old(commands)
      ensures r == Done(Granted) ==>
                && |commands| == |old(commands)| + 1 && marker && gateMarker
                && state.Some? && state.value.phase == Requested && state.value.bootId == bootId
      ensures commands != old(commands) ==> Quiet(last) && Reaches(e)
      ensures p.Works(old(cron).pid != 0) && Quiet(last) && Reaches(e) ==> commands != old(commands)
      ensures r == Done(Granted) ==> Quiet(last) && Reaches(e) && e.commanded.Done?
      ensures r == Done(WaitingScheduledJobs) ==> last.idle == Done(false)
      ensures r == Done(WaitingDatabase) ==> last.idle == Done(true) && last.databaseBusy == Done(true)
      ensures r == Done(Deferred) ==>
                last.idle == Done(true) && last.databaseBusy == Done(false) && last.allowed == Done(false)
      ensures r.Done? ==> r.value in {Granted, WaitingScheduledJobs, WaitingDatabase, Deferred}
      // Once the reboot is requested, what is stopped stays stopped until the boot.
      ensures r == Done(Granted) ==>
                starts == old(starts) && active == old(active) * OWN_TIMERS - between.down + between.up
      ensures (overwrites == old(overwrites) && lost <= old(lost)) ||
              (overwrites == old(overwrites) + 1 && old(paused) != old(lost))
    {
      hide Covers, Recorded, Spaced;
      var pause :- Pause(p, a);
      Elsewhere(between);
      var outcome := RequestPaused(last, e);
      if outcome.Crashed? || outcome == Done(Granted) {
        return outcome;
      }
      var restored :- Restore(a);
      r := outcome;
    }

    /** The controller's cycle, as far as the schedulers are concerned. Without the
        lock its boot check only reads. */
    method Controller(
      now: int, locked: bool, health: Health, meantime: Change, visits: seq<Visit>, gatesOpen: Exec<bool>, q: Request)
      returns (r: Exec<Option<Answer>>)
      requires Valid() && now <= clock
      modifies this
      ensures Valid() && clock >= old(clock) && bootId == old(bootId)
      ensures OneMore(old(commands), commands, now)
      // A reboot is commanded only behind open gates and with everything speaking for it.
      ensures commands != old(commands) ==> gatesOpen == Done(true) && Clear(q)
      // And that is enough, once no marker is out and no cooldown is on.
      ensures !locked && visits == [] && old(marker) ==> r == Done(None)
      ensures (&& !locked && visits == [] && !old(marker) && !old(Cooling(now))
               && gatesOpen == Done(true) && Clear(q) && q.pausing.Works(true)) ==> commands != old(commands)
      // In the fresh window all that is started is what the watchdog starts, and without
      // a visit of the watchdog nothing is.
      ensures old(Fresh(now)) ==>
                && commands == old(commands) && starts - old(starts) == checks - old(checks)
                && (visits == [] ==> starts == old(starts))
      // A timer is lost only by a cycle that did not get the lock for its boot check,
      // past the cooldown, with that timer still stopped and on record.
      ensures (overwrites == old(overwrites) && lost <= old(lost)) ||
              (overwrites == old(overwrites) + 1 && old(paused) != old(lost) && !locked && !old(Cooling(now)))
    {
      if locked {
        var known :- BootCheck(now, health);
      }
      Meanwhile(meantime, visits);
      if marker {
        return Done(None);
      }
      var open :- gatesOpen;
      if !open {
        return Done(None);
      }
      var asked :- RequestReboot(now, q);
      r := Done(Some(asked));
    }

    /** A reboot of the machine. Units that are not enabled stay down; what lived in
        memory or under /run is gone. */
    method Boot(c: Change)
      requires Valid()
      modifies this`bootId, this`active, this`paused, this`lost, this`cron, this`marker, this`clock
      ensures Valid() && Eases()
      ensures bootId == old(bootId) + 1 && !marker && active == c.up && paused == old(paused) - c.up
      ensures !cron.suspended && cron.start == bootId && lost == old(lost) - c.up
    {
      Tick(c.elapsed);
      bootId := bootId + 1;
      active := c.up;
      paused, lost := paused - c.up, lost - c.up;
      cron := Cron(c.restarted.GetOr(0), bootId, false);
      marker := false;
    }

    /** One event, and whatever comes before it. */
    method Happen(before: Change, event: Event)
      requires Valid()
      modifies this
      ensures Valid() && old(commands) <= commands
      ensures |commands| <= |old(commands)| + if Permit(event) then 1 else 0
      ensures old(overwrites) <= overwrites <= old(overwrites) + if event.Cycle? && !event.locked then 1 else 0
      ensures overwrites == old(overwrites) ==> lost <= old(lost)
    {
      hide Clear, Covers, Recorded, Spaced;
      var now := clock;
      Elsewhere(before);
      match event
      case Reboot(change) =>
        Boot(change);
      case Check(visit) =>
        Elsewhere(visit.before);
        var checked := Watchdog(visit);
      case Cycle(locked, health, meantime, visits, gatesOpen, request) =>
        var done := Controller(now, locked, health, meantime, visits, gatesOpen, request);
    }

    /** Any sequence of events, with time and anything else between them. Timers are
        lost by cycles that did not get the lock for their boot check, and by no others. */
    method Runs(events: seq<Event>)
      requires Valid()
      modifies this
      ensures Valid()
      ensures Spaced(commands) && old(commands) <= commands
      ensures Covers(receipt, paused - lost, cron, bootId)
      ensures old(overwrites) <= overwrites <= old(overwrites) + Blind(events)
      ensures overwrites == old(overwrites) ==> lost <= old(lost)
      // No more commands than there were cycles that everything spoke for.
      ensures |commands| <= |old(commands)| + Permits(events)
    {
      for i := 0 to |events|
        invariant Valid() && old(commands) <= commands && |commands| <= |old(commands)| + Permits(events[..i])
        invariant old(overwrites) <= overwrites <= old(overwrites) + Blind(events[..i])
        invariant overwrites == old(overwrites) ==> lost <= old(lost)
      {
        assert events[..i + 1][..i] == events[..i];
        var before: Change := *;
        Happen(before, events[i]);
      }
      assert events[..|events|] == events;
    }
  }
}
