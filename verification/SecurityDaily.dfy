/** The hourly security cycle: reconciliation of approval receipts, the chain of
    gates, and the three writes behind it (approve, merge, reboot). */
module SecurityDaily {
  import opened ApprovalSearch
  import opened Outcomes
  import opened CiReceipts
  import opened NpmWait

  datatype Wait = NpmEvidence | CiApproval

  /** The report. While a cycle runs, the history in it is the very list that the
      reconciler and the approver update, so a checkpoint writes their changes. */
  datatype Report = Report(
    generatedAt: int, history: seq<Receipt>, npmLagSince: Anchor, errors: seq<string>, pending: set<Wait>,
    status: Status, healthy: bool)

  /** The report that `main` writes when a cycle raises: the one of before, with
      the receipts that the file holds now. */
  function Failed(previous: Report, journal: Report, now: int, error: string): Report {
    previous.(generatedAt := now, history := journal.history, errors := [error], pending := {},
              status := RoutineFailed, healthy := false)
  }

  /** A report that waits for npm evidence was made within the grace of its own anchor. */
  predicate WaitOk(r: Report) {
    NpmEvidence in r.pending ==> WithinGrace(r.npmLagSince, r.generatedAt)
  }

  /** A report that says all is well holds no receipt still in the air. */
  predicate HealthOk(r: Report) {
    r.healthy ==> NoneUnresolved(r.history) && r.errors == [] && r.pending == {}
  }

  /** As long as a receipt is in the air, the report says so. */
  predicate Marked(r: Report) {
    r.errors == [] && r.pending == {} ==> NoneUnresolved(r.history)
  }

  /** A later form of the report of the same cycle. */
  predicate Continues(r: Report, r': Report) {
    && r'.generatedAt == r.generatedAt && r'.npmLagSince == r.npmLagSince
    && (NpmEvidence in r'.pending ==> NpmEvidence in r.pending)
  }

  /** A report of this cycle, against the anchor that was in the file before it. */
  predicate OfCycle(r: Report, now: int, start: Anchor, audited: bool) {
    && r.generatedAt == now
    && (!audited && !start.NoAnchor? ==> r.npmLagSince == start)
    && (NpmEvidence in r.pending ==> !audited)
  }

  /** An audit of the current main was found. */
  predicate Audited(audit: Exec<Audit>) {
    audit.Done? && OfCurrentMain(audit.value)
  }

  // ----------------------------------------------------------- the cycle's answers

  /** The gates in front of the writes. A host whose probe fails is not well. */
  datatype Gate = Gate(
    hold: Exec<bool>, marker: Exec<bool>, hostOk: bool, rebootRequired: bool, window: Exec<bool>, enabled: bool)

  /** A request for a reboot: whether it gets as far as the command, and what it answers. */
  datatype RebootCall = RebootCall(commanded: bool, answer: Exec<string>)

  /** What the second half of a cycle is answered. */
  datatype Acting = Acting(
    requestedThisMain: bool, dispatchErrors: Exec<seq<string>>, deployedMain: bool, gate: Gate,
    reboot: RebootCall, approving: Approving, promoting: Promoting, otherBlockers: bool)

  /** What its first half is answered: errors found elsewhere, the npm audit, the receipts. */
  datatype Evidence = Evidence(
    errors: Exec<seq<string>>, audit: Exec<Audit>, repairFailed: bool, readings: nat -> Reading, handled: bool)

  /** One process: when it starts, all it is answered, and what becomes of its two reports. */
  datatype Start = Start(now: int, evidence: Evidence, observed: Writing, acting: Acting, final: Writing)

  /** No operator holds the host, and no reboot is pending. */
  predicate NotHeld(g: Gate) {
    g.hold == Done(false) && g.marker == Done(false)
  }

  /** A report without an error or a wait, on a host that is well and not held. */
  predicate Sound(r: Report, g: Gate) {
    NotHeld(g) && r.errors == [] && r.pending == {} && g.hostOk
  }

  predicate RebootOpen(r: Report, g: Gate, deployedMain: bool) {
    Sound(r, g) && g.rebootRequired && deployedMain
  }

  /** No reboot is due first, and the maintenance window is open. */
  predicate WindowOpen(r: Report, g: Gate, deployedMain: bool) {
    Sound(r, g) && !(g.rebootRequired && deployedMain) && g.window == Done(true)
  }

  /** The step behind the last gate is reached. */
  predicate AllOpen(r: Report, g: Gate, deployedMain: bool, dispatchErrors: seq<string>) {
    WindowOpen(r, g, deployedMain) && dispatchErrors == []
  }

  /** The request for this run is sent: its proof holds, it is still bound, there is room,
      the intent is in the file, and nothing changed at the last look. */
  predicate Sends(h: seq<Receipt>, c: Run) {
    && c.proof == Done(true) && c.stillBound == Done(true) && |h| < HISTORY_LIMIT
    && c.intent.Works() && c.ready == Done(true)
  }

  /** The search has nobody to approve, so a merge is next. */
  predicate NobodyToApprove(q: Approving, h: seq<Receipt>) {
    && q.mainDeployed == Done(true) && q.pulls.Done?
    && forall p :: 0 <= p < |q.pulls.value| ==> PassesPull(q.pulls.value[p], h)
  }

  /** The search ends at a run that may be approved, and its request is sent. */
  ghost predicate ApprovesOne(q: Approving, h: seq<Receipt>) {
    && q.mainDeployed == Done(true) && q.pulls.Done?
    && exists p, w, i ::
         && ComesTo(q.pulls.value, h, p, w, i) && Fresh(h, q.pulls.value[p].flows[w].runs.value[i].id)
         && Sends(h, q.pulls.value[p].flows[w].runs.value[i])
  }

  function ApprovalStatuses(): set<Status> {
    {Idle, WaitingMainDeploy, WaitingCiApproval, BlockedCiApproval, WaitingSecurityTests, BaselineChangedOrHold}
  }

  function PromotionStatuses(): set<Status> {
    {WaitingMainDeploy, BlockedBranchProtection, WaitingPipeline, WaitingSecurityTests, WaitingBranchRules,
     BaselineChangedOrHold, MergedWaitingDeploy, NoValidatedCandidate}
  }

  /** The status that the gates give to a report, named after the first that is closed. */
  predicate StatusSays(r: Report, a: Acting, dispatchErrors: seq<string>, status: Status) {
    var g := a.gate;
    && (g.hold == Done(true) ==> status == MaintenanceHold)
    && (g.hold == Done(false) && g.marker == Done(true) ==> status == RebootPending)
    && (NotHeld(g) && r.errors != [] ==> status == BlockedMissingEvidence)
    && (NotHeld(g) && r.errors == [] && CiApproval in r.pending ==> status == WaitingCiApproval)
    && (NotHeld(g) && r.errors == [] && r.pending == {NpmEvidence} ==> status == WaitingNpmEvidence)
    && (NotHeld(g) && r.errors == [] && r.pending == {} && !g.hostOk ==> status == BlockedUnhealthyHost)
    && (RebootOpen(r, g, a.deployedMain) ==> a.reboot.answer.Done? && status == Rebooting(a.reboot.answer.value))
    && (Sound(r, g) && !RebootOpen(r, g, a.deployedMain) && g.window == Done(false) ==>
          status == WaitingMaintenanceWindow)
    && (WindowOpen(r, g, a.deployedMain) && dispatchErrors != [] ==> status == BlockedScanDispatch)
    && (AllOpen(r, g, a.deployedMain, dispatchErrors) ==> status in ApprovalStatuses() + PromotionStatuses())
  }

  lemma OpenMeans(r: Report, g: Gate, deployedMain: bool, dispatchErrors: seq<string>)
    ensures RebootOpen(r, g, deployedMain) <==>
              && g.hold == Done(false) && g.marker == Done(false) && r.errors == [] && r.pending == {} && g.hostOk
              && g.rebootRequired && deployedMain
    ensures WindowOpen(r, g, deployedMain) <==>
              && g.hold == Done(false) && g.marker == Done(false) && r.errors == [] && r.pending == {} && g.hostOk
              && !(g.rebootRequired && deployedMain) && g.window == Done(true)
    ensures AllOpen(r, g, deployedMain, dispatchErrors) <==> WindowOpen(r, g, deployedMain) && dispatchErrors == []
  {
  }

  /** Settling the npm wait opens and closes no gate. */
  lemma SettledOpens(before: Report, after: Report, a: Acting, dispatchErrors: seq<string>)
    requires || after == before
             || (&& before.pending != {} && after.errors != []
                 && after == before.(pending := after.pending, errors := after.errors))
    ensures RebootOpen(before, a.gate, a.deployedMain) <==> RebootOpen(after, a.gate, a.deployedMain)
    ensures AllOpen(before, a.gate, a.deployedMain, dispatchErrors) <==>
            AllOpen(after, a.gate, a.deployedMain, dispatchErrors)
    ensures before.history == after.history
  {
  }

  /** What the report shows of the evidence: the errors found before, what the npm step
      concluded, and what was left of the receipts. */
  predicate ShowsEvidence(r: Report, now: int, stored: Anchor, e: Evidence)
    requires e.errors.Done? && e.audit.Done?
  {
    var (anchor, npm) := NpmStep(now, stored, e.audit.value, e.repairFailed);
    && r.npmLagSince == anchor && (NpmEvidence in r.pending <==> npm == Waiting)
    && e.errors.value + (if npm == Missing then ["npm_evidence_unavailable"] else []) <= r.errors
  }

  /** The observed report of a cycle that finds no receipt in the air. */
  function QuietReport(now: int, previous: Report, e: Evidence): Report
    requires e.errors.Done? && e.audit.Done?
  {
    var (anchor, npm) := NpmStep(now, previous.npmLagSince, e.audit.value, e.repairFailed);
    Report(now, previous.history, anchor,
           e.errors.value + if npm == Missing then ["npm_evidence_unavailable"] else [],
           if npm == Waiting then {NpmEvidence} else {}, JustObserved, false)
  }

  /** Nothing is in the air, and the first half of the cycle gets all its answers. */
  predicate Quiet(previous: Report, start: Start) {
    && NoneUnresolved(previous.history) && start.evidence.errors.Done? && start.evidence.audit.Done?
    && start.observed.Works()
  }

  /** Only a process for which this holds can write: no hold, no marker, a host that is
      well, its report on file, and no error in what it was answered. */
  predicate Opens(start: Start) {
    && NotHeld(start.acting.gate) && start.acting.gate.hostOk && start.observed.Works()
    && start.evidence.errors == Done([]) && start.acting.dispatchErrors.Done?
  }

  function CountOpen(starts: seq<Start>): nat {
    if starts == [] then 0
    else CountOpen(starts[..|starts| - 1]) + if Opens(starts[|starts| - 1]) then 1 else 0
  }

  lemma OpensIfAny(r: Report, start: Start)
    requires start.evidence.errors.Done? && start.evidence.audit.Done? && start.observed.Works()
    requires exists now, stored :: ShowsEvidence(r, now, stored, start.evidence)
    ensures start.acting.dispatchErrors.Done? && RebootOpen(r, start.acting.gate, start.acting.deployedMain) ==>
              Opens(start)
    ensures (start.acting.dispatchErrors.Done? &&
             AllOpen(r, start.acting.gate, start.acting.deployedMain, start.acting.dispatchErrors.value)) ==>
              Opens(start)
  {
  }

  lemma BooksMean(h: seq<Receipt>, approvals: multiset<Identity>)
    requires Books(h, approvals)
    ensures forall id :: approvals[id] <= 1
    ensures forall id :: id in approvals ==> Recorded(h, id)
    ensures HistoryOk(h) && DistinctIds(h) && OneUnresolved(h)
  {
    assert forall id :: id !in approvals ==> approvals[id] == 0;
  }

  lemma AdvancedSameLength(h: seq<Receipt>, h': seq<Receipt>)
    requires Advanced(h, h')
    ensures |h'| == |h|
  {
  }

  /** Where nothing is in the air, whatever is read changes nothing. */
  lemma QuietStays(h: seq<Receipt>, h': seq<Receipt>, readings: nat -> Reading)
    requires NoneUnresolved(h) && |h'| == |h|
    ensures forall i :: 0 <= i < |h| ==> ReconcileOne(h[i], readings(i)) == Done(Verdict(h[i], Clear))
    ensures (forall i :: 0 <= i < |h| ==> ReconcileOne(h[i], readings(i)).Done? &&
                                          h'[i] == ReconcileOne(h[i], readings(i)).value.receipt) ==> h' == h
  {
  }

  /** From a place on, the log holds these processes. */
  predicate LogOf(starts: seq<Start>, log: seq<Process>, from: nat) {
    && |log| == from + |starts|
    && forall i :: 0 <= i < |starts| ==>
         log[from + i].now == starts[i].now && log[from + i].audited == Audited(starts[i].evidence.audit)
  }

  predicate NoneAudited(starts: seq<Start>, i: nat, j: nat) {
    j < |starts| && forall k :: i < k <= j ==> !Audited(starts[k].evidence.audit)
  }

  /** Two processes that leave a report of a wait, with no audit after the first of
      them, start within the grace of each other. */
  predicate WaitsStayShort(starts: seq<Start>, log: seq<Process>, from: nat)
    requires |log| == from + |starts|
  {
    forall i, j :: 0 <= i <= j < |starts| && NoneAudited(starts, i, j)
                   && log[from + i].reportedWait && log[from + j].reportedWait ==>
                   starts[j].now - starts[i].now < 3 * 3600
  }

  lemma LoggedWaitsAreShort(starts: seq<Start>, log: seq<Process>, from: nat)
    requires Chained(log) && LogOf(starts, log, from)
    ensures WaitsStayShort(starts, log, from)
  {
    forall i, j | 0 <= i <= j < |starts| && NoneAudited(starts, i, j)
                  && log[from + i].reportedWait && log[from + j].reportedWait
      ensures starts[j].now - starts[i].now < GRACE
    {
      forall k | from + i < k <= from + j
        ensures !log[k].audited
      {
        assert log[from + (k - from)].audited == Audited(starts[k - from].evidence.audit);
      }
      WaitIsBounded(log, from + i, from + j);
    }
  }

  class Controller {
    var report: Report                       // memory
    var disk: Report                         // the file
    ghost var approvals: multiset<Identity>  // approval requests attempted, ever
    ghost var merges: nat                    // merge requests attempted, ever
    ghost var reboots: nat                   // reboots asked for, ever
    ghost var log: seq<Process>

    ghost predicate Valid()
      reads this
    {
      Books(disk.history, approvals) && WaitOk(disk) && HealthOk(disk)
    }

    /** Memory accounts for every request as well. */
    ghost predicate Working()
      reads this
    {
      Valid() && Books(report.history, approvals) && WaitOk(report)
    }

    ghost predicate Logged()
      reads this
    {
      Chained(log) && (log != [] ==> log[|log| - 1].after == disk.npmLagSince)
    }

    /** What was sent once stays sent. */
    twostate predicate Grows()
      reads this
    {
      old(approvals) <= approvals && old(merges) <= merges && old(reboots) <= reboots
    }

    /** Which writes are made on a report, told from what it shows and what is answered. */
    twostate predicate WritesAsTold(r: Report, a: Acting)
      reads this
    {
      && (reboots != old(reboots) <==>
            a.dispatchErrors.Done? && RebootOpen(r, a.gate, a.deployedMain) && a.reboot.commanded)
      && (approvals != old(approvals) <==>
            && a.dispatchErrors.Done? && AllOpen(r, a.gate, a.deployedMain, a.dispatchErrors.value)
            && a.gate.enabled && ApprovesOne(a.approving, r.history))
      && (merges != old(merges) <==>
            && a.dispatchErrors.Done? && AllOpen(r, a.gate, a.deployedMain, a.dispatchErrors.value)
            && (a.gate.enabled ==> NobodyToApprove(a.approving, r.history)) && Merges(a.promoting))
    }

    ghost function Writes(): nat
      reads this
    {
      |approvals| + merges + reboots
    }

    /** Before the first process there is no file: nothing is on record or in wait. */
    constructor ()
      ensures Valid() && Logged()
      ensures disk.history == [] && disk.npmLagSince == NoAnchor && !disk.healthy && disk.pending == {}
      ensures approvals == multiset{} && Writes() == 0 && log == []
    {
      var none := Report(0, [], NoAnchor, [], {}, NoStatus, false);
      report, disk := none, none;
      approvals, merges, reboots, log := multiset{}, 0, 0, [];
    }

    /** `write_report`: the whole file or nothing, failing on either side of it. */
    method WriteReport(w: Writing) returns (r: Exec<()>)
      requires Working() && HealthOk(report)
      modifies this`disk
      ensures Working()
      ensures disk == if w.Lands() then report else old(disk)
      ensures r == w.Result()
    {
      var reached :- w.reached;
      disk := report;
      r := w.returned;
    }

    /** `reconcile_ci_approvals`: reads only. */
    method Reconcile(readings: nat -> Reading) returns (r: Exec<(seq<string>, bool)>)
      requires Working()
      modifies this`report
      ensures Working()
      ensures report == old(report).(history := report.history)
      ensures Advanced(old(report.history), report.history)
      // Every receipt ends as its own reading says.
      ensures r.Done? <==>
                forall i :: 0 <= i < |old(report.history)| ==> ReconcileOne(old(report.history[i]), readings(i)).Done?
      ensures r.Done? ==> forall i :: 0 <= i < |report.history| ==>
                report.history[i] == ReconcileOne(old(report.history[i]), readings(i)).value.receipt
      // Whatever is left in the air has marked the cycle.
      ensures r.Done? ==> (NoneUnresolved(report.history) <==> r.value == ([], false))
    {
      hide Books, ReconcileOne;
      var errors: seq<string>, pending := [], false;
      for i := 0 to |report.history|
        invariant report == old(report).(history := report.history)
        invariant |report.history| == |old(report.history)|
        invariant Books(old(report.history), approvals)
        invariant Advanced(old(report.history), report.history)
        invariant forall j :: i <= j < |report.history| ==> report.history[j] == old(report.history[j])
        invariant forall j :: 0 <= j < i ==>
                    ReconcileOne(old(report.history[j]), readings(j)).Done? &&
                    report.history[j] == ReconcileOne(old(report.history[j]), readings(j)).value.receipt
        invariant (errors == [] && !pending) <==> forall j :: 0 <= j < i ==> !Unresolved(report.history[j])
      {
        hide EvidenceOfEnd;
        var outcome := ReconcileOne(report.history[i], readings(i));
        if !outcome.Done? {
          AdvancedKeepsBooks(old(report.history), report.history, approvals);
          return outcome.PropagateFailure();
        }
        var verdict := outcome.value;
        report := report.(history := report.history[i := verdict.receipt]);
        match verdict.mark {
          case Clear =>
          case Pending => pending := true;
          case Blocked(error) => errors := errors + [error];
        }
      }
      AdvancedKeepsBooks(old(report.history), report.history, approvals);
      r := Done((errors, pending));
    }

    /** The approval request. Its intent is in the file, and nothing else is in the air. */
    method PostApproval(ghost id: Identity, sent: Exec<bool>) returns (r: Exec<bool>)
      requires Working() && disk.history == report.history
      requires |disk.history| > 0 && disk.history[|disk.history| - 1].id == id
      requires disk.history[|disk.history| - 1].state == Intent
      requires id !in approvals
      modifies this`approvals
      ensures Working() && r == sent
      ensures approvals == old(approvals) + multiset{id}
    {
      assert Recorded(disk.history, id);
      SendingKeepsBooks(disk.history, id, approvals);
      approvals := approvals + multiset{id};
      r := sent;
    }

    method SetLast(state: ReceiptState)
      requires Working() && |report.history| > 0 && Unresolved(report.history[|report.history| - 1])
      requires state == NotSent ==> report.history[|report.history| - 1].id !in approvals
      modifies this`report
      ensures Working()
      ensures report == old(report).(history := report.history)
      ensures var last := |old(report.history)| - 1;
              report.history == old(report.history)[last := old(report.history[last]).(state := state)]
    {
      var last := |report.history| - 1;
      LastKeepsBooks(report.history, state, approvals);
      report := report.(history := report.history[last := report.history[last].(state := state)]);
    }

    /** The innermost part of `approve_ci`, for a run with no receipt that stands in
        its way: intent, checkpoint, last reads, at most one request, checkpoint. */
    method ApproveRun(c: Run, pull: int) returns (r: Exec<Approval>)
      requires Working() && HealthOk(disk) && !report.healthy
      requires NoneUnresolved(report.history) && !Recorded(report.history, c.id)
      requires IdentityOk(c.id) && pull > 0
      modifies this`report, this`disk, this`approvals
      ensures Working()
      ensures report == old(report).(history := report.history)
      ensures disk == old(disk) || disk == old(report).(history := disk.history)
      // The request is sent exactly on these answers.
      ensures approvals == old(approvals) + if Sends(old(report.history), c) then multiset{c.id} else multiset{}
      ensures Sends(old(report.history), c) && r.Done? ==>
                && disk == report && |report.history| > 0
                && report.history[|report.history| - 1] ==
                   Receipt(c.id, pull, if c.sent == Done(true) then Accepted else Unknown)
                && r.value == (if c.sent == Done(true) then Approval(WaitingCiApproval, [])
                               else Approval(BlockedCiApproval, ["ci_approval:outcome_unconfirmed"]))
      // Without the request, the answer says what stood in its way.
      ensures r == Done(Approval(WaitingSecurityTests, [])) <==> c.proof == Done(false)
      ensures r == Done(Approval(BaselineChangedOrHold, [])) <==>
                && c.proof == Done(true) && c.stillBound == Done(true) && |old(report.history)| < HISTORY_LIMIT
                && c.intent.Works() && c.ready == Done(false) && c.withdrawn.Works()
      ensures r == Done(Approval(BaselineChangedOrHold, [])) ==>
                && disk == report && |report.history| > 0
                && report.history[|report.history| - 1] == Receipt(c.id, pull, NotSent)
      ensures c.proof == Done(true) && c.stillBound == Done(false) ==> r == Done(Approval(WaitingCiApproval, []))
      ensures c.proof == Done(true) && c.stillBound == Done(true) && |old(report.history)| >= HISTORY_LIMIT ==>
                r == Done(Approval(BlockedCiApproval, ["ci_approval:history_full"]))
      ensures r.Done? ==>
                r.value.status in {WaitingCiApproval, BlockedCiApproval, WaitingSecurityTests, BaselineChangedOrHold}
    {
      hide IdentityOk;
      var proof :- c.proof;
      if !proof {
        return Done(Approval(WaitingSecurityTests, []));
      }
      var stillBound :- c.stillBound;
      if !stillBound {
        return Done(Approval(WaitingCiApproval, []));
      }
      if |report.history| >= HISTORY_LIMIT {
        return Done(Approval(BlockedCiApproval, ["ci_approval:history_full"]));
      }
      r := RequestApproval(c, pull);
    }

    /** From the recorded intent on. */
    method RequestApproval(c: Run, pull: int) returns (r: Exec<Approval>)
      requires Working() && HealthOk(disk) && !report.healthy
      requires NoneUnresolved(report.history) && !Recorded(report.history, c.id) && |report.history| < HISTORY_LIMIT
      requires IdentityOk(c.id) && pull > 0
      modifies this`report, this`disk, this`approvals
      ensures Working()
      ensures report == old(report).(history := report.history)
      ensures disk == old(disk) || disk == old(report).(history := disk.history)
      ensures approvals == old(approvals) +
                if c.intent.Works() && c.ready == Done(true) then multiset{c.id} else multiset{}
      ensures c.intent.Works() && c.ready == Done(true) && r.Done? ==>
                && disk == report && |report.history| > 0
                && report.history[|report.history| - 1] ==
                   Receipt(c.id, pull, if c.sent == Done(true) then Accepted else Unknown)
                && r.value == (if c.sent == Done(true) then Approval(WaitingCiApproval, [])
                               else Approval(BlockedCiApproval, ["ci_approval:outcome_unconfirmed"]))
      ensures r.Done? && !(c.intent.Works() && c.ready == Done(true)) ==>
                && c.intent.Works() && c.ready == Done(false) && c.withdrawn.Works()
                && r.value == Approval(BaselineChangedOrHold, [])
      ensures c.intent.Works() && c.ready == Done(false) && c.withdrawn.Works() ==>
                && r == Done(Approval(BaselineChangedOrHold, [])) && disk == report && |report.history| > 0
                && report.history[|report.history| - 1] == Receipt(c.id, pull, NotSent)
      // A request whose outcome is lost stays on file as an intent; a handled error and an
      // unexpected answer are written down as unknown.
      ensures c.intent.Works() && c.ready == Done(true) ==>
                (r.Done? <==> !c.sent.Crashed? && (c.sent.Raised? ==> c.handled) && c.closed.Works())
      ensures c.intent.Works() && c.ready == Done(true) && (c.sent.Crashed? || (c.sent.Raised? && !c.handled)) ==>
                |disk.history| > 0 && disk.history[|disk.history| - 1] == Receipt(c.id, pull, Intent)
    {
      hide IdentityOk;
      IntentKeepsBooks(report.history, c.id, pull, approvals);
      report := report.(history := Intended(report.history, c.id, pull));
      var checkpoint :- WriteReport(c.intent);
      var ready :- c.ready;
      if !ready {
        SetLast(NotSent);
        checkpoint :- WriteReport(c.withdrawn);
        return Done(Approval(BaselineChangedOrHold, []));
      }
      var sent := PostApproval(c.id, c.sent);
      if sent.Crashed? {
        return Crashed;
      }
      if sent.Raised? {
        // Only some exceptions are handled here; any other one ends the cycle.
        if !c.handled {
          return Raised(sent.error);
        }
      }
      var accepted := sent == Done(true);
      SetLast(if accepted then Accepted else Unknown);
      checkpoint :- WriteReport(c.closed);
      r := Done(if accepted then Approval(WaitingCiApproval, [])
                else Approval(BlockedCiApproval, ["ci_approval:outcome_unconfirmed"]));
    }

    /** `approve_ci`: the first run that may be approved is, and the search ends. */
    method ApproveCi(q: Approving) returns (r: Exec<Approval>)
      requires Working() && HealthOk(disk) && !report.healthy && NoneUnresolved(report.history)
      modifies this`report, this`disk, this`approvals
      ensures Working()
      ensures report == old(report).(history := report.history)
      ensures disk == old(disk) || disk == old(report).(history := disk.history)
      ensures old(approvals) <= approvals && |approvals| <= |old(approvals)| + 1
      // A request is sent exactly when the search ends at a run whose answers call for it.
      ensures approvals != old(approvals) <==> ApprovesOne(q, old(report.history))
      ensures r.Done? && r.value.status == Idle <==> NobodyToApprove(q, old(report.history))
      ensures r.Done? && r.value.status == Idle ==>
                report == old(report) && disk == old(disk) && approvals == old(approvals) && r.value.errors == []
      ensures r == Done(Approval(WaitingMainDeploy, [])) <==> q.mainDeployed == Done(false)
      ensures r.Done? ==> r.value.status in ApprovalStatuses()
    {
      hide ComesTo, Fresh, IdentityOk, PassesPull, Sends;
      var mainDeployed :- q.mainDeployed;
      if !mainDeployed {
        return Done(Approval(WaitingMainDeploy, []));
      }
      var pulls :- q.pulls;
      var found :- SearchPulls(pulls, report.history);
      match found
      case Nobody =>
        r := Done(Approval(Idle, []));
      case Stop(approval) =>
        r := Done(approval);
      case Take(run, pull) =>
        FreshIff(report.history, run.id);
        r := ApproveRun(run, pull);
    }

    /** `promote`: at most one merge request, and only when nothing is open or in doubt. */
    method Promote(q: Promoting) returns (r: Exec<Status>)
      requires Working() && NoneUnresolved(report.history) && report.errors == [] && report.pending == {}
      modifies this`merges
      ensures Working()
      ensures merges == old(merges) + if Merges(q) then 1 else 0
      ensures forall i :: MayPromote(q) && FirstValid(q.pulls.value, i) && Mergeable(q.pulls.value[i]) ==>
                (r.Done? <==> q.pulls.value[i].merged == Done(true))
      ensures r == Done(MergedWaitingDeploy) ==> Merges(q)
      ensures Merges(q) && r.Done? ==> r.value == MergedWaitingDeploy
      ensures r.Done? ==> r.value in PromotionStatuses()
      ensures r == Done(NoValidatedCandidate) <==>
                MayPromote(q) && forall i :: 0 <= i < |q.pulls.value| ==> q.pulls.value[i].valid == Done(false)
    {
      var found :- SearchCandidates(q);
      match found
      case Ends(status) =>
        r := Done(status);
      case Merge(merged) =>
        merges := merges + 1;
        var confirmed :- merged;
        r := if confirmed then Done(MergedWaitingDeploy) else Raised("RuntimeError");
    }

    /** `request_reboot` as the cycle sees it: it may or may not get as far as the command. */
    method Reboot(call: RebootCall) returns (r: Exec<string>)
      requires Working() && NoneUnresolved(report.history) && report.errors == [] && report.pending == {}
      modifies this`reboots
      ensures Working() && r == call.answer
      ensures reboots == old(reboots) + if call.commanded then 1 else 0
    {
      if call.commanded {
        reboots := reboots + 1;
      }
      r := call.answer;
    }

    /** The receipts' part of `cycle`: reconcile, and mark the report with what is left. */
    method ReconcileStep(readings: nat -> Reading, handled: bool) returns (r: Exec<()>)
      requires Working()
      modifies this`report
      ensures Working() && Continues(old(report), report) && report.healthy == old(report).healthy
      ensures r.Done? ==> Marked(report)
      ensures Advanced(old(report.history), report.history)
      // What was found before stays in the report, and a quiet history adds nothing.
      ensures old(report.errors) <= report.errors && old(report.pending) <= report.pending
      ensures report.pending <= old(report.pending) + {CiApproval}
      ensures NoneUnresolved(old(report.history)) ==> r == Done(()) && report == old(report)
      // A reading that fails ends the cycle or, if that is handled, is an error of the report.
      ensures r.Raised? ==> !handled
      ensures (r.Done? && exists i :: 0 <= i < |old(report.history)| &&
                                      !ReconcileOne(old(report.history[i]), readings(i)).Done?) ==>
                handled && |report.errors| > |old(report.errors)|
    {
      hide Advanced, Books, NoneUnresolved, ReconcileOne;
      var outcome := Reconcile(readings);
      if NoneUnresolved(old(report.history)) {
        AdvancedSameLength(old(report.history), report.history);
        QuietStays(old(report.history), report.history, readings);
      }
      match outcome
      case Crashed =>
        r := Crashed;
      case Raised(error) =>
        if handled {
          report := report.(errors := report.errors + ["ci_approval:reconcile:" + error]);
          r := Done(());
        } else {
          r := Raised(error);
        }
      case Done(found) =>
        report := report.(errors := report.errors + found.0,
                          pending := report.pending + if found.1 then {CiApproval} else {});
        r := Done(());
    }

    /** Behind the last gate: approve, or merge if there is nothing to approve. */
    method ApproveOrMerge(enabled: bool, a: Approving, m: Promoting) returns (r: Exec<()>)
      requires Working() && HealthOk(disk) && !report.healthy
      requires report.errors == [] && report.pending == {} && NoneUnresolved(report.history)
      modifies this`report, this`disk, this`approvals, this`merges
      ensures Working() && Grows() && Continues(old(report), report) && !report.healthy
      ensures disk == old(disk) || (Continues(old(report), disk) && HealthOk(disk))
      ensures |approvals| + merges <= |old(approvals)| + old(merges) + 1
      ensures r.Done? ==> Marked(report)
      // Which of the two it is, and when.
      ensures approvals != old(approvals) <==> enabled && ApprovesOne(a, old(report.history))
      ensures merges != old(merges) <==> (enabled ==> NobodyToApprove(a, old(report.history))) && Merges(m)
      ensures r.Done? ==> report.status in ApprovalStatuses() + PromotionStatuses()
    {
      hide ApprovesOne, Books, Merges, NobodyToApprove, NoneUnresolved;
      var approval := Approval(Idle, []);
      if enabled {
        approval :- ApproveCi(a);
      }
      if approval.status == Idle {
        var status :- Promote(m);
        report := report.(status := status);
      } else {
        report := report.(status := approval.status, errors := report.errors + approval.errors,
                          pending := report.pending + if approval.errors == [] then {CiApproval} else {});
      }
      r := Done(());
    }

    /** The chain of gates of `cycle`. All branches but two only name a status, and
        those two are closed to a report that carries any error or wait. */
    method Gates(a: Acting, dispatchErrors: seq<string>) returns (r: Exec<()>)
      requires Working() && HealthOk(disk) && !report.healthy && Marked(report)
      modifies this`report, this`disk, this`approvals, this`merges, this`reboots
      ensures Working() && Grows() && Continues(old(report), report) && !report.healthy
      ensures disk == old(disk) || (Continues(old(report), disk) && HealthOk(disk))
      ensures Writes() <= old(Writes()) + 1
      ensures old(report.errors) != [] || old(report.pending) != {} ==> Writes() == old(Writes()) && disk == old(disk)
      ensures r.Done? ==> Marked(report)
      // Each of the three writes is made exactly behind its own open gates.
      ensures reboots != old(reboots) <==> RebootOpen(old(report), a.gate, a.deployedMain) && a.reboot.commanded
      ensures approvals != old(approvals) <==>
                && AllOpen(old(report), a.gate, a.deployedMain, dispatchErrors)
                && a.gate.enabled && ApprovesOne(a.approving, old(report.history))
      ensures merges != old(merges) <==>
                && AllOpen(old(report), a.gate, a.deployedMain, dispatchErrors)
                && (a.gate.enabled ==> NobodyToApprove(a.approving, old(report.history))) && Merges(a.promoting)
      // And the status names the first gate that is closed.
      ensures r.Done? ==> StatusSays(old(report), a, dispatchErrors, report.status)
    {
      hide AllOpen, ApprovesOne, Books, Merges, NobodyToApprove, RebootOpen, WindowOpen;
      OpenMeans(report, a.gate, a.deployedMain, dispatchErrors);
      var g := a.gate;
      var hold :- g.hold;
      if hold {
        report := report.(status := MaintenanceHold);
        return Done(());
      }
      var marker :- g.marker;
      if marker {
        report := report.(status := RebootPending);
      } else if report.errors != [] {
        report := report.(status := BlockedMissingEvidence);
      } else if report.pending != {} {
        var approval := CiApproval in report.pending;
        report := report.(status := if approval then WaitingCiApproval else WaitingNpmEvidence);
      } else if !g.hostOk {
        report := report.(status := BlockedUnhealthyHost);
      } else if g.rebootRequired && a.deployedMain {
        var action :- Reboot(a.reboot);
        report := report.(status := Rebooting(action));
      } else {
        var window :- g.window;
        if !window {
          report := report.(status := WaitingMaintenanceWindow);
        } else if dispatchErrors != [] {
          report := report.(status := BlockedScanDispatch);
        } else {
          var acted :- ApproveOrMerge(g.enabled, a.approving, a.promoting);
        }
      }
      r := Done(());
    }

    /** The first half of `cycle`: evidence, the npm wait, the receipts. */
    method Observe(now: int, e: Evidence) returns (r: Exec<()>)
      requires Valid()
      modifies this`report
      ensures Valid()
      ensures r.Done? ==> Working() && !report.healthy && Marked(report)
      ensures r.Done? ==> OfCycle(report, now, disk.npmLagSince, Audited(e.audit))
      ensures r.Done? ==>
                && e.errors.Done? && e.audit.Done?
                && ShowsEvidence(report, now, disk.npmLagSince, e)
      ensures r.Done? ==> Advanced(disk.history, report.history)
      ensures NoneUnresolved(disk.history) && e.errors.Done? && e.audit.Done? ==>
                r == Done(()) && report == QuietReport(now, disk, e)
    {
      hide Advanced, NpmStep, NoneUnresolved;
      var errors :- e.errors;
      var audit :- e.audit;
      var (anchor, npm) := NpmStep(now, disk.npmLagSince, audit, e.repairFailed);
      errors := errors + if npm == Missing then ["npm_evidence_unavailable"] else [];
      if !HistoryOk(disk.history) {
        return Raised("ValueError");
      }
      var pending := if npm == Waiting then {NpmEvidence} else {};
      report := Report(now, disk.history, anchor, errors, pending, JustObserved, false);
      r := ReconcileStep(e.readings, e.handled);
    }

    /** A wait for npm evidence that nobody was asked for is an error after all. */
    method SettleNpmWait(requestedThisMain: bool)
      requires Working() && !report.healthy && Marked(report)
      modifies this`report
      ensures Working() && !report.healthy && Marked(report) && Continues(old(report), report)
      ensures NpmEvidence in report.pending ==> requestedThisMain
      ensures NpmEvidence !in old(report.pending) || requestedThisMain ==> report == old(report)
      ensures NpmEvidence in old(report.pending) && !requestedThisMain ==>
                report == old(report).(pending := old(report.pending) - {NpmEvidence},
                                       errors := old(report.errors) + ["npm_evidence_unavailable"])
    {
      if NpmEvidence in report.pending && !requestedThisMain {
        report := report.(pending := report.pending - {NpmEvidence},
                          errors := report.errors + ["npm_evidence_unavailable"]);
      }
    }

    /** The second half of `cycle`, from the observed report on file to the final one in memory. */
    method Act(a: Acting) returns (r: Exec<()>)
      requires Working() && !report.healthy && Marked(report) && disk == report
      modifies this`report, this`disk, this`approvals, this`merges, this`reboots
      ensures Working() && Grows() && Continues(old(report), report)
      ensures Writes() <= old(Writes()) + 1
      ensures Continues(old(report), disk) && HealthOk(disk)
      ensures r.Done? ==> HealthOk(report)
      // The writes, in terms of the observed report.
      ensures WritesAsTold(old(report), a)
      // All is well only with nothing in the way of it.
      ensures r.Done? ==>
                (report.healthy <==>
                  a.deployedMain && report.errors == [] && report.pending == {} && !a.otherBlockers)
      ensures r.Done? ==> a.dispatchErrors.Done? && (a.dispatchErrors.value != [] ==> report.errors != [])
    {
      hide AllOpen, ApprovesOne, Books, Merges, NobodyToApprove, NoneUnresolved, RebootOpen, StatusSays;
      ghost var observed := report;
      var dispatchErrors :- a.dispatchErrors;
      SettleNpmWait(a.requestedThisMain);
      SettledOpens(observed, report, a, dispatchErrors);
      var passed :- Gates(a, dispatchErrors);
      var errors := report.errors + dispatchErrors;
      report := report.(errors := errors,
                        healthy := a.deployedMain && errors == [] && report.pending == {} && !a.otherBlockers);
      r := Done(());
    }

    /** `cycle`, with everything it is answered given from outside. */
    method Cycle(start: Start) returns (r: Exec<()>)
      requires Valid()
      modifies this`report, this`disk, this`approvals, this`merges, this`reboots
      ensures Valid() && Grows()
      ensures Writes() <= old(Writes()) + if Opens(start) then 1 else 0
      ensures disk == old(disk) || OfCycle(disk, start.now, old(disk.npmLagSince), Audited(start.evidence.audit))
      ensures r.Done? ==>
                && Working() && HealthOk(report)
                && OfCycle(report, start.now, old(disk.npmLagSince), Audited(start.evidence.audit))
      ensures r.Done? && report.healthy ==> start.acting.deployedMain && !start.acting.otherBlockers
      // With no receipt in the air, the writes follow from the answers alone.
      ensures Quiet(old(disk), start) ==>
                WritesAsTold(QuietReport(start.now, old(disk), start.evidence), start.acting)
    {
      hide AllOpen, ApprovesOne, Books, Merges, NobodyToApprove, NoneUnresolved, RebootOpen, ShowsEvidence;
      var observed :- Observe(start.now, start.evidence);
      var written :- WriteReport(start.observed);
      OpensIfAny(report, start);
      r := Act(start.acting);
    }

    /** `main`: one process, its failure handler included. */
    method RunOnce(start: Start)
      requires Valid()
      modifies this`report, this`disk, this`approvals, this`merges, this`reboots
      ensures Valid() && Grows()
      ensures Writes() <= old(Writes()) + if Opens(start) then 1 else 0
      ensures disk.npmLagSince == old(disk.npmLagSince) ||
              OfCycle(disk, start.now, old(disk.npmLagSince), Audited(start.evidence.audit))
      ensures disk != old(disk) && NpmEvidence in disk.pending ==>
                OfCycle(disk, start.now, old(disk.npmLagSince), Audited(start.evidence.audit))
    {
      var previous := disk;
      var outcome := Cycle(start);
      match outcome {
        case Crashed =>
        case Raised(error) =>
          report := Failed(previous, disk, start.now, error);
          var written := WriteReport(start.final);
        case Done(_) =>
          var written := WriteReport(start.final);
      }
    }

    /** One process, entered in the log. */
    method Process(start: Start)
      requires Valid() && Logged()
      modifies this
      ensures Valid() && Logged() && Grows()
      ensures Writes() <= old(Writes()) + if Opens(start) then 1 else 0
      ensures log == old(log) + [NpmWait.Process(
                start.now, old(disk.npmLagSince), disk.npmLagSince,
                disk != old(disk) && NpmEvidence in disk.pending, Audited(start.evidence.audit))]
    {
      ghost var before := disk;
      RunOnce(start);
      log := log + [NpmWait.Process(start.now, before.npmLagSince, disk.npmLagSince,
                                    disk != before && NpmEvidence in disk.pending, Audited(start.evidence.audit))];
    }

    /** Any number of processes, each of which may raise or crash anywhere, given all
        that each of them is answered. */
    method Runs(starts: seq<Start>)
      requires Valid() && Logged()
      modifies this
      ensures Valid() && Logged() && Grows()
      // No run, attempt and commit is ever approved twice, and what was sent stays on record.
      ensures forall id :: approvals[id] <= 1
      ensures forall id :: id in approvals ==> Recorded(disk.history, id)
      // The file is accepted by the next process and never holds two receipts in the air.
      ensures HistoryOk(disk.history) && DistinctIds(disk.history) && OneUnresolved(disk.history)
      ensures HealthOk(disk) && WaitOk(disk)
      // At most one of the three writes per process, and none by a process that finds the
      // host held, unwell, or without its evidence.
      ensures Writes() <= old(Writes()) + CountOpen(starts)
      // Every process is in the log, and without an audit of the current main no two
      // reports of a wait are three hours apart.
      ensures LogOf(starts, log, |old(log)|) && old(log) <= log
      ensures WaitsStayShort(starts, log, |old(log)|)
    {
      hide Books, Chained, HealthOk, Opens, WaitOk;
      ghost var n := |log|;
      for i := 0 to |starts|
        invariant Valid() && Logged() && Grows()
        invariant Writes() <= old(Writes()) + CountOpen(starts[..i])
        invariant old(log) <= log && LogOf(starts[..i], log, n)
      {
        assert starts[..i + 1][..i] == starts[..i];
        Process(starts[i]);
      }
      assert starts[..|starts|] == starts;
      LoggedWaitsAreShort(starts, log, n);
      BooksMean(disk.history, approvals);
    }
  }

  /** The wait that a cycle has just recorded or cleared survives the failure
      handler only when the handler's older copy happens to agree: the anchor was
      stored before and is still wanted, or was not stored and is not. */
  lemma FailureKeepsAnchorIff(
    previous: Report, journal: Report, now: int, audit: Audit, repairFailed: bool, error: string)
    requires journal.npmLagSince == NpmStep(now, previous.npmLagSince, audit, repairFailed).0
    ensures Failed(previous, journal, now, error).npmLagSince == journal.npmLagSince <==>
            (previous.npmLagSince.NoAnchor? <==> OfCurrentMain(audit))
  {
  }

  /** So a first wait whose cycle fails starts over, at any later time. */
  lemma FailedFirstWaitStartsOver(previous: Report, journal: Report, first: int, later: int, error: string)
    requires previous.npmLagSince == NoAnchor
    requires journal.npmLagSince == NpmStep(first, NoAnchor, Audit(false, true, true), false).0
    ensures NpmStep(first, NoAnchor, Audit(false, true, true), false) == (At(first), Waiting)
    ensures var after := Failed(previous, journal, first, error);
            NpmStep(later, after.npmLagSince, Audit(false, true, true), false) == (At(later), Waiting)
  {
  }
}
