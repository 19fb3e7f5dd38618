/** Receipts of CI approval requests: their life cycle as values. A receipt is
    written before the request it stands for and is never taken back afterwards. */
module CiReceipts {
  import opened Outcomes
  import opened Text

  datatype Identity = Identity(runId: int, attempt: int, headSha: string)

  datatype ReceiptState = Intent | Accepted | Unknown | Observed | Superseded | Retired | NotSent

  datatype Receipt = Receipt(id: Identity, pullRequest: int, state: ReceiptState)

  datatype PullView = PullView(number: int, closed: bool, headSha: Option<string>)

  datatype RunView = RunView(id: Identity, status: string, conclusion: string)

  /** What the reconciler is told about one receipt, in the order it asks. */
  datatype Reading = Reading(pull: Exec<PullView>, run: Exec<RunView>, replacement: Exec<Option<int>>)

  /** The receipt afterwards, and the mark the receipt leaves on the cycle. */
  datatype Mark = Clear | Pending | Blocked(error: string)

  datatype Verdict = Verdict(receipt: Receipt, mark: Mark)

  const HISTORY_LIMIT := 100

  /** `_approval_identity` */
  predicate IdentityOk(id: Identity) {
    id.runId > 0 && id.attempt > 0 && ShaOk(id.headSha)
  }

  /** `_requires_approval`: the API reports it as a conclusion, its filter as a status. */
  predicate RequiresApproval(run: RunView) {
    run.conclusion == "action_required" || run.status == "action_required"
  }

  predicate Unresolved(r: Receipt) {
    r.state in {Intent, Accepted, Unknown}
  }

  predicate KnownStatus(status: string) {
    status in {"queued", "requested", "pending", "waiting", "in_progress", "completed"}
  }

  /** The evidence on which an unresolved receipt may be closed: its pull request
      is gone or has moved on, or a later run stands in for this one, or this run
      passed. */
  predicate EvidenceOfEnd(e: Receipt, q: Reading) {
    q.pull.Done? &&
    (|| q.pull.value.closed
     || (q.pull.value.headSha.Some? && q.pull.value.headSha.value != e.id.headSha)
     || (q.run.Done? && q.replacement.Done? &&
         (|| q.replacement.value.Some?
          || (RequiresApproval(q.run.value) && q.run.value.id.attempt > e.id.attempt)
          || (!RequiresApproval(q.run.value) && q.run.value.status == "completed" &&
              q.run.value.conclusion == "success" && q.run.value.id.attempt >= e.id.attempt))))
  }

  /** The body of the loop of `reconcile_ci_approvals`. A receipt is either settled,
      on evidence, or it marks the cycle; it never becomes free to be sent again,
      and a settled one is not looked at. */
  function ReconcileOne(e: Receipt, q: Reading): (r: Exec<Verdict>)
    ensures r.Done? ==>
              var v := r.value;
              && v.receipt == e.(state := v.receipt.state)
              && (v.mark.Clear? <==> !Unresolved(v.receipt))
              && (v.receipt.state == NotSent <==> e.state == NotSent)
              && (!Unresolved(e) ==> v.receipt == e)
              && (Unresolved(e) && !Unresolved(v.receipt) ==> EvidenceOfEnd(e, q))
              && (Unresolved(v.receipt) ==> v.receipt == e)
  {
    if !Unresolved(e) then Done(Verdict(e, Clear))
    else
      var pull :- q.pull;
      if pull.number != e.pullRequest then Raised("ValueError")
      else if pull.closed then Done(Verdict(e.(state := Retired), Clear))
      else if pull.headSha.Some? && ShaOk(pull.headSha.value) && pull.headSha.value != e.id.headSha then
        Done(Verdict(e.(state := Retired), Clear))
      else
        var run :- q.run;
        if !IdentityOk(run.id) || run.id.runId != e.id.runId || run.id.headSha != e.id.headSha then Raised("ValueError")
        else
          var replacement :- q.replacement;
          if replacement.Some? then Done(Verdict(e.(state := Retired), Clear))
          else if run.id.attempt > e.id.attempt && RequiresApproval(run) then
            Done(Verdict(e.(state := Superseded), Clear))
          else if run.id.attempt < e.id.attempt then Raised("ValueError")
          else if !RequiresApproval(run) then
            if !KnownStatus(run.status) then Raised("ValueError")
            else if run.status != "completed" then Done(Verdict(e, Pending))
            else if run.conclusion != "success" then Done(Verdict(e, Blocked("ci_approval:run_not_successful")))
            else
              Done(Verdict(e.(state := if run.id.attempt == e.id.attempt then Observed else Superseded), Clear))
          else if e.state == Accepted then Done(Verdict(e, Pending))
          else Done(Verdict(e, Blocked("ci_approval:outcome_unconfirmed")))
  }

  // -------------------------------------- what each reading makes of a receipt

  /** The pull request is the one of the receipt. */
  predicate PullRead(e: Receipt, q: Reading) {
    q.pull.Done? && q.pull.value.number == e.pullRequest
  }

  /** It is closed, or its head is another commit now. */
  predicate PullMoved(e: Receipt, q: Reading) {
    PullRead(e, q) &&
    (q.pull.value.closed ||
     match q.pull.value.headSha
     case None => false
     case Some(sha) => ShaOk(sha) && sha != e.id.headSha)
  }

  /** The pull request stands as it was, and the run is the one of the receipt. */
  predicate RunRead(e: Receipt, q: Reading) {
    && PullRead(e, q) && !PullMoved(e, q) && q.run.Done?
    && q.run.value.id.runId == e.id.runId && q.run.value.id.headSha == e.id.headSha
    && q.run.value.id.runId >= 1 && q.run.value.id.attempt >= 1 && ShaOk(q.run.value.id.headSha)
    && q.replacement.Done?
  }

  /** The run still asks for an approval, or is past that. */
  datatype Stage = Asking | Ended(passed: bool) | UnderWay | Strange

  function StageOf(run: RunView): Stage {
    if run.status == "action_required" then Asking
    else if run.conclusion == "action_required" then Asking
    else if run.status == "completed" then Ended(run.conclusion == "success")
    else if run.status in {"queued", "requested", "pending", "waiting", "in_progress"} then UnderWay
    else Strange
  }

  /** With no newer run in its place, the same run at this stage, in this attempt or a later one. */
  predicate RunAt(e: Receipt, q: Reading, stage: Stage, later: bool) {
    && RunRead(e, q) && q.replacement.value.None? && StageOf(q.run.value) == stage
    && if later then q.run.value.id.attempt > e.id.attempt else q.run.value.id.attempt == e.id.attempt
  }

  /** Every way in which an unresolved receipt can be read. */
  lemma ReconcileMeans(e: Receipt, q: Reading)
    requires Unresolved(e)
    ensures ReconcileOne(e, q) == Done(Verdict(e.(state := Retired), Clear)) <==>
              PullMoved(e, q) || (RunRead(e, q) && q.replacement.value.Some?)
    ensures ReconcileOne(e, q) == Done(Verdict(e.(state := Observed), Clear)) <==> RunAt(e, q, Ended(true), false)
    ensures ReconcileOne(e, q) == Done(Verdict(e.(state := Superseded), Clear)) <==>
              RunAt(e, q, Asking, true) || RunAt(e, q, Ended(true), true)
    ensures ReconcileOne(e, q) == Done(Verdict(e, Pending)) <==>
              || RunAt(e, q, UnderWay, false) || RunAt(e, q, UnderWay, true)
              || (e.state == Accepted && RunAt(e, q, Asking, false))
    ensures ReconcileOne(e, q) == Done(Verdict(e, Blocked("ci_approval:outcome_unconfirmed"))) <==>
              e.state != Accepted && RunAt(e, q, Asking, false)
    ensures ReconcileOne(e, q) == Done(Verdict(e, Blocked("ci_approval:run_not_successful"))) <==>
              RunAt(e, q, Ended(false), false) || RunAt(e, q, Ended(false), true)
  {
    assert "ci_approval:outcome_unconfirmed"[12] == 'o' && "ci_approval:run_not_successful"[12] == 'r';
  }

  // -------------------------------------------------------------- histories

  /** What `ci_approval_history` accepts. */
  predicate HistoryOk(h: seq<Receipt>) {
    && |h| <= HISTORY_LIMIT
    && forall i :: 0 <= i < |h| ==> IdentityOk(h[i].id) && h[i].pullRequest > 0
  }

  /** At most a hundred receipts, each of a run, an attempt, a full commit id and a pull request. */
  lemma HistoryOkMeans(h: seq<Receipt>)
    ensures HistoryOk(h) <==>
              && |h| < 101
              && forall r :: r in h ==>
                   r.id.runId >= 1 && r.id.attempt >= 1 && ShaOk(r.id.headSha) && r.pullRequest >= 1
  {
    if HistoryOk(h) {
      forall r | r in h ensures IdentityOk(r.id) && r.pullRequest > 0 {
        var i :| 0 <= i < |h| && h[i] == r;
      }
    } else if forall r :: r in h ==> r.id.runId >= 1 && r.id.attempt >= 1 && ShaOk(r.id.headSha) && r.pullRequest >= 1 {
      assert forall i :: 0 <= i < |h| ==> h[i] in h;
    }
  }

  predicate DistinctIds(h: seq<Receipt>) {
    forall i, j :: 0 <= i < j < |h| ==> h[i].id != h[j].id
  }

  predicate NoneUnresolved(h: seq<Receipt>) {
    forall i :: 0 <= i < |h| ==> !Unresolved(h[i])
  }

  predicate OneUnresolved(h: seq<Receipt>) {
    forall i, j :: 0 <= i < j < |h| ==> !(Unresolved(h[i]) && Unresolved(h[j]))
  }

  /** The history shows the identity in a state other than `not_sent`. */
  predicate Recorded(h: seq<Receipt>, id: Identity) {
    exists i :: 0 <= i < |h| && h[i].id == id && h[i].state != NotSent
  }

  /** A history that accounts for every approval request ever made. */
  ghost predicate Books(h: seq<Receipt>, approvals: multiset<Identity>) {
    && HistoryOk(h) && DistinctIds(h) && OneUnresolved(h)
    && forall id :: id in approvals ==> approvals[id] == 1 && Recorded(h, id)
  }

  /** What reconciling may do to a history. */
  predicate Advanced(h: seq<Receipt>, h': seq<Receipt>) {
    && |h'| == |h|
    && forall i :: 0 <= i < |h| ==>
         && h'[i] == h[i].(state := h'[i].state)
         && (h'[i].state == NotSent <==> h[i].state == NotSent)
         && (Unresolved(h'[i]) ==> Unresolved(h[i]))
  }

  lemma AdvancedKeepsBooks(h: seq<Receipt>, h': seq<Receipt>, approvals: multiset<Identity>)
    requires Books(h, approvals) && Advanced(h, h')
    ensures Books(h', approvals)
  {
    forall id | id in approvals ensures Recorded(h', id) {
      var i :| 0 <= i < |h| && h[i].id == id && h[i].state != NotSent;
      assert h'[i].id == id;
    }
  }

  /** The history without the receipts of this identity that were never sent. */
  function Without(h: seq<Receipt>, id: Identity): (kept: seq<Receipt>)
    ensures |kept| <= |h|
    ensures forall r :: r in kept <==> r in h && !(r.id == id && r.state == NotSent)
  {
    if h == [] then []
    else (if h[0].id == id && h[0].state == NotSent then [] else [h[0]]) + Without(h[1..], id)
  }

  lemma {:induction false} WithoutKeepsOrder(h: seq<Receipt>, id: Identity)
    requires DistinctIds(h) && NoneUnresolved(h)
    ensures DistinctIds(Without(h, id)) && NoneUnresolved(Without(h, id))
  {
    if h != [] {
      var rest := h[1..];
      assert forall i :: 0 <= i < |rest| ==> rest[i] == h[i + 1];
      WithoutKeepsOrder(rest, id);
      var kept := Without(rest, id);
      assert forall i :: 0 <= i < |kept| ==> kept[i] in rest;
    }
  }

  function Intended(h: seq<Receipt>, id: Identity, pull: int): seq<Receipt> {
    Without(h, id) + [Receipt(id, pull, Intent)]
  }

  /** Recording an intent for an identity nothing was ever sent for. */
  lemma IntentKeepsBooks(h: seq<Receipt>, id: Identity, pull: int, approvals: multiset<Identity>)
    requires Books(h, approvals) && NoneUnresolved(h) && |h| < HISTORY_LIMIT
    requires !Recorded(h, id) && IdentityOk(id) && pull > 0
    ensures id !in approvals
    ensures Books(Intended(h, id, pull), approvals)
  {
    hide IdentityOk;
    var kept := Without(h, id);
    WithoutKeepsOrder(h, id);
    var h' := Intended(h, id, pull);
    assert forall i :: 0 <= i < |kept| ==> h'[i] == kept[i] && kept[i] in h && kept[i].id != id;
    forall k | k in approvals ensures Recorded(h', k) {
      var i :| 0 <= i < |h| && h[i].id == k && h[i].state != NotSent;
      assert h[i] in kept;
      var j :| 0 <= j < |kept| && kept[j] == h[i];
      assert h'[j].id == k;
    }
  }

  /** Closing the newest receipt. It may be marked unsent only if nothing was sent. */
  lemma LastKeepsBooks(h: seq<Receipt>, state: ReceiptState, approvals: multiset<Identity>)
    requires Books(h, approvals) && |h| > 0 && Unresolved(h[|h| - 1])
    requires state == NotSent ==> h[|h| - 1].id !in approvals
    ensures Books(h[|h| - 1 := h[|h| - 1].(state := state)], approvals)
  {
    var last := |h| - 1;
    var h' := h[last := h[last].(state := state)];
    forall k | k in approvals ensures Recorded(h', k) {
      var i :| 0 <= i < |h| && h[i].id == k && h[i].state != NotSent;
      assert h'[i].id == k;
    }
  }

  /** Sending, once the identity is on record and nothing was sent for it before. */
  lemma SendingKeepsBooks(h: seq<Receipt>, id: Identity, approvals: multiset<Identity>)
    requires Books(h, approvals) && id !in approvals && Recorded(h, id)
    ensures Books(h, approvals + multiset{id})
  {
  }
}
