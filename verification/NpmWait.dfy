/** The bounded wait for an npm audit of the current main. */
module NpmWait {

  /** The stored start of the wait; a stored value that is no timestamp stays as it is. */
  datatype Anchor = NoAnchor | At(time: int) | Malformed

  /** The audit file: unusable, or describing this main or an earlier one. */
  datatype Audit = Unreadable | Audit(current: bool, revisionOk: bool, mergeable: bool)

  datatype Outcome = Merged | Waiting | Missing

  const GRACE := 3 * 3600

  predicate WithinGrace(anchor: Anchor, now: int) {
    anchor.At? && 0 <= now - anchor.time < GRACE
  }

  predicate OfCurrentMain(audit: Audit) {
    audit.Audit? && audit.current
  }

  /** The npm part of `cycle`: the anchor it keeps and what it concludes. Only an
      audit of the current main clears an anchor, and a wait is only ever reported
      within the grace period of the anchor kept beside it. */
  function NpmStep(now: int, stored: Anchor, audit: Audit, repairFailed: bool): (r: (Anchor, Outcome))
    ensures r.0.NoAnchor? <==> OfCurrentMain(audit)
    ensures !stored.NoAnchor? && !OfCurrentMain(audit) ==> r.0 == stored
    ensures stored.NoAnchor? && !OfCurrentMain(audit) ==> r.0 == At(now)
    ensures r.1 == Merged <==> audit.Audit? && audit.current && audit.mergeable
    ensures r.1 == Waiting <==>
              && audit.Audit? && !audit.current && audit.revisionOk && audit.mergeable && !repairFailed
              && r.0.At? && r.0.time <= now < r.0.time + 180 * 60
  {
    var since := if stored.NoAnchor? then At(now) else stored;
    if audit.Unreadable? then (since, Missing)
    else if audit.current then (NoAnchor, if audit.mergeable then Merged else Missing)
    else if audit.revisionOk && WithinGrace(since, now) && !repairFailed && audit.mergeable then (since, Waiting)
    else (since, Missing)
  }

  /** One run of the controller as the durable reports around it show it. */
  datatype Process = Process(now: int, before: Anchor, after: Anchor, reportedWait: bool, audited: bool)

  predicate ProcessOk(p: Process) {
    && (p.reportedWait ==> WithinGrace(p.after, p.now) && !p.audited)
    && (!p.audited && !p.before.NoAnchor? ==> p.after == p.before)
  }

  /** Every process starts from the anchor that the previous one left in the file. */
  predicate Chained(log: seq<Process>) {
    && (forall i :: 0 <= i < |log| ==> ProcessOk(log[i]))
    && (forall i :: 0 < i < |log| ==> log[i].before == log[i - 1].after)
  }

  /** Main may move any number of times: as long as no audit of the current main
      arrives, the first and the last report of the wait are less than three
      hours apart, whatever failed or crashed in between. */
  lemma {:induction false} WaitIsBounded(log: seq<Process>, i: nat, j: nat)
    requires Chained(log) && i <= j < |log|
    requires log[i].reportedWait
    requires forall k :: i < k <= j ==> !log[k].audited
    ensures log[j].after == log[i].after
    ensures log[j].reportedWait ==> log[j].now - log[i].now < 180 * 60
    decreases j - i
  {
    if i < j {
      WaitIsBounded(log, i, j - 1);
      assert ProcessOk(log[j]) && log[j].before == log[j - 1].after;
    }
    assert ProcessOk(log[i]) && ProcessOk(log[j]);
  }
}
