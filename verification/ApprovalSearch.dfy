/** Which run an approval request is for, and which pull request is merged: the nested
    searches of `approve_ci` and `promote` over what GitHub answers. */
module ApprovalSearch {
  import opened CiReceipts
  import opened Outcomes

  /** The status of the cycle, as its report names it. */
  datatype Status =
    | NoStatus | JustObserved | RoutineFailed
    | MaintenanceHold | RebootPending | BlockedMissingEvidence | WaitingNpmEvidence | BlockedUnhealthyHost
    | Rebooting(action: string) | WaitingMaintenanceWindow | BlockedScanDispatch
    | Idle | WaitingMainDeploy | WaitingCiApproval | BlockedCiApproval | WaitingSecurityTests | BaselineChangedOrHold
    | BlockedBranchProtection | WaitingPipeline | WaitingBranchRules | MergedWaitingDeploy | NoValidatedCandidate

  datatype Approval = Approval(status: Status, errors: seq<string>)

  // ------------------------------------------------------------------ approvals

  /** One listed run: its identity, whether it is bound to pull request and workflow, and
      what is answered on the way from its proof to the outcome of the request. */
  datatype Run = Run(
    id: Identity, bound: Exec<bool>, proof: Exec<bool>, stillBound: Exec<bool>, intent: Writing,
    ready: Exec<bool>, withdrawn: Writing, sent: Exec<bool>, handled: bool, closed: Writing)

  /** One of the workflows that may be approved, with its runs that ask for it. */
  datatype Flow = Flow(trusted: Exec<bool>, runs: Exec<seq<Run>>)

  type PullNumber = n: int | 0 < n witness 1

  datatype Pull = Pull(number: PullNumber, eligible: Exec<bool>, flows: seq<Flow>)

  datatype Approving = Approving(mainDeployed: Exec<bool>, pulls: Exec<seq<Pull>>)

  /** What the search comes to: nobody to approve, an end without a request, or a run. */
  datatype Found = Nobody | Stop(approval: Approval) | Take(run: Run, pull: PullNumber)

  /** The history closes the identity for good. */
  predicate Closed(h: seq<Receipt>, id: Identity) {
    exists k :: 0 <= k < |h| && h[k].id == id && h[k].state in {Retired, Superseded}
  }

  /** The search goes on behind this run. */
  predicate PassesRun(c: Run, h: seq<Receipt>) {
    c.bound == Done(false) || (c.bound == Done(true) && IdentityOk(c.id) && Closed(h, c.id))
  }

  predicate PassesFlow(f: Flow, h: seq<Receipt>) {
    f.trusted == Done(true) && f.runs.Done? && forall i :: 0 <= i < |f.runs.value| ==> PassesRun(f.runs.value[i], h)
  }

  predicate PassesPull(p: Pull, h: seq<Receipt>) {
    p.eligible == Done(false) ||
    (p.eligible == Done(true) && forall w :: 0 <= w < |p.flows| ==> PassesFlow(p.flows[w], h))
  }

  /** The search comes as far as this run, and no further. */
  predicate ComesTo(pulls: seq<Pull>, h: seq<Receipt>, p: int, w: int, i: int) {
    && 0 <= p < |pulls| && (forall q :: 0 <= q < p ==> PassesPull(pulls[q], h))
    && pulls[p].eligible == Done(true) && ComesToFlow(pulls[p].flows, h, w, i)
  }

  predicate ComesToFlow(flows: seq<Flow>, h: seq<Receipt>, w: int, i: int) {
    && 0 <= w < |flows| && (forall v :: 0 <= v < w ==> PassesFlow(flows[v], h))
    && flows[w].trusted == Done(true) && flows[w].runs.Done? && ComesToRun(flows[w].runs.value, h, i)
  }

  predicate ComesToRun(runs: seq<Run>, h: seq<Receipt>, i: int) {
    && 0 <= i < |runs| && (forall j :: 0 <= j < i ==> PassesRun(runs[j], h))
    && runs[i].bound == Done(true) && IdentityOk(runs[i].id) && !Closed(h, runs[i].id)
  }

  /** A run that may be approved: nothing is on record for it, or only that it was not sent. */
  predicate Fresh(h: seq<Receipt>, id: Identity) {
    forall k :: 0 <= k < |h| && h[k].id == id ==> h[k].state == NotSent
  }

  /** The loop over the runs of a workflow. */
  method SearchRuns(runs: seq<Run>, h: seq<Receipt>, pull: PullNumber) returns (r: Exec<Found>)
    ensures r == Done(Nobody) <==> forall i :: 0 <= i < |runs| ==> PassesRun(runs[i], h)
    ensures forall i :: ComesToRun(runs, h, i) ==>
              r == Done(if Fresh(h, runs[i].id) then Take(runs[i], pull) else Stop(Approval(WaitingCiApproval, [])))
    ensures r.Done? && r.value.Take? ==>
              && Fresh(h, r.value.run.id) && IdentityOk(r.value.run.id) && r.value.pull == pull
              && exists i :: ComesToRun(runs, h, i) && r.value.run == runs[i]
    ensures r.Done? && r.value.Stop? ==>
              && r.value == Stop(Approval(WaitingCiApproval, []))
              && exists i :: ComesToRun(runs, h, i) && !Fresh(h, runs[i].id)
  {
    for i := 0 to |runs|
      invariant forall j :: 0 <= j < i ==> PassesRun(runs[j], h)
    {
      hide Fresh;
      FreshIff(h, runs[i].id);
      var bound :- runs[i].bound;
      if !bound {
        continue;
      }
      if !IdentityOk(runs[i].id) {
        return Raised("ValueError");
      }
      if exists k :: 0 <= k < |h| && h[k].id == runs[i].id && h[k].state in {Retired, Superseded} {
        continue;
      }
      if Recorded(h, runs[i].id) {
        assert ComesToRun(runs, h, i);
        return Done(Stop(Approval(WaitingCiApproval, [])));
      }
      assert ComesToRun(runs, h, i);
      return Done(Take(runs[i], pull));
    }
    r := Done(Nobody);
  }

  lemma FreshIff(h: seq<Receipt>, id: Identity)
    ensures Fresh(h, id) <==> !Recorded(h, id)
  {
  }

  /** The loop over the workflows of a pull request. */
  method SearchFlows(flows: seq<Flow>, h: seq<Receipt>, pull: PullNumber) returns (r: Exec<Found>)
    ensures r == Done(Nobody) <==> forall w :: 0 <= w < |flows| ==> PassesFlow(flows[w], h)
    ensures forall w, i :: ComesToFlow(flows, h, w, i) ==>
              var c := flows[w].runs.value[i];
              r == Done(if Fresh(h, c.id) then Take(c, pull) else Stop(Approval(WaitingCiApproval, [])))
    ensures r.Done? && r.value.Take? ==>
              && Fresh(h, r.value.run.id) && IdentityOk(r.value.run.id) && r.value.pull == pull
              && exists w, i :: ComesToFlow(flows, h, w, i) && r.value.run == flows[w].runs.value[i]
    ensures r.Done? && r.value.Stop? ==>
              || r.value == Stop(Approval(WaitingCiApproval, []))
              || (&& r.value == Stop(Approval(BlockedCiApproval, ["ci_approval:untrusted_workflow"]))
                  && Distrusts(flows, h))
    ensures Distrusts(flows, h) ==> r == Done(Stop(Approval(BlockedCiApproval, ["ci_approval:untrusted_workflow"])))
  {
    for w := 0 to |flows|
      invariant forall v :: 0 <= v < w ==> PassesFlow(flows[v], h)
    {
      hide ComesToRun, Fresh, PassesRun;
      var trusted :- flows[w].trusted;
      if !trusted {
        return Done(Stop(Approval(BlockedCiApproval, ["ci_approval:untrusted_workflow"])));
      }
      var runs :- flows[w].runs;
      var found := SearchRuns(runs, h, pull);
      if found != Done(Nobody) {
        return found;
      }
    }
    r := Done(Nobody);
  }

  /** The first workflow that the search does not pass is not trusted. */
  predicate Distrusts(flows: seq<Flow>, h: seq<Receipt>) {
    exists w :: 0 <= w < |flows| && flows[w].trusted == Done(false) &&
                forall v :: 0 <= v < w ==> PassesFlow(flows[v], h)
  }

  lemma DistrustedIsNotPassed(flows: seq<Flow>, h: seq<Receipt>)
    ensures Distrusts(flows, h) ==> !(forall w :: 0 <= w < |flows| ==> PassesFlow(flows[w], h))
  {
  }

  /** The loop over the open pull requests. */
  method SearchPulls(pulls: seq<Pull>, h: seq<Receipt>) returns (r: Exec<Found>)
    ensures r == Done(Nobody) <==> forall p :: 0 <= p < |pulls| ==> PassesPull(pulls[p], h)
    ensures forall p, w, i :: ComesTo(pulls, h, p, w, i) ==>
              var c := pulls[p].flows[w].runs.value[i];
              r == Done(if Fresh(h, c.id) then Take(c, pulls[p].number) else Stop(Approval(WaitingCiApproval, [])))
    ensures r.Done? && r.value.Take? ==>
              && Fresh(h, r.value.run.id) && IdentityOk(r.value.run.id)
              && exists p, w, i :: ComesTo(pulls, h, p, w, i) && r.value.run == pulls[p].flows[w].runs.value[i]
                                   && r.value.pull == pulls[p].number
    ensures r.Done? && r.value.Stop? ==>
              || r.value == Stop(Approval(WaitingCiApproval, []))
              || r.value == Stop(Approval(BlockedCiApproval, ["ci_approval:untrusted_workflow"]))
    ensures forall p :: 0 <= p < |pulls| && (forall q :: 0 <= q < p ==> PassesPull(pulls[q], h))
                        && pulls[p].eligible == Done(true) && Distrusts(pulls[p].flows, h) ==>
              r == Done(Stop(Approval(BlockedCiApproval, ["ci_approval:untrusted_workflow"])))
  {
    for p := 0 to |pulls|
      invariant forall q :: 0 <= q < p ==> PassesPull(pulls[q], h)
    {
      hide ComesToFlow, Fresh, PassesFlow;
      DistrustedIsNotPassed(pulls[p].flows, h);
      var eligible :- pulls[p].eligible;
      if !eligible {
        continue;
      }
      var found := SearchFlows(pulls[p].flows, h, pulls[p].number);
      if found != Done(Nobody) {
        return found;
      }
    }
    r := Done(Nobody);
  }

  // --------------------------------------------------------------------- merges

  /** One open pull request as `promote` looks at it. */
  datatype Candidate = Candidate(
    valid: Exec<bool>, proof: Exec<bool>, rules: Exec<bool>, baseline: Exec<bool>, merged: Exec<bool>)

  datatype Promoting = Promoting(
    mainDeployed: Exec<bool>, protected: Exec<bool>, pipelineIdle: Exec<bool>, pulls: Exec<seq<Candidate>>)

  /** Main is what is deployed, the branch is protected, and no deployment is under way. */
  predicate MayPromote(q: Promoting) {
    q.mainDeployed == Done(true) && q.protected == Done(true) && q.pipelineIdle == Done(true) && q.pulls.Done?
  }

  /** The first validated candidate. */
  predicate FirstValid(pulls: seq<Candidate>, i: int) {
    0 <= i < |pulls| && pulls[i].valid == Done(true) && forall j :: 0 <= j < i ==> pulls[j].valid == Done(false)
  }

  /** Its tests have passed, the branch rules are met, and main is still the same. */
  predicate Mergeable(c: Candidate) {
    c.proof == Done(true) && c.rules == Done(true) && c.baseline == Done(true)
  }

  ghost predicate Merges(q: Promoting) {
    MayPromote(q) && exists i :: FirstValid(q.pulls.value, i) && Mergeable(q.pulls.value[i])
  }

  /** What `promote` comes to without a merge, or the answer to it. */
  datatype Promotion = Ends(status: Status) | Merge(merged: Exec<bool>)

  /** The reads of `promote`, up to its one merge request. */
  method SearchCandidates(q: Promoting) returns (r: Exec<Promotion>)
    ensures r.Done? && r.value.Merge? <==> Merges(q)
    ensures forall i :: MayPromote(q) && FirstValid(q.pulls.value, i) && Mergeable(q.pulls.value[i]) ==>
              r == Done(Merge(q.pulls.value[i].merged))
    ensures r.Done? && r.value.Ends? ==>
              r.value.status in {WaitingMainDeploy, BlockedBranchProtection, WaitingPipeline, NoValidatedCandidate,
                                 WaitingSecurityTests, WaitingBranchRules, BaselineChangedOrHold}
    ensures r == Done(Ends(WaitingMainDeploy)) <==> q.mainDeployed == Done(false)
    ensures r == Done(Ends(BlockedBranchProtection)) <==> q.mainDeployed == Done(true) && q.protected == Done(false)
    ensures r == Done(Ends(WaitingPipeline)) <==>
              q.mainDeployed == Done(true) && q.protected == Done(true) && q.pipelineIdle == Done(false)
    ensures r == Done(Ends(NoValidatedCandidate)) <==>
              MayPromote(q) && forall i :: 0 <= i < |q.pulls.value| ==> q.pulls.value[i].valid == Done(false)
    ensures r == Done(Ends(WaitingSecurityTests)) <==>
              MayPromote(q) && exists i :: FirstValid(q.pulls.value, i) && q.pulls.value[i].proof == Done(false)
    ensures r == Done(Ends(WaitingBranchRules)) <==>
              MayPromote(q) && exists i :: FirstValid(q.pulls.value, i) && q.pulls.value[i].proof == Done(true)
                                           && q.pulls.value[i].rules == Done(false)
    ensures r == Done(Ends(BaselineChangedOrHold)) <==>
              MayPromote(q) && exists i :: FirstValid(q.pulls.value, i) && q.pulls.value[i].proof == Done(true)
                                           && q.pulls.value[i].rules == Done(true)
                                           && q.pulls.value[i].baseline == Done(false)
  {
    var mainDeployed :- q.mainDeployed;
    if !mainDeployed {
      return Done(Ends(WaitingMainDeploy));
    }
    var protected :- q.protected;
    if !protected {
      return Done(Ends(BlockedBranchProtection));
    }
    var idle :- q.pipelineIdle;
    if !idle {
      return Done(Ends(WaitingPipeline));
    }
    var pulls :- q.pulls;
    for i := 0 to |pulls|
      invariant forall j :: 0 <= j < i ==> pulls[j].valid == Done(false)
    {
      var valid :- pulls[i].valid;
      if !valid {
        continue;
      }
      assert FirstValid(pulls, i);
      var proof :- pulls[i].proof;
      if !proof {
        return Done(Ends(WaitingSecurityTests));
      }
      var rules :- pulls[i].rules;
      if !rules {
        return Done(Ends(WaitingBranchRules));
      }
      var baseline :- pulls[i].baseline;
      if !baseline {
        return Done(Ends(BaselineChangedOrHold));
      }
      return Done(Merge(pulls[i].merged));
    }
    r := Done(Ends(NoValidatedCandidate));
  }
}
