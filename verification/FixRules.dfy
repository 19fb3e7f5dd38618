/** What the dependency fixer comes to, told from the first manifests and the list of
    advisories alone: where every version ends, which advisories are reported as
    applied, why the others are not, and which candidates are accepted. */
module FixRules {
  import opened Dependencies
  import opened Outcomes
  import opened Text

  /** The first component in which two versions differ decides. */
  predicate Earlier(a: Version, b: Version) {
    if a.major != b.major then a.major < b.major
    else if a.minor != b.minor then a.minor < b.minor
    else a.patch < b.patch
  }

  /** A later version of the same series, below the bound if there is one. */
  predicate Admits(e: Entry, v: Version) {
    && e.current.Stable? && Earlier(e.current.v, v)
    && v.major == e.current.v.major && (v.major > 0 || v.minor == e.current.v.minor)
    && match e.limit
       case NoLimit => true
       case Below(bound) => Earlier(v, bound)
       case Unreadable => false
  }

  /** The one entry that an advisory speaks of: a single override line, else the entry
      in one of the two sections, and for Python a single requirement line. */
  predicate AimedAt(present: set<Key>, a: Alert, key: Key) {
    key in present &&
    match key
    case Override(name, line) =>
      a.place == PnpmLock && name == a.package && line == 0 && Override(name, 1) !in present
    case Package(dev, name) =>
      a.place == PnpmLock && name == a.package && Package(!dev, name) !in present && Override(name, 0) !in present
    case Requirement(folded, line) =>
      && a.place == PipRequirements && Small(folded) && Spells(a.package, folded) && line == 0
      && Requirement(folded, 1) !in present
  }

  /** The advisory's fixed version is one that the entry, as it was at first, admits. */
  predicate Goal(m: Manifests, a: Alert, key: Key, v: Version) {
    a.fixed == Some(Stable(v)) && AimedAt(m.Keys, a, key) && Admits(m[key], v)
  }

  /** The entry is as it was if no advisory has a goal there, and else at the greatest goal. */
  ghost predicate EndsAt(m: Manifests, alerts: seq<Alert>, key: Key, e: Entry)
    requires key in m
  {
    if forall a, v :: a in alerts ==> !Goal(m, a, key, v) then e == m[key]
    else
      exists a, v ::
        && a in alerts && Goal(m, a, key, v) && e == Entry(Fixed(v), Stable(v), m[key].limit)
        && forall b, w :: b in alerts && Goal(m, b, key, w) ==> !Earlier(v, w)
  }

  lemma EarlierIff(a: Version, b: Version)
    ensures Earlier(a, b) <==> Less(a, b)
  {
  }

  lemma AdmitsIff(e: Entry, v: Version)
    ensures Admits(e, v) <==> Fits(e, v)
  {
  }

  lemma AimedIff(present: set<Key>, a: Alert, key: Key)
    ensures AimedAt(present, a, key) <==> Locate(present, a) == Found(key)
  {
    if key.Requirement? {
      LowerIsSmall(a.package);
      if Small(key.folded) {
        LowerSpells(a.package, key.folded);
      }
    }
  }

  lemma GoalIff(m: Manifests, a: Alert, key: Key, v: Version)
    ensures Goal(m, a, key, v) <==> key in m && Aims(m, a, key) && a.fixed.value.v == v && Fits(m[key], v)
  {
    hide Admits, AimedAt, Fits, Locate;
    AimedIff(m.Keys, a, key);
    AimedIsPresent(m.Keys, a, key);
    if key in m {
      AdmitsIff(m[key], v);
    }
  }

  lemma AimedIsPresent(present: set<Key>, a: Alert, key: Key)
    ensures AimedAt(present, a, key) ==> key in present
  {
  }

  lemma WantedAreGoals(m: Manifests, alerts: seq<Alert>, key: Key, v: Version)
    requires key in m
    ensures v in Wanted(m, alerts, key) <==> exists a :: a in alerts && Goal(m, a, key, v)
  {
    hide Fits, Goal, Locate;
    forall a ensures Goal(m, a, key, v) <==> Aims(m, a, key) && a.fixed.value.v == v && Fits(m[key], v) {
      GoalIff(m, a, key, v);
    }
  }

  /** Where every entry ends. */
  lemma FinalVersions(m: Manifests, alerts: seq<Alert>, key: Key)
    requires key in m
    ensures var after := Prepared(m, alerts).manifests;
            after.Keys == m.Keys && EndsAt(m, alerts, key, after[key])
  {
    hide Earlier, Goal, Less, Wanted;
    PreparedIsClosed(m, alerts);
    var after := Prepared(m, alerts).manifests[key];
    forall v ensures v in Wanted(m, alerts, key) <==> exists a :: a in alerts && Goal(m, a, key, v) {
      WantedAreGoals(m, alerts, key, v);
    }
    if Wanted(m, alerts, key) != {} {
      var v := after.current.v;
      forall b, w | b in alerts && Goal(m, b, key, w) ensures !Earlier(v, w) {
        EarlierIff(v, w);
        assert w in Wanted(m, alerts, key);
      }
      var a :| a in alerts && Goal(m, a, key, v);
      assert after == Entry(Fixed(v), Stable(v), m[key].limit);
    } else {
      forall a, v | a in alerts ensures !Goal(m, a, key, v) {
        assert v !in Wanted(m, alerts, key);
      }
    }
  }

  /** Every goal is reached: no entry ends before a version that it was asked to be raised to. */
  lemma GoalsAreReached(m: Manifests, alerts: seq<Alert>, a: Alert, key: Key, v: Version)
    requires a in alerts && Goal(m, a, key, v)
    ensures key in Prepared(m, alerts).manifests
    ensures var e := Prepared(m, alerts).manifests[key]; e.current.Stable? && !Earlier(e.current.v, v)
  {
    hide Earlier, Prepared;
    AimedIsPresent(m.Keys, a, key);
    FinalVersions(m, alerts, key);
  }

  // ------------------------------------------------ what is applied, and what is not

  /** The advisory at this place has a goal above those of all advisories before it. */
  ghost predicate Raises(m: Manifests, alerts: seq<Alert>, i: nat, key: Key, v: Version)
    requires i < |alerts|
  {
    Goal(m, alerts[i], key, v) && forall j, w :: 0 <= j < i && Goal(m, alerts[j], key, w) ==> Earlier(w, v)
  }

  /** Among the first advisories, one of the same package and place raises the entry to
      this version or a later one. */
  ghost predicate Covered(m: Manifests, alerts: seq<Alert>, n: nat, a: Alert, v: Version)
    requires n <= |alerts|
  {
    exists j, key, w ::
      0 <= j < n && Raises(m, alerts, j, key, w) && !Earlier(w, v)
      && alerts[j].package == a.package && alerts[j].place == a.place
  }

  /** An advisory is applied if it raises its entry, or an earlier one did so for it. */
  ghost predicate Applies(m: Manifests, alerts: seq<Alert>, i: nat)
    requires i < |alerts|
  {
    && alerts[i].fixed.Some? && alerts[i].fixed.value.Stable?
    && var v := alerts[i].fixed.value.v;
       Covered(m, alerts, i, alerts[i], v) || exists key :: Raises(m, alerts, i, key, v)
  }

  /** Why an advisory is not applied, told from the first manifests alone. */
  function Why(m: Manifests, a: Alert): Reason {
    if a.fixed.None? then UpstreamFixUnavailable
    else if a.fixed.value.Other? then NotStable
    else
      match a.place
      case OtherPlace(_, _) => UnsupportedManifest
      case PnpmLock =>
        var (main, dev) := (Package(false, a.package), Package(true, a.package));
        if Override(a.package, 0) in m then
          if Override(a.package, 1) in m then AmbiguousOverride else OfEntry(m[Override(a.package, 0)])
        else if main in m && dev !in m then OfEntry(m[main])
        else if dev in m && main !in m then OfEntry(m[dev])
        else TransitiveDependency
      case PipRequirements =>
        var line := Requirement(Lower(a.package), 0);
        if line !in m || Requirement(Lower(a.package), 1) in m then ManualReview
        else if m[line].limit.Unreadable? then BadNumber
        else if m[line].current.Other? then NotStable
        else OutsideRange
  }

  function OfEntry(e: Entry): Reason {
    if e.limit.Unreadable? then BadNumber
    else if e.current.Other? then NotStable
    else MajorChangeOrAlreadyFixed
  }

  lemma WhyIsReasonFor(m: Manifests, a: Alert)
    ensures Why(m, a) == ReasonFor(m, a)
  {
  }

  /** The applied advisories after so many steps are the raising ones and those that
      one of them backs. */
  ghost predicate Account(m: Manifests, alerts: seq<Alert>, i: nat, applied: seq<Alert>)
    requires i <= |alerts|
  {
    && (forall j, key, v :: 0 <= j < i && Raises(m, alerts, j, key, v) ==> alerts[j] in applied)
    && (forall b :: b in applied ==>
          b.fixed.Some? && b.fixed.value.Stable? && Covered(m, alerts, i, b, b.fixed.value.v))
  }

  lemma EarlierOrder(a: Version, b: Version, c: Version)
    ensures !Earlier(a, a)
    ensures Earlier(a, b) || Earlier(b, a) || a == b
    ensures Earlier(a, b) && Earlier(b, c) ==> Earlier(a, c)
  {
  }

  lemma NotEarlierTransitive(a: Version, b: Version, c: Version)
    requires !Earlier(a, b) && !Earlier(b, c)
    ensures !Earlier(a, c)
  {
  }

  lemma SatisfiedIsCovered(m: Manifests, alerts: seq<Alert>, n: nat, applied: seq<Alert>, a: Alert, v: Version)
    requires n <= |alerts| && Account(m, alerts, n, applied) && a.fixed == Some(Stable(v)) && Satisfied(applied, a)
    ensures Covered(m, alerts, n, a, v)
  {
    hide Earlier, Less, Raises;
    var b :| b in applied && b.package == a.package && b.place == a.place &&
             b.fixed.Some? && b.fixed.value.Stable? && !Less(b.fixed.value.v, v);
    var j, key, w :| 0 <= j < n && Raises(m, alerts, j, key, w) && !Earlier(w, b.fixed.value.v)
                     && alerts[j].package == b.package && alerts[j].place == b.place;
    EarlierIff(b.fixed.value.v, v);
    NotEarlierTransitive(w, b.fixed.value.v, v);
  }

  lemma CoveredIsSatisfied(m: Manifests, alerts: seq<Alert>, n: nat, applied: seq<Alert>, a: Alert, v: Version)
    requires n <= |alerts| && Account(m, alerts, n, applied)
    requires a.fixed == Some(Stable(v)) && Covered(m, alerts, n, a, v)
    ensures Satisfied(applied, a)
  {
    hide Earlier, Less, Raises;
    var j, key, w :| 0 <= j < n && Raises(m, alerts, j, key, w) && !Earlier(w, v)
                     && alerts[j].package == a.package && alerts[j].place == a.place;
    EarlierIff(w, v);
    RaisesAims(m, alerts, j, key, w);
    assert alerts[j] in applied;
  }

  lemma SatisfiedIff(m: Manifests, alerts: seq<Alert>, n: nat, applied: seq<Alert>, a: Alert, v: Version)
    requires n <= |alerts| && Account(m, alerts, n, applied) && a.fixed == Some(Stable(v))
    ensures Satisfied(applied, a) <==> Covered(m, alerts, n, a, v)
  {
    hide Account, Covered, Satisfied;
    if Satisfied(applied, a) {
      SatisfiedIsCovered(m, alerts, n, applied, a, v);
    }
    if Covered(m, alerts, n, a, v) {
      CoveredIsSatisfied(m, alerts, n, applied, a, v);
    }
  }

  lemma AdmitsAfter(e: Entry, u: Version, v: Version)
    requires Admits(e, u)
    ensures Admits(Entry(Fixed(u), Stable(u), e.limit), v) <==> Admits(e, v) && Earlier(u, v)
  {
  }

  /** After the first advisories, the next one fits exactly when it raises its entry. */
  lemma FitsIffRaises(m: Manifests, alerts: seq<Alert>, i: nat, key: Key, v: Version)
    requires i < |alerts| && AimedAt(m.Keys, alerts[i], key) && alerts[i].fixed == Some(Stable(v))
    ensures key in m && key in Prepared(m, alerts[..i]).manifests
    ensures Fits(Prepared(m, alerts[..i]).manifests[key], v) <==> Raises(m, alerts, i, key, v)
  {
    hide Admits, AimedAt, Earlier, Fits, Prepared;
    AimedIsPresent(m.Keys, alerts[i], key);
    FinalVersions(m, alerts[..i], key);
    var after := Prepared(m, alerts[..i]).manifests[key];
    AdmitsIff(after, v);
    if forall a, u :: a in alerts[..i] ==> !Goal(m, a, key, u) {
      forall j, w | 0 <= j < i ensures !Goal(m, alerts[j], key, w) {
        assert alerts[j] in alerts[..i];
      }
    } else {
      RaisedFits(m, alerts, i, key, v, after);
    }
  }

  lemma RaisedFits(m: Manifests, alerts: seq<Alert>, i: nat, key: Key, v: Version, after: Entry)
    requires i < |alerts| && AimedAt(m.Keys, alerts[i], key) && alerts[i].fixed == Some(Stable(v)) && key in m
    requires EndsAt(m, alerts[..i], key, after) && exists a, u :: a in alerts[..i] && Goal(m, a, key, u)
    ensures Admits(after, v) <==> Raises(m, alerts, i, key, v)
  {
    hide Admits, AimedAt, Earlier;
    var a, u :|
      && a in alerts[..i] && Goal(m, a, key, u) && after == Entry(Fixed(u), Stable(u), m[key].limit)
      && forall b, w :: b in alerts[..i] && Goal(m, b, key, w) ==> !Earlier(u, w);
    AdmitsAfter(m[key], u, v);
    var k :| 0 <= k < i && alerts[k] == a;
    forall j, w | 0 <= j < i && Goal(m, alerts[j], key, w) ensures Earlier(u, v) ==> Earlier(w, v) {
      assert alerts[j] in alerts[..i];
      EarlierOrder(w, u, v);
    }
  }

  /** The verdict on the next advisory. */
  lemma VerdictIff(m: Manifests, alerts: seq<Alert>, i: nat)
    requires i < |alerts| && Account(m, alerts, i, Prepared(m, alerts[..i]).applied)
    ensures var s := Prepared(m, alerts[..i]);
            !Judge(s.manifests, s.applied, alerts[i]).Block? <==> Applies(m, alerts, i)
  {
    hide Account, AimedAt, Covered, Fits, Locate, Prepared, Raises, Satisfied;
    var a, s := alerts[i], Prepared(m, alerts[..i]);
    if a.fixed.Some? && a.fixed.value.Stable? {
      var v := a.fixed.value.v;
      SatisfiedIff(m, alerts, i, s.applied, a, v);
      PreparedIsClosed(m, alerts[..i]);
      forall key
        ensures AimedAt(m.Keys, a, key) <==> Locate(m.Keys, a) == Found(key)
        ensures AimedAt(m.Keys, a, key) ==>
                  key in m && key in s.manifests && (Fits(s.manifests[key], v) <==> Raises(m, alerts, i, key, v))
        ensures Raises(m, alerts, i, key, v) ==> AimedAt(m.Keys, a, key)
      {
        AimedIff(m.Keys, a, key);
        RaisesAims(m, alerts, i, key, v);
        if AimedAt(m.Keys, a, key) {
          FitsIffRaises(m, alerts, i, key, v);
        }
      }
    }
  }

  lemma RaisesAims(m: Manifests, alerts: seq<Alert>, i: nat, key: Key, v: Version)
    requires i < |alerts|
    ensures Raises(m, alerts, i, key, v) ==> AimedAt(m.Keys, alerts[i], key) && alerts[i].fixed == Some(Stable(v))
  {
  }

  lemma CoveredGrows(m: Manifests, alerts: seq<Alert>, n: nat, a: Alert, v: Version)
    requires n < |alerts|
    ensures Covered(m, alerts, n, a, v) ==> Covered(m, alerts, n + 1, a, v)
    ensures a == alerts[n] && (exists key :: Raises(m, alerts, n, key, v)) ==> Covered(m, alerts, n + 1, a, v)
  {
    EarlierOrder(v, v, v);
  }

  lemma PreparedNext(m: Manifests, alerts: seq<Alert>, i: nat)
    requires i < |alerts|
    ensures Prepared(m, alerts[..i + 1]) == Step(Prepared(m, alerts[..i]), alerts[i])
  {
    assert alerts[..i + 1][..i] == alerts[..i];
  }

  lemma {:induction false} AccountHolds(m: Manifests, alerts: seq<Alert>, i: nat)
    requires i <= |alerts|
    ensures Account(m, alerts, i, Prepared(m, alerts[..i]).applied)
  {
    if i > 0 {
      AccountHolds(m, alerts, i - 1);
      AccountStep(m, alerts, i - 1);
    }
  }

  lemma AccountStep(m: Manifests, alerts: seq<Alert>, i: nat)
    requires i < |alerts| && Account(m, alerts, i, Prepared(m, alerts[..i]).applied)
    ensures Account(m, alerts, i + 1, Prepared(m, alerts[..i + 1]).applied)
  {
    hide Covered, Judge, Prepared, Raises;
    VerdictIff(m, alerts, i);
    PreparedNext(m, alerts, i);
    var applied, applied' := Prepared(m, alerts[..i]).applied, Prepared(m, alerts[..i + 1]).applied;
    forall b | b in applied'
      ensures b.fixed.Some? && b.fixed.value.Stable? && Covered(m, alerts, i + 1, b, b.fixed.value.v)
    {
      CoveredGrows(m, alerts, i, b, b.fixed.value.v);
    }
    forall j, key, v | 0 <= j < i + 1 && Raises(m, alerts, j, key, v) ensures alerts[j] in applied' {
      RaisesAims(m, alerts, j, key, v);
    }
  }

  /** The advisories that are applied, in order. */
  ghost function Chosen(m: Manifests, alerts: seq<Alert>, n: nat): seq<Alert>
    requires n <= |alerts|
  {
    if n == 0 then [] else Chosen(m, alerts, n - 1) + if Applies(m, alerts, n - 1) then [alerts[n - 1]] else []
  }

  /** The others, in order, each with its reason. */
  ghost function Refused(m: Manifests, alerts: seq<Alert>, n: nat): seq<(Alert, Reason)>
    requires n <= |alerts|
  {
    if n == 0 then []
    else
      Refused(m, alerts, n - 1)
      + if Applies(m, alerts, n - 1) then [] else [(alerts[n - 1], Why(m, alerts[n - 1]))]
  }

  /** What is reported as applied and as blocked, without running the fixer. */
  lemma {:induction false} ListsAre(m: Manifests, alerts: seq<Alert>, n: nat)
    requires n <= |alerts|
    ensures Prepared(m, alerts[..n]).applied == Chosen(m, alerts, n)
    ensures Prepared(m, alerts[..n]).blocked == Refused(m, alerts, n)
  {
    hide Applies, Why;
    if n > 0 {
      var i := n - 1;
      ListsAre(m, alerts, i);
      AccountHolds(m, alerts, i);
      VerdictIff(m, alerts, i);
      PreparedNext(m, alerts, i);
      PreparedIsClosed(m, alerts[..i]);
      var s := Prepared(m, alerts[..i]);
      BlockedForItsReason(m, alerts[..i], s, s.applied, alerts[i]);
      WhyIsReasonFor(m, alerts[i]);
    }
  }

  /** Prepared as a whole: files and both lists. */
  lemma PreparedTold(m: Manifests, alerts: seq<Alert>)
    ensures Prepared(m, alerts).applied == Chosen(m, alerts, |alerts|)
    ensures Prepared(m, alerts).blocked == Refused(m, alerts, |alerts|)
    ensures Prepared(m, alerts).manifests.Keys == m.Keys
    ensures forall key :: key in m ==> EndsAt(m, alerts, key, Prepared(m, alerts).manifests[key])
  {
    hide Chosen, EndsAt, Prepared, Refused;
    ListsAre(m, alerts, |alerts|);
    assert alerts[..|alerts|] == alerts;
    PreparedIsClosed(m, alerts);
    forall key | key in m ensures EndsAt(m, alerts, key, Prepared(m, alerts).manifests[key]) {
      FinalVersions(m, alerts, key);
    }
  }

  /** The first advisory with a goal for an entry is always applied. */
  lemma FirstGoalIsApplied(m: Manifests, alerts: seq<Alert>, i: nat, key: Key, v: Version)
    requires i < |alerts| && Goal(m, alerts[i], key, v)
    requires forall j, w :: 0 <= j < i ==> !Goal(m, alerts[j], key, w)
    ensures alerts[i] in Prepared(m, alerts).applied
  {
    hide Goal, Prepared;
    AccountHolds(m, alerts, |alerts|);
    assert alerts[..|alerts|] == alerts;
    assert Raises(m, alerts, i, key, v);
  }

  lemma {:induction false} FirstGoalRaises(m: Manifests, alerts: seq<Alert>, i: nat, key: Key, v: Version)
    requires i < |alerts| && Goal(m, alerts[i], key, v)
    ensures exists j, w :: 0 <= j <= i && Raises(m, alerts, j, key, w)
    decreases i
  {
    hide Goal;
    if j, w :| 0 <= j < i && Goal(m, alerts[j], key, w) {
      FirstGoalRaises(m, alerts, j, key, w);
    } else {
      assert Raises(m, alerts, i, key, v);
    }
  }

  /** Something is applied exactly when some advisory has a goal. */
  lemma AppliesSomethingIff(m: Manifests, alerts: seq<Alert>)
    ensures Prepared(m, alerts).applied != [] <==> exists a, key, v :: a in alerts && Goal(m, a, key, v)
  {
    hide Goal, Prepared;
    AccountHolds(m, alerts, |alerts|);
    assert alerts[..|alerts|] == alerts;
    var applied := Prepared(m, alerts).applied;
    if applied != [] {
      assert applied[0] in applied;
      var j, key, w :| 0 <= j < |alerts| && Raises(m, alerts, j, key, w);
      assert alerts[j] in alerts && Goal(m, alerts[j], key, w);
    }
    if a, key, v :| a in alerts && Goal(m, a, key, v) {
      var i :| 0 <= i < |alerts| && alerts[i] == a;
      FirstGoalRaises(m, alerts, i, key, v);
    }
  }

  /** The whole of what makes a candidate acceptable: only known files, the receipt of
      exactly this list of advisories on this revision, something applied, and the
      manifests as the advisories leave them. */
  lemma AcceptedIff(base: Manifests, head: map<Path, Content>, alerts: seq<Alert>, sha: string)
    ensures ValidateCandidate(base, head, alerts, sha).Ok? <==>
              && (forall path :: path in head ==>
                    path in {Workspace, PackageJson, RequirementsTxt, LockFile, ReceiptFile})
              && ReceiptFile in head
              && head[ReceiptFile] == Receipt(Remediation(sha, Chosen(base, alerts, |alerts|),
                                                          Refused(base, alerts, |alerts|)))
              && (exists a, key, v :: a in alerts && Goal(base, a, key, v))
              && forall path :: path in {Workspace, PackageJson, RequirementsTxt} ==>
                   (if path in head then head[path] else FileOf(base, path)) ==
                   FileOf(Prepared(base, alerts).manifests, path)
  {
    hide Chosen, Goal, Prepared, Refused, FileOf;
    PreparedTold(base, alerts);
    AppliesSomethingIff(base, alerts);
    assert MANIFESTS == {Workspace, PackageJson, RequirementsTxt};
    if forall path :: path in head ==> path in {Workspace, PackageJson, RequirementsTxt, LockFile, ReceiptFile} {
      assert head.Keys <= ALLOWED;
    } else {
      var path :| path in head && path !in {Workspace, PackageJson, RequirementsTxt, LockFile, ReceiptFile};
      assert path in head.Keys && path !in ALLOWED;
    }
  }

  /** A file holds the entries that belong to it, as they are. */
  lemma FileOfMeans(m: Manifests, path: Path)
    ensures FileOf(m, path).Manifest?
    ensures forall key :: key in FileOf(m, path).entries <==>
              key in m &&
              path == (if key.Override? then Workspace else if key.Package? then PackageJson else RequirementsTxt)
    ensures forall key :: key in FileOf(m, path).entries ==> FileOf(m, path).entries[key] == m[key]
  {
  }
}
