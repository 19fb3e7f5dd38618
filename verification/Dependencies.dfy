/** Dependency fixes from advisories: manifests as structured entries, the
    compatibility relation between versions, and the fold over the advisories. */
module Dependencies {
  import opened Outcomes
  import opened Text

  datatype Version = Version(major: nat, minor: nat, patch: nat)

  /** Text where a version is expected: a plain three-component one, or anything else. */
  datatype VersionText = Stable(v: Version) | Other(text: string)

  predicate Less(a: Version, b: Version) {
    || a.major < b.major
    || (a.major == b.major && a.minor < b.minor)
    || (a.major == b.major && a.minor == b.minor && a.patch < b.patch)
  }

  predicate SameSeries(a: Version, b: Version) {
    a.major == b.major && (a.major == 0 ==> a.minor == b.minor)
  }

  /** `compatible`: an upgrade within the major version, or within the minor one below 1.0. */
  predicate Compatible(current: Version, fixed: Version) {
    Less(current, fixed) && current.major == fixed.major && (current.major != 0 || current.minor == fixed.minor)
  }

  /** The algebra that the closed form rests on. */
  lemma CompatibleAlgebra(a: Version, b: Version, c: Version)
    ensures Compatible(a, b) <==> Less(a, b) && SameSeries(a, b)
    ensures Compatible(a, b) ==> (Compatible(a, c) && Less(b, c) <==> Compatible(b, c))
    ensures Less(a, b) || Less(b, a) || a == b
    ensures !(Less(a, b) && Less(b, a))
    ensures Less(a, b) && Less(b, c) ==> Less(a, c)
  {
  }

  // --------------------------------------------------------------- manifests

  /** The i-th override line of a package, its entry in a section of package.json,
      or the i-th simple requirement line of a name, taken without case. */
  datatype Key =
    | Override(name: string, line: nat)
    | Package(dev: bool, name: string)
    | Requirement(folded: string, line: nat)

  /** An upper bound beside a requirement, if there is one and if it can be read. */
  datatype Limit = NoLimit | Below(v: Version) | Unreadable

  /** What stands in the file, the version read from it, and the bound beside it. */
  datatype Written = Original(text: string) | Fixed(v: Version)

  datatype Entry = Entry(written: Written, current: VersionText, limit: Limit)

  type Manifests = map<Key, Entry>

  datatype Place = PnpmLock | PipRequirements | OtherPlace(ecosystem: string, manifest: string)

  datatype Alert = Alert(number: string, package: string, place: Place, fixed: Option<VersionText>)

  datatype Reason =
    | UpstreamFixUnavailable | NotStable | BadNumber
    | MajorChangeOrAlreadyFixed | TransitiveDependency | AmbiguousOverride
    | ManualReview | OutsideRange | UnsupportedManifest

  datatype Location = Found(key: Key) | Refused(reason: Reason)

  /** The one entry an alert is about. It depends on which entries exist, not on their versions. */
  function Locate(present: set<Key>, a: Alert): Location {
    match a.place
    case PnpmLock =>
      if Override(a.package, 0) in present then
        if Override(a.package, 1) in present then Refused(AmbiguousOverride) else Found(Override(a.package, 0))
      else if (Package(false, a.package) in present) == (Package(true, a.package) in present) then
        Refused(TransitiveDependency)
      else Found(Package(Package(true, a.package) in present, a.package))
    case PipRequirements =>
      var name := Lower(a.package);
      if Requirement(name, 0) in present && Requirement(name, 1) !in present then Found(Requirement(name, 0))
      else Refused(ManualReview)
    case OtherPlace(_, _) => Refused(UnsupportedManifest)
  }

  /** The version may be written over the entry. */
  predicate Fits(e: Entry, v: Version) {
    && e.current.Stable? && Compatible(e.current.v, v)
    && (e.limit.Below? ==> Less(v, e.limit.v)) && !e.limit.Unreadable?
  }

  function Misfit(key: Key, e: Entry): Reason {
    if e.limit.Unreadable? then BadNumber
    else if e.current.Other? then NotStable
    else if key.Requirement? then OutsideRange
    else MajorChangeOrAlreadyFixed
  }

  function Rewrite(e: Entry, v: Version): Entry {
    e.(written := Fixed(v), current := Stable(v))
  }

  // -------------------------------------------------------------------- fold

  predicate Satisfied(applied: seq<Alert>, a: Alert)
    requires a.fixed.Some? && a.fixed.value.Stable?
  {
    exists b :: b in applied && b.package == a.package && b.place == a.place &&
                b.fixed.Some? && b.fixed.value.Stable? && !Less(b.fixed.value.v, a.fixed.value.v)
  }

  /** What becomes of one alert. */
  datatype Verdict = AlreadyApplied | Edit(key: Key) | Block(reason: Reason)

  function Judge(m: Manifests, applied: seq<Alert>, a: Alert): (verdict: Verdict)
    ensures verdict.Edit? ==> verdict.key in m
  {
    if a.fixed.None? then Block(UpstreamFixUnavailable)
    else if a.fixed.value.Other? then Block(NotStable)
    else if Satisfied(applied, a) then AlreadyApplied
    else
      match Locate(m.Keys, a)
      case Refused(reason) => Block(reason)
      case Found(key) => if Fits(m[key], a.fixed.value.v) then Edit(key) else Block(Misfit(key, m[key]))
  }

  datatype Fixes = Fixes(manifests: Manifests, applied: seq<Alert>, blocked: seq<(Alert, Reason)>)

  function Step(s: Fixes, a: Alert): Fixes {
    match Judge(s.manifests, s.applied, a)
    case AlreadyApplied => s.(applied := s.applied + [a])
    case Edit(key) =>
      s.(manifests := s.manifests[key := Rewrite(s.manifests[key], a.fixed.value.v)], applied := s.applied + [a])
    case Block(reason) => s.(blocked := s.blocked + [(a, reason)])
  }

  function Prepared(m: Manifests, alerts: seq<Alert>): Fixes {
    if alerts == [] then Fixes(m, [], [])
    else Step(Prepared(m, alerts[..|alerts| - 1]), alerts[|alerts| - 1])
  }

  /** `prepare` */
  method Prepare(m: Manifests, alerts: seq<Alert>) returns (r: Fixes)
    ensures r == Prepared(m, alerts)
  {
    var result := m;
    var applied: seq<Alert>, blocked: seq<(Alert, Reason)> := [], [];
    for i := 0 to |alerts|
      invariant Fixes(result, applied, blocked) == Prepared(m, alerts[..i])
    {
      var a := alerts[i];
      assert alerts[..i + 1][..i] == alerts[..i];
      match Judge(result, applied, a) {
        case AlreadyApplied =>
          applied := applied + [a];
        case Edit(key) =>
          result := result[key := Rewrite(result[key], a.fixed.value.v)];
          applied := applied + [a];
        case Block(reason) =>
          blocked := blocked + [(a, reason)];
      }
    }
    assert alerts[..|alerts|] == alerts;
    r := Fixes(result, applied, blocked);
  }

  // ------------------------------------------------------------- closed form

  predicate Aims(m: Manifests, a: Alert, key: Key) {
    a.fixed.Some? && a.fixed.value.Stable? && Locate(m.Keys, a) == Found(key)
  }

  /** The fixed versions that the entry, as it was at first, could be raised to. */
  ghost function Wanted(m: Manifests, alerts: seq<Alert>, key: Key): set<Version>
    requires key in m
  {
    set a | a in alerts && Aims(m, a, key) && Fits(m[key], a.fixed.value.v) :: a.fixed.value.v
  }

  /** The entry is untouched if nothing fits it, and else at the greatest version that does. */
  ghost predicate Settled(before: Entry, after: Entry, wanted: set<Version>) {
    if wanted == {} then after == before
    else
      && after.current.Stable? && after == Rewrite(before, after.current.v)
      && after.current.v in wanted
      && forall v :: v in wanted ==> !Less(after.current.v, v)
  }

  ghost predicate AtOrAbove(e: Entry, v: Version) {
    e.current.Stable? && !Less(e.current.v, v)
  }

  /** The loop invariant of the fold, stated against the manifests it started from. */
  ghost predicate Closed(m: Manifests, alerts: seq<Alert>, s: Fixes) {
    && s.manifests.Keys == m.Keys
    && (forall key :: key in m ==> Settled(m[key], s.manifests[key], Wanted(m, alerts, key)))
    && (forall a :: a in s.applied ==>
          && a.fixed.Some? && a.fixed.value.Stable? && Locate(m.Keys, a).Found?
          && Locate(m.Keys, a).key in m && AtOrAbove(s.manifests[Locate(m.Keys, a).key], a.fixed.value.v))
  }

  /** One entry when one more version is wanted or not. */
  lemma SettledStep(before: Entry, after: Entry, wanted: set<Version>, v: Version)
    requires Settled(before, after, wanted) && forall w :: w in wanted ==> Fits(before, w)
    ensures Fits(after, v) ==> Fits(before, v) && Settled(before, Rewrite(after, v), wanted + {v})
    ensures !Fits(after, v) && Fits(before, v) ==> Settled(before, after, wanted + {v})
    ensures AtOrAbove(after, v) && Fits(before, v) ==> !Fits(after, v)
  {
    if after.current.Stable? && before.current.Stable? {
      CompatibleAlgebra(before.current.v, after.current.v, v);
      forall w | w in wanted ensures Less(after.current.v, v) ==> !Less(v, w) {
        CompatibleAlgebra(after.current.v, v, w);
        CompatibleAlgebra(w, after.current.v, v);
      }
      assert wanted + {v} != {};
    }
  }

  lemma WantedStep(m: Manifests, alerts: seq<Alert>, a: Alert, key: Key)
    requires key in m
    ensures Wanted(m, alerts + [a], key) ==
            if Aims(m, a, key) && Fits(m[key], a.fixed.value.v) then Wanted(m, alerts, key) + {a.fixed.value.v}
            else Wanted(m, alerts, key)
  {
  }

  lemma AtOrAboveTransitive(e: Entry, v: Version, u: Version)
    requires AtOrAbove(e, v) && !Less(v, u)
    ensures AtOrAbove(e, u)
  {
    CompatibleAlgebra(u, v, e.current.v);
    CompatibleAlgebra(e.current.v, u, v);
    CompatibleAlgebra(v, e.current.v, u);
  }

  lemma RaisingKeepsAbove(e: Entry, v: Version, u: Version)
    requires Fits(e, v) && AtOrAbove(e, u)
    ensures AtOrAbove(Rewrite(e, v), u)
  {
    CompatibleAlgebra(e.current.v, v, u);
    CompatibleAlgebra(v, u, e.current.v);
  }

  /** An alert that an applied one satisfies is at or below its entry already. */
  lemma AppliedCovers(m: Manifests, alerts: seq<Alert>, s: Fixes, a: Alert, key: Key)
    requires Closed(m, alerts, s) && key in m && Aims(m, a, key) && Satisfied(s.applied, a)
    ensures AtOrAbove(s.manifests[key], a.fixed.value.v)
  {
    var b :| b in s.applied && b.package == a.package && b.place == a.place &&
             b.fixed.Some? && b.fixed.value.Stable? && !Less(b.fixed.value.v, a.fixed.value.v);
    assert Locate(m.Keys, b) == Found(key);
    AtOrAboveTransitive(s.manifests[key], b.fixed.value.v, a.fixed.value.v);
  }

  /** One step of the fold at one entry. */
  lemma ClosedStepAt(m: Manifests, alerts: seq<Alert>, s: Fixes, a: Alert, key: Key)
    requires Closed(m, alerts, s) && key in m
    ensures var s' := Step(s, a);
            && s'.manifests.Keys == m.Keys
            && Settled(m[key], s'.manifests[key], Wanted(m, alerts + [a], key))
            && (Aims(m, a, key) && !Judge(s.manifests, s.applied, a).Block? ==>
                  AtOrAbove(s'.manifests[key], a.fixed.value.v))
  {
    hide Compatible, Locate, Misfit, Settled;
    var verdict := Judge(s.manifests, s.applied, a);
    WantedStep(m, alerts, a, key);
    if !Aims(m, a, key) {
      assert verdict != Edit(key);
    } else {
      var v := a.fixed.value.v;
      SettledStep(m[key], s.manifests[key], Wanted(m, alerts, key), v);
      if verdict.Edit? {
        assert verdict == Edit(key);
        assert AtOrAbove(Rewrite(s.manifests[key], v), v);
      } else if verdict.AlreadyApplied? {
        AppliedCovers(m, alerts, s, a, key);
      }
    }
  }

  lemma StepKeepsAbove(s: Fixes, a: Alert, key: Key, u: Version)
    requires key in s.manifests && AtOrAbove(s.manifests[key], u)
    ensures AtOrAbove(Step(s, a).manifests[key], u)
  {
    if Judge(s.manifests, s.applied, a) == Edit(key) {
      RaisingKeepsAbove(s.manifests[key], a.fixed.value.v, u);
    }
  }

  lemma ClosedStep(m: Manifests, alerts: seq<Alert>, s: Fixes, a: Alert)
    requires Closed(m, alerts, s)
    ensures Closed(m, alerts + [a], Step(s, a))
  {
    var s' := Step(s, a);
    forall key | key in m
      ensures Settled(m[key], s'.manifests[key], Wanted(m, alerts + [a], key))
    {
      ClosedStepAt(m, alerts, s, a, key);
    }
    forall b | b in s'.applied
      ensures b.fixed.Some? && b.fixed.value.Stable? && Locate(m.Keys, b).Found?
      ensures Locate(m.Keys, b).key in m && AtOrAbove(s'.manifests[Locate(m.Keys, b).key], b.fixed.value.v)
    {
      if b in s.applied {
        StepKeepsAbove(s, a, Locate(m.Keys, b).key, b.fixed.value.v);
      } else {
        AppliedIsLocated(m, alerts, s, a);
        ClosedStepAt(m, alerts, s, a, Locate(m.Keys, a).key);
      }
    }
  }

  lemma AppliedIsLocated(m: Manifests, alerts: seq<Alert>, s: Fixes, a: Alert)
    requires Closed(m, alerts, s) && !Judge(s.manifests, s.applied, a).Block?
    ensures a.fixed.Some? && a.fixed.value.Stable? && Locate(m.Keys, a).Found? && Locate(m.Keys, a).key in m
  {
    if Judge(s.manifests, s.applied, a).AlreadyApplied? {
      var b :| b in s.applied && b.package == a.package && b.place == a.place;
      assert Locate(m.Keys, a) == Locate(m.Keys, b);
    }
  }

  /** `prepare` in closed form. Every entry ends at the greatest of the fixed versions
      that its first version could be raised to, or is left as it was; and whatever
      is reported as applied is at or below the version that its entry ends with. */
  lemma {:induction false} PreparedIsClosed(m: Manifests, alerts: seq<Alert>)
    ensures Closed(m, alerts, Prepared(m, alerts))
  {
    if alerts == [] {
      forall key | key in m ensures Wanted(m, [], key) == {} {
      }
    } else {
      var front := alerts[..|alerts| - 1];
      PreparedIsClosed(m, front);
      ClosedStep(m, front, Prepared(m, front), alerts[|alerts| - 1]);
      assert front + [alerts[|alerts| - 1]] == alerts;
    }
  }

  /** The series of an entry never changes and its version never goes down. */
  lemma NeverDowngradesNorLeavesSeries(m: Manifests, alerts: seq<Alert>, key: Key)
    requires key in m && m[key].current.Stable?
    ensures var after := Prepared(m, alerts).manifests;
            && key in after && after[key].current.Stable? && after[key].limit == m[key].limit
            && SameSeries(m[key].current.v, after[key].current.v)
            && !Less(after[key].current.v, m[key].current.v)
            && (m[key].limit.Below? && after[key] != m[key] ==> Less(after[key].current.v, m[key].limit.v))
  {
    PreparedIsClosed(m, alerts);
    var after := Prepared(m, alerts).manifests[key];
    if after != m[key] {
      CompatibleAlgebra(m[key].current.v, after.current.v, m[key].current.v);
    }
  }

  /** The resulting files depend on which alerts there are, not on their order or number. */
  lemma OrderDoesNotMatter(m: Manifests, alerts: seq<Alert>, others: seq<Alert>)
    requires forall a :: a in alerts <==> a in others
    ensures Prepared(m, alerts).manifests == Prepared(m, others).manifests
  {
    PreparedIsClosed(m, alerts);
    PreparedIsClosed(m, others);
    var after, after' := Prepared(m, alerts).manifests, Prepared(m, others).manifests;
    forall key | key in m ensures after[key] == after'[key] {
      assert Wanted(m, alerts, key) == Wanted(m, others, key);
      if Wanted(m, alerts, key) != {} {
        CompatibleAlgebra(after[key].current.v, after'[key].current.v, after[key].current.v);
      }
    }
  }

  /** Nothing that is left can be applied to the result. */
  lemma NothingLeftFits(m: Manifests, alerts: seq<Alert>, a: Alert)
    requires a in alerts
    ensures Judge(Prepared(m, alerts).manifests, [], a).Block?
  {
    PreparedIsClosed(m, alerts);
    var after := Prepared(m, alerts).manifests;
    if a.fixed.Some? && a.fixed.value.Stable? && Locate(m.Keys, a).Found? {
      var key := Locate(m.Keys, a).key;
      SettledStep(m[key], after[key], Wanted(m, alerts, key), a.fixed.value.v);
    }
  }

  /** Preparing the result again changes no file, applies nothing, and blocks every
      alert, in order. */
  lemma {:induction false} PrepareReachesFixpoint(m: Manifests, alerts: seq<Alert>, again: seq<Alert>)
    requires forall a :: a in again ==> a in alerts
    ensures var after := Prepared(m, alerts).manifests;
            var second := Prepared(after, again);
            && second.manifests == after && second.applied == []
            && |second.blocked| == |again|
            && forall i :: 0 <= i < |again| ==> second.blocked[i].0 == again[i]
  {
    if again != [] {
      PrepareReachesFixpoint(m, alerts, again[..|again| - 1]);
      NothingLeftFits(m, alerts, again[|again| - 1]);
    }
  }

  /** Why an alert is blocked, if it is, told from the first manifests alone. */
  function ReasonFor(m: Manifests, a: Alert): Reason {
    if a.fixed.None? then UpstreamFixUnavailable
    else if a.fixed.value.Other? then NotStable
    else
      match Locate(m.Keys, a)
      case Refused(reason) => reason
      case Found(key) => Misfit(key, m[key])
  }

  lemma BlockedForItsReason(m: Manifests, alerts: seq<Alert>, s: Fixes, applied: seq<Alert>, a: Alert)
    requires Closed(m, alerts, s)
    ensures Judge(s.manifests, applied, a).Block? ==> Judge(s.manifests, applied, a).reason == ReasonFor(m, a)
  {
    if Locate(m.Keys, a).Found? {
      var key := Locate(m.Keys, a).key;
      assert Settled(m[key], s.manifests[key], Wanted(m, alerts, key));
    }
  }

  lemma {:induction false} EachBlockedForItsReason(m: Manifests, alerts: seq<Alert>)
    ensures forall b :: b in Prepared(m, alerts).blocked ==> b.0 in alerts && b.1 == ReasonFor(m, b.0)
  {
    if alerts != [] {
      var front := alerts[..|alerts| - 1];
      EachBlockedForItsReason(m, front);
      PreparedIsClosed(m, front);
      var s := Prepared(m, front);
      BlockedForItsReason(m, front, s, s.applied, alerts[|alerts| - 1]);
    }
  }

  /** A fit is only ever lost by moving above it, so a blocked alert stays blocked
      for the same reason when the result is prepared again. */
  lemma BlockedStaysBlocked(m: Manifests, alerts: seq<Alert>, b: (Alert, Reason))
    requires b in Prepared(m, alerts).blocked
    ensures Judge(Prepared(m, alerts).manifests, [], b.0) == Block(b.1)
  {
    EachBlockedForItsReason(m, alerts);
    NothingLeftFits(m, alerts, b.0);
    PreparedIsClosed(m, alerts);
    BlockedForItsReason(m, alerts, Prepared(m, alerts), [], b.0);
  }

  function First<A, B>(pairs: seq<(A, B)>): seq<A> {
    seq(|pairs|, i requires 0 <= i < |pairs| => pairs[i].0)
  }

  /** `xs` is made of the elements of `a` and of `b`, each list in its own order. */
  ghost predicate Interleaved<T(!new)>(xs: seq<T>, a: seq<T>, b: seq<T>) {
    if xs == [] then a == [] && b == []
    else
      var last, front := xs[|xs| - 1], xs[..|xs| - 1];
      || (a != [] && a[|a| - 1] == last && Interleaved(front, a[..|a| - 1], b))
      || (b != [] && b[|b| - 1] == last && Interleaved(front, a, b[..|b| - 1]))
  }

  /** Every alert is applied or blocked, none is both, and both lists keep the order. */
  lemma {:induction false} EveryAlertIsAccountedFor(m: Manifests, alerts: seq<Alert>)
    ensures Interleaved(alerts, Prepared(m, alerts).applied, First(Prepared(m, alerts).blocked))
  {
    if alerts != [] {
      var front, last := alerts[..|alerts| - 1], alerts[|alerts| - 1];
      EveryAlertIsAccountedFor(m, front);
      var s, s' := Prepared(m, front), Prepared(m, alerts);
      if s'.blocked == s.blocked {
        assert s'.applied[..|s'.applied| - 1] == s.applied;
      } else {
        assert First(s'.blocked)[..|s'.blocked| - 1] == First(s.blocked);
      }
    }
  }

  // --------------------------------------------------------------- candidates

  datatype Path = Workspace | PackageJson | RequirementsTxt | LockFile | ReceiptFile | OtherPath(name: string)

  const MANIFESTS: set<Path> := {Workspace, PackageJson, RequirementsTxt}
  const ALLOWED: set<Path> := MANIFESTS + {LockFile, ReceiptFile}

  function PathOf(key: Key): Path {
    match key
    case Override(_, _) => Workspace
    case Package(_, _) => PackageJson
    case Requirement(_, _) => RequirementsTxt
  }

  /** The remediation receipt that travels with a candidate. */
  datatype Remediation = Remediation(baseSha: string, applied: seq<Alert>, blocked: seq<(Alert, Reason)>)

  datatype Content = Manifest(entries: Manifests) | Receipt(remediation: Remediation) | Bytes(text: string)

  function FileOf(m: Manifests, path: Path): Content {
    Manifest(map key | key in m && PathOf(key) == path :: m[key])
  }

  /** What a path holds once the candidate is merged. */
  function Merged(base: Manifests, head: map<Path, Content>, path: Path): Content {
    if path in head then head[path] else FileOf(base, path)
  }

  /** `validate_candidate` */
  function ValidateCandidate(base: Manifests, head: map<Path, Content>, alerts: seq<Alert>, sha: string): Result<()> {
    if !(head.Keys <= ALLOWED) || ReceiptFile !in head then Error("Unexpected candidate files")
    else
      var expected := Prepared(base, alerts);
      var receipt := Receipt(Remediation(sha, expected.applied, expected.blocked));
      if expected.applied == [] || head[ReceiptFile] != receipt then
        Error("Candidate is stale or does not match current advisories")
      else if exists path :: path in MANIFESTS && Merged(base, head, path) != FileOf(expected.manifests, path) then
        Error("Candidate contains unrelated changes")
      else Ok(())
  }

  /** The files that the fixer writes: its receipt, the manifests that changed, and the lock file. */
  function Candidate(base: Manifests, alerts: seq<Alert>, sha: string, lock: Content): map<Path, Content> {
    var r := Prepared(base, alerts);
    (map path | path in MANIFESTS && FileOf(r.manifests, path) != FileOf(base, path) :: FileOf(r.manifests, path))
    + map[LockFile := lock, ReceiptFile := Receipt(Remediation(sha, r.applied, r.blocked))]
  }

  lemma CandidateFiles(base: Manifests, alerts: seq<Alert>, sha: string, lock: Content)
    ensures var head, r := Candidate(base, alerts, sha, lock), Prepared(base, alerts);
            && head.Keys <= ALLOWED && ReceiptFile in head
            && head[ReceiptFile] == Receipt(Remediation(sha, r.applied, r.blocked))
  {
  }

  lemma MergedIsPrepared(base: Manifests, alerts: seq<Alert>, sha: string, lock: Content, path: Path)
    requires path in MANIFESTS
    ensures Merged(base, Candidate(base, alerts, sha, lock), path) == FileOf(Prepared(base, alerts).manifests, path)
  {
  }

  /** A generated candidate is accepted exactly when it applies something. */
  lemma CandidateIsAccepted(base: Manifests, alerts: seq<Alert>, sha: string, lock: Content)
    ensures ValidateCandidate(base, Candidate(base, alerts, sha, lock), alerts, sha).Ok? <==>
            Prepared(base, alerts).applied != []
  {
    CandidateFiles(base, alerts, sha, lock);
    forall path | path in MANIFESTS
      ensures Merged(base, Candidate(base, alerts, sha, lock), path) == FileOf(Prepared(base, alerts).manifests, path)
    {
      MergedIsPrepared(base, alerts, sha, lock, path);
    }
  }

  /** Merging an accepted candidate, whoever wrote it, only raises versions, each
      within its series, and to the greatest advised one that fits. */
  lemma AcceptedCandidateOnlyRaises(
    base: Manifests, head: map<Path, Content>, alerts: seq<Alert>, sha: string, key: Key)
    requires ValidateCandidate(base, head, alerts, sha).Ok? && key in base
    ensures var file := Merged(base, head, PathOf(key));
            && file.Manifest? && key in file.entries
            && Settled(base[key], file.entries[key], Wanted(base, alerts, key))
            && (base[key].current.Stable? ==>
                  && file.entries[key].current.Stable?
                  && SameSeries(base[key].current.v, file.entries[key].current.v)
                  && !Less(file.entries[key].current.v, base[key].current.v))
  {
    PreparedIsClosed(base, alerts);
    assert PathOf(key) in MANIFESTS;
    assert Merged(base, head, PathOf(key)) == FileOf(Prepared(base, alerts).manifests, PathOf(key));
    if base[key].current.Stable? {
      NeverDowngradesNorLeavesSeries(base, alerts, key);
    }
  }
}
