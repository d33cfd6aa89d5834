/** What a retention pass and the loading of a store leave, in terms of the fields
    of deployments: also what the deployments they make up themselves are. */
module RetentionMeaning {
  import opened Common
  import opened Deployments
  import opened DeploymentStore
  import opened Retention
  import opened RetentionLaws

  // ------------------------------------------------------------ specification

  predicate IsDone(d: Deployment) {
    d.status == Done
  }

  /** The deployment left an entry in the boot loader. */
  predicate IsDoneEntry(d: Deployment) {
    d.status == Done && (d.operation == Boot || d.operation == Switch)
  }

  ghost predicate Describes(s: seq<Deployment>, p: Deployment -> bool, path: Path) {
    exists d :: d in s && p(d) && d.storepath == path
  }

  ghost predicate IsNewestAt(s: seq<Deployment>, p: Deployment -> bool, path: Path, d: Deployment) {
    && d in s && p(d) && d.storepath == path
    && forall e :: e in s && p(e) && e.storepath == path ==> e.createdAt <= d.createdAt
  }

  /** The deployment was made up for a system that none of s describes. */
  ghost predicate IsMadeUp(s: seq<Deployment>, d: Deployment, path: Path, operation: Operation) {
    && d.uuid !in Uuids(s) && d.storepath == path && d.operation == operation
    && d.status == Done && d.createdAt == 0 && !d.ended && d.profilePath == ""
  }

  ghost predicate IsBooted(s: seq<Deployment>, path: Path, d: Deployment) {
    if Describes(s, IsDoneEntry, path) then IsNewestAt(s, IsDoneEntry, path, d) else IsMadeUp(s, d, path, Boot)
  }

  ghost predicate IsSwitched(s: seq<Deployment>, path: Path, booted: Deployment, d: Deployment) {
    if Describes(s + [booted], IsDone, path) then IsNewestAt(s + [booted], IsDone, path, d)
    else IsMadeUp(s, d, path, Switch)
  }

  /** What is to be kept of s: the booted and the running system, the newest entry of
      each of the newest storepaths, the newest done deployments, the newest ones. */
  ghost predicate Keeps(s: seq<Deployment>, bootedPath: Path, currentPath: Path, caps: Capacities, out: Outcome) {
    var all := s + [out.booted, out.switched];
    && IsBooted(s, bootedPath, out.booted) && IsSwitched(s, currentPath, out.booted, out.switched)
    && IsNewestPerStorepath(all, IsDoneEntry, caps.bootEntry, out.bootEntries)
    && IsNewest(all, IsDone, caps.successful, out.successful)
    && IsNewest(all, Anything, caps.any, out.any)
    && IsList(out.bootEntries) && IsList(out.successful) && IsList(out.any) && IsList(out.kept)
    && forall d :: d in out.kept <==>
         d == out.booted || d == out.switched || d in out.bootEntries || d in out.successful || d in out.any
  }

  /** Nothing else is kept than what is in s and the two running systems. */
  ghost predicate AddsOnlySystems(s: seq<Deployment>, bootedPath: Path, currentPath: Path, out: Outcome) {
    && IsBooted(s, bootedPath, out.booted) && IsSwitched(s, currentPath, out.booted, out.switched)
    && forall d :: d in out.kept ==> d in s || d == out.booted || d == out.switched
  }

  // ------------------------------------------------------------------ one pass

  lemma PassFindsBooted(s: seq<Deployment>, q: Request, out: Outcome, order: seq<Deployment>)
    requires Fresh(s, q) && Retains(s, q, out, order)
    ensures IsBooted(s, q.bootedPath, out.booted)
    ensures BootedMint(s, q) == [out.booted] || (BootedMint(s, q) == [] && out.booted in s)
  {
    SameMembers(order, s + Minted(s, q));
    var b, m := BootedMint(s, q), SwitchedMint(s + BootedMint(s, q), q);
    assert m != [] ==> !SwitchedTo(out.booted, q.switchedPath) || out.booted in m;
    assert b != [] ==> b[0] in s + b;
    if Describes(s, IsDoneEntry, q.bootedPath) {
      var d :| d in s && IsDoneEntry(d) && d.storepath == q.bootedPath;
      assert BootedFrom(d, q.bootedPath);
      assert d in s + b;
      assert out.booted !in m;
      assert forall e :: e in s ==> e in order;
    } else {
      assert forall d :: d in s ==> !BootedFrom(d, q.bootedPath);
      assert b == [BootedDummy(q)];
      assert out.booted !in m;
    }
  }

  lemma PassFindsSwitched(s: seq<Deployment>, q: Request, out: Outcome, order: seq<Deployment>)
    requires Fresh(s, q) && Retains(s, q, out, order)
    ensures IsSwitched(s, q.switchedPath, out.booted, out.switched)
    ensures forall d :: d in order <==> d in s || d == out.booted || d == out.switched
  {
    PassFindsBooted(s, q, out, order);
    SameMembers(order, s + Minted(s, q));
    var known := s + [out.booted];
    var b, m := BootedMint(s, q), SwitchedMint(s + BootedMint(s, q), q);
    assert forall d :: d in s + b <==> d in known;
    if Describes(known, IsDone, q.switchedPath) {
      var d :| d in known && IsDone(d) && d.storepath == q.switchedPath;
      assert d in s + b && SwitchedTo(d, q.switchedPath);
      assert m == [];
      assert forall e :: e in order <==> e in known;
    } else {
      assert forall d :: d in s + b ==> !SwitchedTo(d, q.switchedPath);
      assert m == [SwitchedDummy(q)];
      assert forall e :: e in order <==> e in known || e == m[0];
    }
  }

  /** Every pass, also one over a list in which identifiers are repeated. */
  lemma PassAddsOnlySystems(s: seq<Deployment>, q: Request, out: Outcome, order: seq<Deployment>)
    requires Fresh(s, q) && Retains(s, q, out, order)
    requires q.caps.bootEntry >= 0 && q.caps.successful >= 0 && q.caps.any >= 0
    ensures AddsOnlySystems(s, q.bootedPath, q.switchedPath, out)
  {
    PassFindsBooted(s, q, out, order);
    PassFindsSwitched(s, q, out, order);
    KeptIsWellFormed(s, q, out, order);
  }

  lemma KeepsAddsOnlySystems(s: seq<Deployment>, bootedPath: Path, currentPath: Path, caps: Capacities, out: Outcome)
    requires Keeps(s, bootedPath, currentPath, caps, out)
    ensures AddsOnlySystems(s, bootedPath, currentPath, out)
  {
    var all := s + [out.booted, out.switched];
    assert forall d :: d in all ==> d in s || d == out.booted || d == out.switched;
  }

  /** A pass over a list without repetitions keeps what is to be kept. */
  lemma PassKeeps(s: seq<Deployment>, q: Request, out: Outcome, order: seq<Deployment>)
    requires Fresh(s, q) && DistinctUuids(s) && Retains(s, q, out, order)
    requires q.caps.bootEntry >= 0 && q.caps.successful >= 0 && q.caps.any >= 0
    ensures Keeps(s, q.bootedPath, q.switchedPath, q.caps, out)
  {
    PassFindsBooted(s, q, out, order);
    PassFindsSwitched(s, q, out, order);
    RetentionIsDeclarative(s, q, out, order);
    SameMembers(order, s + Minted(s, q));
    var all := s + [out.booted, out.switched];
    assert forall d :: d in all <==> d in s + Minted(s, q);
    ListsAreOf(s + Minted(s, q), all, q.caps, out);
  }

  /** The lists depend on what there is, not on how it is written down. */
  lemma ListsAreOf(s: seq<Deployment>, t: seq<Deployment>, caps: Capacities, out: Outcome)
    requires AreRetentionLists(s, caps, out) && forall d :: d in s <==> d in t
    ensures IsNewestPerStorepath(t, IsDoneEntry, caps.bootEntry, out.bootEntries)
    ensures IsNewest(t, IsDone, caps.successful, out.successful)
    ensures IsNewest(t, Anything, caps.any, out.any)
  {
    assert forall d :: IsDoneEntry(d) <==> SucceededBootEntry(d);
  }

  // --------------------------------------------------------------- made up ones

  /** Whatever is kept without having been there is done, dated at the epoch, and
      stands for a running system that was not described: it is the booted one, as
      if by a boot, or the running one, as if by a switch. */
  lemma NewAreRunningSystems(s: seq<Deployment>, bootedPath: Path, currentPath: Path, out: Outcome, d: Deployment)
    requires AddsOnlySystems(s, bootedPath, currentPath, out) && d in out.kept && d !in s
    ensures d.status == Done && d.createdAt == 0 && !d.ended && d.profilePath == "" && d.uuid !in Uuids(s)
    ensures || (d == out.booted && d.operation == Boot && d.storepath == bootedPath
                && !Describes(s, IsDoneEntry, bootedPath))
            || (d == out.switched && d.operation == Switch && d.storepath == currentPath
                && !Describes(s, IsDone, currentPath))
  {
    if d == out.switched && d != out.booted {
      assert d !in s + [out.booted];
      assert !Describes(s + [out.booted], IsDone, currentPath);
      forall e | e in s ensures e in s + [out.booted] {
      }
    }
  }

  /** The storepaths, other than that of d, of the done boot entries in s. */
  ghost function OtherEntryPaths(s: seq<Deployment>, d: Deployment): set<Path> {
    set e | e in s && e.status == Done && (e.operation == Boot || e.operation == Switch)
            && e.storepath != d.storepath :: e.storepath
  }

  /** A made up deployment is kept as a boot entry whenever fewer other storepaths
      have boot entries than there is room for; when there are that many and all are
      dated after the epoch, it is not. */
  lemma NewIsABootEntry(s: seq<Deployment>, bootedPath: Path, currentPath: Path, caps: Capacities, out: Outcome,
                        d: Deployment)
    requires Keeps(s, bootedPath, currentPath, caps, out) && d in out.kept && d !in s && caps.bootEntry >= 0
    ensures |OtherEntryPaths(s + [out.booted, out.switched], d)| < caps.bootEntry ==> d in out.bootEntries
    ensures caps.bootEntry <= |OtherEntryPaths(s, d)| && (forall e :: e in s ==> e.createdAt > 0) ==>
      d !in out.bootEntries
  {
    var all := s + [out.booted, out.switched];
    KeepsAddsOnlySystems(s, bootedPath, currentPath, caps, out);
    NewAreRunningSystems(s, bootedPath, currentPath, out, d);
    assert IsDoneEntry(d) && d in all;
    StorepathCardinality(out.bootEntries);
    if |OtherEntryPaths(all, d)| < caps.bootEntry {
      OnlyEntryOfItsPath(s, bootedPath, currentPath, caps, out, d);
      if d.storepath !in Storepaths(out.bootEntries) {
        assert Storepaths(out.bootEntries) <= OtherEntryPaths(all, d);
        SubsetCardinality(Storepaths(out.bootEntries), OtherEntryPaths(all, d));
      }
    }
    if d in out.bootEntries && forall e :: e in s ==> e.createdAt > 0 {
      ChosenAreAll(s, all, caps, out, d);
    }
  }

  lemma OnlyEntryOfItsPath(s: seq<Deployment>, bootedPath: Path, currentPath: Path, caps: Capacities, out: Outcome,
                           d: Deployment)
    requires Keeps(s, bootedPath, currentPath, caps, out) && d in out.kept && d !in s
    ensures forall e :: e in s + [out.booted, out.switched] && IsDoneEntry(e) && e.storepath == d.storepath ==> e == d
  {
    KeepsAddsOnlySystems(s, bootedPath, currentPath, caps, out);
    NewAreRunningSystems(s, bootedPath, currentPath, out, d);
    forall e | e in s + [out.booted, out.switched] && IsDoneEntry(e) && e.storepath == d.storepath ensures e == d {
      assert e in s ==> Describes(s, IsDoneEntry, d.storepath) && Describes(s, IsDone, d.storepath);
      assert out.booted in s + [out.booted];
    }
  }

  /** The oldest of all is a boot entry only when there is room for every path. */
  lemma ChosenAreAll(s: seq<Deployment>, all: seq<Deployment>, caps: Capacities, out: Outcome, d: Deployment)
    requires IsNewestPerStorepath(all, IsDoneEntry, caps.bootEntry, out.bootEntries) && d in out.bootEntries
    requires d.createdAt == 0 && (forall e :: e in s ==> e in all && e.createdAt > 0)
    ensures |OtherEntryPaths(s, d)| < caps.bootEntry
  {
    var paths := Storepaths(out.bootEntries);
    StorepathCardinality(out.bootEntries);
    assert d.storepath in paths;
    forall p | p in OtherEntryPaths(s, d) ensures p in paths - {d.storepath} {
      var e :| e in s && IsDoneEntry(e) && e.storepath == p;
      assert e in all && e.createdAt > d.createdAt;
    }
    SubsetCardinality(OtherEntryPaths(s, d), paths - {d.storepath});
  }

  // ----------------------------------------------------------- what is published

  /** The store publishes what is to be kept of s. */
  ghost predicate PublishesKept(st: Store, s: seq<Deployment>, sys: Systems)
    reads st
  {
    exists out :: st.Publishes(out) && Keeps(s, sys.booted, sys.current, st.caps, out)
  }

  lemma PublishedPassKeeps(st: Store, s: seq<Deployment>, sys: Systems)
    requires st.ValidCapacities() && FreshDummies(s, sys.bootedDummy, sys.currentDummy) && DistinctUuids(s)
    requires st.PassedOver(s, sys)
    ensures PublishesKept(st, s, sys)
  {
    var out, order :| Retains(s, st.RequestFor(sys), out, order) && st.Publishes(out);
    PassKeeps(s, st.RequestFor(sys), out, order);
  }

  /** Loading publishes what is to be kept of the loaded history: the deployments
      that it adds are made up like those of a pass, and kept on the same terms. */
  lemma LoadKeeps(st: Store, history: seq<Deployment>, bootedUuid: Uuid, currentUuid: Uuid, sys: Systems)
    requires st.ValidCapacities() && FreshDummies(history, sys.bootedDummy, sys.currentDummy)
    requires bootedUuid != currentUuid
      && {bootedUuid, currentUuid} !! Uuids(history) + {sys.bootedDummy, sys.currentDummy}
    requires DistinctUuids(history) && st.PassedOver(Seeded(history, bootedUuid, currentUuid, sys), sys)
    ensures PublishesKept(st, history, sys)
  {
    var s := Seeded(history, bootedUuid, currentUuid, sys);
    SeededIsDistinct(history, bootedUuid, currentUuid, sys);
    PublishedPassKeeps(st, s, sys);
    var out :| st.Publishes(out) && Keeps(s, sys.booted, sys.current, st.caps, out);
    SeedsAreMadeUp(history, bootedUuid, currentUuid, sys, st.caps, out);
  }

  lemma SeededIsDistinct(history: seq<Deployment>, bootedUuid: Uuid, currentUuid: Uuid, sys: Systems)
    requires FreshDummies(history, sys.bootedDummy, sys.currentDummy) && DistinctUuids(history)
    requires bootedUuid != currentUuid
      && {bootedUuid, currentUuid} !! Uuids(history) + {sys.bootedDummy, sys.currentDummy}
    ensures var s := Seeded(history, bootedUuid, currentUuid, sys);
      DistinctUuids(s) && FreshDummies(s, sys.bootedDummy, sys.currentDummy)
  {
    var d := Deployment(bootedUuid, sys.booted, Boot, Done, 0, false, "");
    var s := if HasStorepath(history, sys.booted) then history else history + [d];
    FreshAfter(history, d, sys);
    DistinctAfter(history, d);
    var e := Deployment(currentUuid, sys.current, Switch, Done, 0, false, "");
    FreshAfter(s, e, sys);
    DistinctAfter(s, e);
  }

  /** A deployment that loading adds is the only one of its storepath, so it is what
      the pass finds for the running system. */
  lemma SeedIsBooted(history: seq<Deployment>, bootedUuid: Uuid, currentUuid: Uuid, sys: Systems, booted: Deployment)
    requires {bootedUuid, currentUuid} !! Uuids(history)
    requires IsBooted(Seeded(history, bootedUuid, currentUuid, sys), sys.booted, booted)
    ensures IsBooted(history, sys.booted, booted)
    ensures !HasStorepath(history, sys.booted) ==> Seeded(history, bootedUuid, currentUuid, sys)[|history|] == booted
  {
    var s := Seeded(history, bootedUuid, currentUuid, sys);
    assert forall e :: e in history ==> e in s;
    if !HasStorepath(history, sys.booted) {
      var d := s[|history|];
      assert d in s && IsDoneEntry(d) && d.storepath == sys.booted;
      assert Describes(s, IsDoneEntry, sys.booted);
      assert forall e :: e in s && e.storepath == sys.booted ==> e == d;
    } else {
      assert forall e :: e in s && e.storepath == sys.booted ==> e in history;
      assert Describes(s, IsDoneEntry, sys.booted) <==> Describes(history, IsDoneEntry, sys.booted);
    }
  }

  lemma SeedIsSwitched(history: seq<Deployment>, bootedUuid: Uuid, currentUuid: Uuid, sys: Systems,
                       booted: Deployment, switched: Deployment)
    requires {bootedUuid, currentUuid} !! Uuids(history)
    requires var s := Seeded(history, bootedUuid, currentUuid, sys);
      IsBooted(s, sys.booted, booted) && IsSwitched(s, sys.current, booted, switched)
    ensures IsSwitched(history, sys.current, booted, switched)
    ensures forall e :: e in Seeded(history, bootedUuid, currentUuid, sys) ==>
      e in history || e == booted || e == switched
  {
    var s := Seeded(history, bootedUuid, currentUuid, sys);
    SeedIsBooted(history, bootedUuid, currentUuid, sys, booted);
    var known := history + [booted];
    assert forall e :: e in known ==> e in s + [booted];
    var first := if HasStorepath(history, sys.booted) then history else history + [booted];
    if HasStorepath(first, sys.current) {
      assert s == first;
      assert forall e :: e in s + [booted] <==> e in known;
      assert Describes(s + [booted], IsDone, sys.current) <==> Describes(known, IsDone, sys.current);
    } else {
      var c := s[|s| - 1];
      assert s == first + [c] && IsDone(c) && c.storepath == sys.current;
      assert c in s + [booted] && Describes(s + [booted], IsDone, sys.current);
      assert booted.storepath == sys.booted;
      assert sys.booted != sys.current;
      assert forall e :: e in known ==> e.storepath != sys.current;
      assert forall e :: e in s + [booted] && e.storepath == sys.current ==> e == c;
    }
  }

  lemma SeedsAreMadeUp(history: seq<Deployment>, bootedUuid: Uuid, currentUuid: Uuid, sys: Systems,
                       caps: Capacities, out: Outcome)
    requires {bootedUuid, currentUuid} !! Uuids(history)
    requires Keeps(Seeded(history, bootedUuid, currentUuid, sys), sys.booted, sys.current, caps, out)
    ensures Keeps(history, sys.booted, sys.current, caps, out)
  {
    var s := Seeded(history, bootedUuid, currentUuid, sys);
    SeedIsBooted(history, bootedUuid, currentUuid, sys, out.booted);
    SeedIsSwitched(history, bootedUuid, currentUuid, sys, out.booted, out.switched);
    var all, all' := s + [out.booted, out.switched], history + [out.booted, out.switched];
    assert forall e :: e in history ==> e in s;
    assert forall e :: e in all <==> e in all';
  }
}
