/** The deployment half of the store: every operation runs a retention pass. */
module DeploymentStore {
  import opened Common
  import opened Deployments
  import opened Retention
  import opened RetentionLaws
  import opened RetentionStability
  import opened RetentionSurvival
  import opened RetentionUpdates
  import opened SwitchInhibitors

  /** The two running systems as read by an operation, and the identifiers that
      its retention pass may give to dummies. */
  datatype Systems = Systems(booted: Path, current: Path, bootedDummy: Uuid, currentDummy: Uuid)

  function UuidList(s: seq<Deployment>): seq<Uuid> {
    seq(|s|, i requires 0 <= i < |s| => s[i].uuid)
  }

  function Dummies(sys: Systems): set<Uuid> {
    {sys.bootedDummy, sys.currentDummy}
  }

  ghost predicate FirstWith(s: seq<Deployment>, uuid: Uuid, i: int) {
    0 <= i < |s| && s[i].uuid == uuid && forall k :: 0 <= k < i ==> s[k].uuid != uuid
  }

  function Started(d: Deployment): Deployment {
    d.(status := Running)
  }

  function Finished(d: Deployment, failed: bool, profilePath: Path): Deployment {
    d.(status := if failed then Failed else Done, ended := true, profilePath := profilePath)
  }

  ghost predicate HasStorepath(s: seq<Deployment>, path: Path) {
    exists d :: d in s && d.storepath == path
  }

  /** A loaded history, with a dummy for each running system it does not name. */
  ghost function Seeded(history: seq<Deployment>, bootedUuid: Uuid, currentUuid: Uuid, sys: Systems): seq<Deployment> {
    var s := if HasStorepath(history, sys.booted) then history
             else history + [Deployment(bootedUuid, sys.booted, Boot, Done, 0, false, "")];
    if HasStorepath(s, sys.current) then s
    else s + [Deployment(currentUuid, sys.current, Switch, Done, 0, false, "")]
  }

  /** The scan for the latest deployment, on a list. */
  function Latest(s: seq<Deployment>): Option<Deployment> {
    if s == [] then None
    else
      var d := s[|s| - 1];
      match Latest(s[..|s| - 1])
      case None => Some(d)
      case Some(l) => if d.ended && d.createdAt > l.createdAt then Some(d) else Some(l)
  }

  /** The entry k is newer than those the scan has held before, and no later one is. */
  ghost predicate IsLatestAt(s: seq<Deployment>, k: int) {
    && 0 <= k < |s| && (k > 0 ==> s[k].ended && s[0].createdAt < s[k].createdAt)
    && (forall j :: 0 < j < k && s[j].ended ==> s[j].createdAt < s[k].createdAt)
    && (forall j :: k < j < |s| && s[j].ended ==> s[j].createdAt <= s[k].createdAt)
  }

  /** On any list the scan finds the newest ended deployment when it is newer than
      the first one, and the first one otherwise; of equally new ones the first. */
  lemma {:induction false} LatestIs(s: seq<Deployment>, k: nat)
    requires k < |s|
    ensures IsLatestAt(s, k) ==> Latest(s) == Some(s[k])
  {
    if IsLatestAt(s, k) {
      var i := LatestExists(s);
      OnlyOneIsLatest(s, i, k);
    }
  }

  lemma OnlyOneIsLatest(s: seq<Deployment>, i: nat, k: nat)
    requires IsLatestAt(s, i) && IsLatestAt(s, k)
    ensures i == k
  {
  }

  lemma {:induction false} LatestExists(s: seq<Deployment>) returns (i: nat)
    requires s != []
    ensures IsLatestAt(s, i) && Latest(s) == Some(s[i])
  {
    var front, d := s[..|s| - 1], s[|s| - 1];
    i := 0;
    if |s| > 1 {
      i := LatestExists(front);
      assert s[i] == front[i];
      if d.ended && d.createdAt > s[i].createdAt {
        i := |s| - 1;
      }
    }
  }

  /** On a list sorted newest first the scan finds the first entry. */
  lemma {:induction false} LatestIsFirst(s: seq<Deployment>)
    requires NewestFirst(s) && s != []
    ensures Latest(s) == Some(s[0])
    ensures forall d :: d in s ==> d.createdAt <= s[0].createdAt
  {
    if |s| > 1 {
      LatestIsFirst(s[..|s| - 1]);
      assert s[..|s| - 1][0] == s[0];
    }
  }

  class Store {
    const caps: Capacities
    var deployments: seq<Deployment>
    var switched: Uuid
    var booted: Uuid
    var bootEntries: seq<Uuid>
    var successful: seq<Uuid>
    var any: seq<Uuid>

    predicate ValidCapacities() {
      caps.bootEntry >= 1 && caps.successful >= 1 && caps.any >= 1
    }

    /** What holds from the first retention pass on: every identifier the store
        publishes resolves, and the history is unique, sorted and bounded. */
    ghost predicate Retained()
      reads this
    {
      && DistinctUuids(deployments) && NewestFirst(deployments)
      && |deployments| <= 2 + caps.bootEntry + caps.successful + caps.any
      && switched in Uuids(deployments) && booted in Uuids(deployments)
      && (forall u :: u in bootEntries || u in successful || u in any ==> u in Uuids(deployments))
      && |bootEntries| <= caps.bootEntry && |successful| <= caps.successful && |any| <= caps.any
    }

    constructor (caps: Capacities)
      requires caps.bootEntry >= 1 && caps.successful >= 1 && caps.any >= 1
      ensures ValidCapacities() && this.caps == caps && deployments == []
    {
      this.caps := caps;
      deployments, switched, booted, bootEntries, successful, any := [], "", "", [], [], [];
    }

    /** Creating a store is refused exactly when a capacity is below one or the
        directory of the garbage collector roots cannot be created. */
    static method New(caps: Capacities, gcRootsCreated: bool) returns (s: Option<Store>)
      ensures s.None? <==> caps.bootEntry < 1 || caps.successful < 1 || caps.any < 1 || !gcRootsCreated
      ensures s.Some? ==>
        fresh(s.value) && s.value.ValidCapacities() && s.value.caps == caps && s.value.deployments == []
    {
      if caps.bootEntry < 1 || caps.successful < 1 || caps.any < 1 {
        return None;
      }
      var st := new Store(caps);
      if !gcRootsCreated {
        return None;
      }
      return Some(st);
    }

    function RequestFor(sys: Systems): Request {
      Request(sys.booted, sys.current, caps, sys.bootedDummy, sys.currentDummy)
    }

    /** The store publishes the outcome of a retention pass over `input`. */
    ghost predicate PassedOver(input: seq<Deployment>, sys: Systems)
      reads this
    {
      exists out, order :: Retains(input, RequestFor(sys), out, order) && Publishes(out)
    }

    ghost predicate Publishes(out: Outcome)
      reads this
    {
      && deployments == out.kept && switched == out.switched.uuid && booted == out.booted.uuid
      && bootEntries == UuidList(out.bootEntries) && successful == UuidList(out.successful) && any == UuidList(out.any)
    }

    /** The retention pass over `input`, which becomes the history. */
    method UpdateDeployments(input: seq<Deployment>, sys: Systems)
      returns (ghost out: Outcome, ghost order: seq<Deployment>)
      requires ValidCapacities() && FreshDummies(input, sys.bootedDummy, sys.currentDummy)
      modifies this
      ensures Retained() && Retains(input, RequestFor(sys), out, order)
      ensures Publishes(out)
    {
      var result;
      result, order := RetainResolved(input, RequestFor(sys));
      out := result;
      deployments, switched, booted := result.kept, result.switched.uuid, result.booted.uuid;
      bootEntries, successful, any := UuidList(result.bootEntries), UuidList(result.successful), UuidList(result.any);
    }

    method DeploymentGet(uuid: Uuid) returns (i: nat)
      ensures i <= |deployments|
      ensures i < |deployments| ==> deployments[i].uuid == uuid
      ensures forall k :: 0 <= k < i ==> deployments[k].uuid != uuid
      ensures i == |deployments| <==> uuid !in Uuids(deployments)
    {
      i := 0;
      while i < |deployments|
        invariant i <= |deployments|
        invariant forall k :: 0 <= k < i ==> deployments[k].uuid != uuid
      {
        if deployments[i].uuid == uuid {
          return;
        }
        i := i + 1;
      }
    }

    method NewDeployment(storepath: Path, submitted: Operation, current: Inhibitors, next: Inhibitors,
                         uuid: Uuid, now: int, sys: Systems)
      returns (d: Deployment)
      requires ValidCapacities() && FreshDummies(deployments, sys.bootedDummy, sys.currentDummy)
      requires uuid !in Uuids(deployments) && uuid != sys.bootedDummy && uuid != sys.currentDummy
      modifies this
      ensures Retained() && PassedOver(old(deployments) + [d], sys)
      ensures d.uuid == uuid && d.storepath == storepath && d.status == Init && d.createdAt == now && !d.ended
        && d.profilePath == ""
      ensures d.operation == if Inhibited(current, next) then Downgraded(submitted) else submitted
      ensures ComesFrom(deployments, old(deployments) + [d], sys)
      ensures Unrivalled(old(deployments), d) && d.status != Done ==>
        Survival(old(deployments), d, deployments, caps.any)
      ensures LeadsBy(old(deployments), d) ==> IsOnTop(deployments, d.uuid) && deployments[0] == d
    {
      var operation := ComputeOperation(submitted, current, next);
      d := Deployment(uuid, storepath, operation, Init, now, false, "");
      AddDeployment(d, sys);
    }

    /** The pass that a new deployment enters. */
    method AddDeployment(d: Deployment, sys: Systems)
      requires ValidCapacities() && FreshDummies(deployments, sys.bootedDummy, sys.currentDummy)
      requires d.uuid !in Uuids(deployments) && d.uuid != sys.bootedDummy && d.uuid != sys.currentDummy
      modifies this
      ensures Retained() && PassedOver(old(deployments) + [d], sys)
      ensures ComesFrom(deployments, old(deployments) + [d], sys)
      ensures Unrivalled(old(deployments), d) && d.status != Done ==>
        Survival(old(deployments), d, deployments, caps.any)
      ensures LeadsBy(old(deployments), d) ==> IsOnTop(deployments, d.uuid) && deployments[0] == d
    {
      var input := deployments + [d];
      FreshAfter(deployments, d, sys);
      ghost var out, order := UpdateDeployments(input, sys);
      KeptComesFrom(input, sys, RequestFor(sys), out, order);
      PassOverNew(old(deployments), d, RequestFor(sys), out, order);
      NewSurvival(old(deployments), d, RequestFor(sys), out, order);
    }

    method DeploymentStarted(uuid: Uuid, sys: Systems) returns (ok: bool)
      requires ValidCapacities() && FreshDummies(deployments, sys.bootedDummy, sys.currentDummy)
      modifies this
      ensures ok <==> uuid in Uuids(old(deployments))
      ensures !ok ==> unchanged(this)
      ensures Uuids(deployments) <= Uuids(old(deployments)) + Dummies(sys)
      ensures ok ==> Retained()
      ensures ok ==> (exists i :: FirstWith(old(deployments), uuid, i)
                          && PassedOver(Updated(old(deployments), i, Started(old(deployments)[i])), sys))
      ensures forall d :: d in old(deployments) && d.uuid == uuid && Unrivalled(old(deployments), d) ==>
        Survival(old(deployments), Started(d), deployments, caps.any)
      ensures IsOnTop(old(deployments), uuid) ==>
        IsOnTop(deployments, uuid) && deployments[0] == Started(old(deployments)[0])
    {
      var i := DeploymentGet(uuid);
      if i == |deployments| {
        return false;
      }
      assert FirstWith(deployments, uuid, i);
      var d := deployments[i].(status := Running);
      ghost var before := deployments;
      UpdateExisting(i, d, sys);
      OnlyOneWith(before, uuid, i);
      return true;
    }

    method DeploymentFinished(uuid: Uuid, failed: bool, profilePath: Path, sys: Systems) returns (ok: bool)
      requires ValidCapacities() && FreshDummies(deployments, sys.bootedDummy, sys.currentDummy)
      modifies this
      ensures ok <==> uuid in Uuids(old(deployments))
      ensures !ok ==> unchanged(this)
      ensures Uuids(deployments) <= Uuids(old(deployments)) + Dummies(sys)
      ensures ok ==> Retained()
      ensures ok ==> (exists i :: FirstWith(old(deployments), uuid, i)
                          && PassedOver(Updated(old(deployments), i,
                                                Finished(old(deployments)[i], failed, profilePath)), sys))
      ensures failed ==> forall d :: d in old(deployments) && d.uuid == uuid && Unrivalled(old(deployments), d) ==>
        Survival(old(deployments), Finished(d, failed, profilePath), deployments, caps.any)
      ensures IsOnTop(old(deployments), uuid) ==>
        IsOnTop(deployments, uuid) && deployments[0] == Finished(old(deployments)[0], failed, profilePath)
    {
      var i := DeploymentGet(uuid);
      if i == |deployments| {
        return false;
      }
      assert FirstWith(deployments, uuid, i);
      var d := deployments[i].(status := if failed then Failed else Done, ended := true, profilePath := profilePath);
      ghost var before := deployments;
      UpdateExisting(i, d, sys);
      OnlyOneWith(before, uuid, i);
      return true;
    }

    /** The pass after a deployment of the history has been updated: it visits
        the updated deployment twice. */
    method UpdateExisting(i: nat, d: Deployment, sys: Systems)
      requires ValidCapacities() && FreshDummies(deployments, sys.bootedDummy, sys.currentDummy)
      requires i < |deployments| && d.uuid == deployments[i].uuid && d.createdAt == deployments[i].createdAt
      modifies this
      ensures Retained() && PassedOver(Updated(old(deployments), i, d), sys)
      ensures Uuids(deployments) <= Uuids(old(deployments)) + Dummies(sys)
      ensures Unrivalled(old(deployments), d) && d.status != Done ==>
        Survival(old(deployments), d, deployments, caps.any)
      ensures i == 0 && IsOnTop(old(deployments), d.uuid) ==> IsOnTop(deployments, d.uuid) && deployments[0] == d
    {
      var input := Updated(deployments, i, d);
      FreshUpdated(deployments, i, d, sys);
      ghost var out, order := UpdateDeployments(input, sys);
      PassOverUpdated(old(deployments), i, d, sys, RequestFor(sys), out, order);
      UpdatedSurvival(old(deployments), i, d, RequestFor(sys), out, order);
    }

    /** Of a retained history of two or more this is a newest deployment, the
        one that the scan for the latest finds; there is none otherwise. */
    method LastDeployment() returns (d: Option<Deployment>)
      ensures d.None? <==> |deployments| < 2
      ensures d.Some? ==> d.value in deployments
      ensures d.Some? && Retained() ==>
        d == Latest(deployments) && forall e :: e in deployments ==> e.createdAt <= d.value.createdAt
    {
      if Retained() {
        LastIsLatest(this);
      }
      return if |deployments| > 1 then Some(deployments[0]) else None;
    }

    method GetDeploymentLatest() returns (latest: Option<Deployment>)
      ensures latest == Latest(deployments)
    {
      latest := None;
      for i := 0 to |deployments|
        invariant latest == Latest(deployments[..i])
      {
        var d := deployments[i];
        assert deployments[..i + 1][..i] == deployments[..i];
        if latest == None || (d.ended && d.createdAt > latest.value.createdAt) {
          latest := Some(d);
        }
      }
      assert deployments[..|deployments|] == deployments;
    }

    method GetDeploymentProfilePaths() returns (paths: set<Path>)
      ensures forall p :: p in paths <==> p != "" && exists d :: d in deployments && d.profilePath == p
    {
      paths := {};
      for i := 0 to |deployments|
        invariant forall p :: p in paths <==> p != "" && exists k :: 0 <= k < i && deployments[k].profilePath == p
      {
        if deployments[i].profilePath != "" {
          paths := paths + {deployments[i].profilePath};
        }
      }
    }

    method GetDeploymentByOutpath(path: Path) returns (found: bool)
      ensures found <==> HasStorepath(deployments, path)
    {
      for i := 0 to |deployments|
        invariant forall k :: 0 <= k < i ==> deployments[k].storepath != path
      {
        if deployments[i].storepath == path {
          return true;
        }
      }
      return false;
    }

    /** Loading replaces the history by any list whatsoever, adds a dummy for
        each running system whose storepath it lacks, and runs a pass. */
    method Load(history: seq<Deployment>, bootedUuid: Uuid, currentUuid: Uuid, sys: Systems)
      requires ValidCapacities() && FreshDummies(history, sys.bootedDummy, sys.currentDummy)
      requires bootedUuid != currentUuid
        && {bootedUuid, currentUuid} !! Uuids(history) + {sys.bootedDummy, sys.currentDummy}
      modifies this
      ensures Retained() && PassedOver(Seeded(history, bootedUuid, currentUuid, sys), sys)
      ensures exists d :: d in deployments && BootedFrom(d, sys.booted)
      ensures DistinctUuids(history) ==> exists d :: d in deployments && SwitchedTo(d, sys.current)
    {
      deployments := history;
      var found := GetDeploymentByOutpath(sys.booted);
      if !found {
        var d := Deployment(bootedUuid, sys.booted, Boot, Done, 0, false, "");
        FreshAfter(deployments, d, sys);
        DistinctAfter(deployments, d);
        deployments := deployments + [d];
      }
      found := GetDeploymentByOutpath(sys.current);
      if !found {
        var d := Deployment(currentUuid, sys.current, Switch, Done, 0, false, "");
        FreshAfter(deployments, d, sys);
        DistinctAfter(deployments, d);
        deployments := deployments + [d];
      }
      ghost var input := deployments;
      ghost var out, order := UpdateDeployments(deployments, sys);
      KeptIsWellFormed(input, RequestFor(sys), out, order);
      if DistinctUuids(history) {
        KeptMembers(input, RequestFor(sys), out, order);
      }
    }
  }

  /** Everything a pass publishes can be found in what it keeps. */
  ghost predicate Resolves(out: Outcome, caps: Capacities) {
    && DistinctUuids(out.kept) && NewestFirst(out.kept)
    && |out.kept| <= 2 + caps.bootEntry + caps.successful + caps.any
    && out.booted.uuid in Uuids(out.kept) && out.switched.uuid in Uuids(out.kept)
    && (forall u :: u in UuidList(out.bootEntries) || u in UuidList(out.successful) || u in UuidList(out.any) ==>
         u in Uuids(out.kept))
    && |out.bootEntries| <= caps.bootEntry && |out.successful| <= caps.successful && |out.any| <= caps.any
  }

  lemma OutcomeResolves(input: seq<Deployment>, q: Request, out: Outcome, order: seq<Deployment>)
    requires Retains(input, q, out, order) && WithCapacities(q)
    ensures Resolves(out, q.caps)
  {
    KeptIsWellFormed(input, q, out, order);
    UuidListMembers(out.bootEntries);
    UuidListMembers(out.successful);
    UuidListMembers(out.any);
  }

  method RetainResolved(input: seq<Deployment>, q: Request) returns (out: Outcome, ghost order: seq<Deployment>)
    requires Fresh(input, q) && WithCapacities(q)
    ensures Retains(input, q, out, order) && Resolves(out, q.caps)
  {
    out := Retain(input, q);
    order :| Retains(input, q, out, order);
    OutcomeResolves(input, q, out, order);
  }

  lemma UuidListMembers(s: seq<Deployment>)
    ensures forall u :: u in UuidList(s) <==> u in Uuids(s)
  {
    var l := UuidList(s);
    forall u | u in Uuids(s) ensures u in l {
      var d :| d in s && d.uuid == u;
      var i :| 0 <= i < |s| && s[i] == d;
      assert l[i] == u;
    }
  }

  /** d is created after every deployment of the history and after the epoch. */
  ghost predicate LeadsBy(s: seq<Deployment>, d: Deployment) {
    d.createdAt > 0 && forall e :: e in s ==> e.createdAt < d.createdAt
  }

  /** The first deployment of a history without repetitions carries the UUID and
      is newer than all others. */
  ghost predicate IsOnTop(s: seq<Deployment>, uuid: Uuid) {
    s != [] && s[0].uuid == uuid && s[0].createdAt > 0 && DistinctUuids(s) && Leads(s, s[0])
  }

  /** No two deployments of the history share an identifier, and none but d
      itself was created when d was. */
  ghost predicate Unrivalled(s: seq<Deployment>, d: Deployment) {
    DistinctUuids(s) && d.createdAt > 0 && forall e :: e in s && e.uuid != d.uuid ==> e.createdAt != d.createdAt
  }

  /** d is in the history after a pass exactly when fewer than n deployments were
      newer, and then the same deployments are still newer. */
  ghost predicate Survival(before: seq<Deployment>, d: Deployment, after: seq<Deployment>, n: int) {
    && (d.uuid in Uuids(after) <==> |NewerThan(before, d)| < n)
    && (d.uuid in Uuids(after) ==> d in after && Unrivalled(after, d) && NewerThan(after, d) == NewerThan(before, d))
  }

  lemma OnlyOneWith(s: seq<Deployment>, uuid: Uuid, i: nat)
    requires i < |s| && s[i].uuid == uuid
    ensures DistinctUuids(s) ==> forall d :: d in s && d.uuid == uuid ==> d == s[i]
  {
  }

  /** A pass over the history and d, visited once or more. */
  lemma PassSurvival(s: seq<Deployment>, input: seq<Deployment>, d: Deployment, q: Request, out: Outcome,
                     order: seq<Deployment>)
    requires Fresh(input, q) && WithCapacities(q) && Retains(input, q, out, order)
    requires DistinctBut(input, d) && d in input && d.status != Done && d.createdAt > 0
    requires Stands(input, d) && NewerThan(input, d) == NewerThan(s, d)
    ensures Survival(s, d, out.kept, q.caps.any)
  {
    var all := input + Minted(input, q);
    StandsAmongDummies(input, q, d);
    UnfinishedSurvivesIff(input, q, out, order, d);
    KeptIsWellFormed(input, q, out, order);
    SameMembers(order, all);
    StandsIn(all, out.kept, d);
  }

  /** Nothing else has the identifier or the creation time of d. */
  ghost predicate Stands(s: seq<Deployment>, d: Deployment) {
    forall e :: e in s ==> e == d || (e.uuid != d.uuid && e.createdAt != d.createdAt)
  }

  lemma StandsAmongDummies(input: seq<Deployment>, q: Request, d: Deployment)
    requires Fresh(input, q) && Stands(input, d) && d in input && d.createdAt > 0
    ensures Stands(input + Minted(input, q), d) && NoRival(input + Minted(input, q), d)
  {
    MintedAre(input, q);
    assert d.uuid in Uuids(input);
  }

  lemma StandsIn(all: seq<Deployment>, kept: seq<Deployment>, d: Deployment)
    requires Stands(all, d) && forall e :: e in kept ==> e in all
    ensures Stands(kept, d) && (d.uuid in Uuids(kept) <==> d in kept)
  {
  }

  lemma NewSurvival(s: seq<Deployment>, d: Deployment, q: Request, out: Outcome, order: seq<Deployment>)
    requires d.uuid !in Uuids(s) && Fresh(s + [d], q) && WithCapacities(q) && Retains(s + [d], q, out, order)
    ensures Unrivalled(s, d) && d.status != Done ==> Survival(s, d, out.kept, q.caps.any)
  {
    if Unrivalled(s, d) && d.status != Done {
      var input := s + [d];
      forall e | e in input ensures e == d || (e in s && e.uuid in Uuids(s)) {
      }
      DistinctAfter(s, d);
      PassSurvival(s, input, d, q, out, order);
    }
  }

  lemma UpdatedSurvival(s: seq<Deployment>, i: nat, d: Deployment, q: Request, out: Outcome, order: seq<Deployment>)
    requires i < |s| && d.uuid == s[i].uuid && d.createdAt == s[i].createdAt
    requires Fresh(Updated(s, i, d), q) && WithCapacities(q) && Retains(Updated(s, i, d), q, out, order)
    ensures Unrivalled(s, d) && d.status != Done ==> Survival(s, d, out.kept, q.caps.any)
  {
    if Unrivalled(s, d) && d.status != Done {
      UpdatedMembers(s, i, d);
      PassSurvival(s, Updated(s, i, d), d, q, out, order);
    }
  }

  lemma UpdatedMembers(s: seq<Deployment>, i: nat, d: Deployment)
    requires i < |s| && d.uuid == s[i].uuid && d.createdAt == s[i].createdAt && Unrivalled(s, d)
    ensures var t := Updated(s, i, d);
      d in t && DistinctBut(t, d) && Stands(t, d) && NewerThan(t, d) == NewerThan(s, d)
  {
    var t := Updated(s, i, d);
    forall k | 0 <= k < |t| ensures t[k] == d || (k < |s| && k != i && t[k] == s[k] && s[k] in s) {
    }
    forall e | e in s && e.createdAt > d.createdAt ensures e in t {
      var k :| 0 <= k < |s| && s[k] == e;
      assert t[k] == e;
    }
  }

  lemma LeadsAppended(s: seq<Deployment>, d: Deployment)
    requires LeadsBy(s, d) && d.uuid !in Uuids(s)
    ensures Leads(s + [d], d)
  {
    forall e | e in s + [d] ensures e == d || (e.createdAt < d.createdAt && e.uuid != d.uuid) {
      assert e in s ==> e.uuid in Uuids(s);
    }
  }

  lemma PassOverNew(s: seq<Deployment>, d: Deployment, q: Request, out: Outcome, order: seq<Deployment>)
    requires d.uuid !in Uuids(s) && Fresh(s + [d], q) && WithCapacities(q) && q.caps.any >= 1
    requires Retains(s + [d], q, out, order)
    ensures LeadsBy(s, d) ==> IsOnTop(out.kept, d.uuid) && out.kept[0] == d
  {
    if LeadsBy(s, d) {
      LeadsAppended(s, d);
      NewestSurvives(s + [d], q, out, order, d);
      KeptIsWellFormed(s + [d], q, out, order);
    }
  }

  lemma PassOverUpdated(s: seq<Deployment>, i: nat, d: Deployment, sys: Systems, q: Request, out: Outcome,
                        order: seq<Deployment>)
    requires i < |s| && d.uuid == s[i].uuid && d.createdAt == s[i].createdAt
    requires Fresh(Updated(s, i, d), q) && WithCapacities(q) && q.caps.any >= 1
    requires q.bootedDummy == sys.bootedDummy && q.switchedDummy == sys.currentDummy
    requires Retains(Updated(s, i, d), q, out, order)
    ensures Uuids(out.kept) <= Uuids(s) + Dummies(sys)
    ensures i == 0 && IsOnTop(s, d.uuid) ==> IsOnTop(out.kept, d.uuid) && out.kept[0] == d
  {
    KeptComesFrom(Updated(s, i, d), sys, q, out, order);
    UpdatedUuids(s, i, d);
    if i == 0 && IsOnTop(s, d.uuid) {
      LeadsUpdated(s, i, d);
      NewestSurvives(Updated(s, i, d), q, out, order, d);
      KeptIsWellFormed(Updated(s, i, d), q, out, order);
    }
  }

  lemma LeadsUpdated(s: seq<Deployment>, i: nat, d: Deployment)
    requires DistinctUuids(s) && i < |s| && Leads(s, s[i])
    requires d.uuid == s[i].uuid && d.createdAt == s[i].createdAt
    ensures Leads(Updated(s, i, d), d)
  {
    var t := Updated(s, i, d);
    forall e | e in t ensures e == d || (e.createdAt < d.createdAt && e.uuid != d.uuid) {
      var k :| 0 <= k < |t| && t[k] == e;
      assert k != i && k < |s| ==> e == s[k] && e in s;
    }
  }

  lemma FreshAfter(s: seq<Deployment>, d: Deployment, sys: Systems)
    requires FreshDummies(s, sys.bootedDummy, sys.currentDummy) && d.uuid != sys.bootedDummy
      && d.uuid != sys.currentDummy
    ensures FreshDummies(s + [d], sys.bootedDummy, sys.currentDummy)
    ensures Uuids(s + [d]) == Uuids(s) + {d.uuid}
  {
    assert forall e :: e in s + [d] <==> e in s || e == d;
  }

  lemma DistinctAfter(s: seq<Deployment>, d: Deployment)
    requires d.uuid !in Uuids(s)
    ensures DistinctUuids(s) ==> DistinctUuids(s + [d])
  {
    assert forall i :: 0 <= i < |s| ==> s[i].uuid in Uuids(s);
  }

  lemma UpdatedUuids(s: seq<Deployment>, i: nat, d: Deployment)
    requires i < |s| && d.uuid == s[i].uuid
    ensures forall e :: e in Updated(s, i, d) ==> e.uuid in Uuids(s)
  {
    assert s[i].uuid in Uuids(s);
    assert forall e :: e in Updated(s, i, d) ==> e in s || e == d;
  }

  lemma FreshUpdated(s: seq<Deployment>, i: nat, d: Deployment, sys: Systems)
    requires i < |s| && FreshDummies(s, sys.bootedDummy, sys.currentDummy) && d.uuid == s[i].uuid
    ensures FreshDummies(Updated(s, i, d), sys.bootedDummy, sys.currentDummy)
  {
    UpdatedUuids(s, i, d);
  }

  /** What the store publishes after the update of a deployment that shares its
      creation time with no other: lists that fall one short under exactly the
      conditions of IsLength. */
  lemma PublishedLengths(st: Store, s: seq<Deployment>, i: nat, d: Deployment, sys: Systems)
    requires st.ValidCapacities() && IsUpdate(s, i, d, st.RequestFor(sys)) && st.PassedOver(Updated(s, i, d), sys)
    requires NoRival(AllOf(s, i, d, st.RequestFor(sys)), d)
    ensures var all := AllOf(s, i, d, st.RequestFor(sys));
      && IsLength(|st.any|, all, d, Anything, st.caps.any)
      && IsLength(|st.successful|, all, d, Succeeded, st.caps.successful)
      && |st.bootEntries| == Full(st.caps.bootEntry, |EligiblePaths(all, SucceededBootEntry)|)
  {
    var out, order :| Retains(Updated(s, i, d), st.RequestFor(sys), out, order) && st.Publishes(out);
    UpdatedListIsOneShort(s, i, d, st.RequestFor(sys), out, order);
  }

  /** Everything in `kept` is in `input`, except for dummies. */
  ghost predicate ComesFrom(kept: seq<Deployment>, input: seq<Deployment>, sys: Systems) {
    forall e :: e in kept ==> e in input || (e.createdAt == 0 && e.uuid in Dummies(sys))
  }

  lemma KeptComesFrom(input: seq<Deployment>, sys: Systems, q: Request, out: Outcome, order: seq<Deployment>)
    requires Retains(input, q, out, order) && WithCapacities(q)
    requires q.bootedDummy == sys.bootedDummy && q.switchedDummy == sys.currentDummy
    ensures ComesFrom(out.kept, input, sys)
  {
    KeptIsWellFormed(input, q, out, order);
    OrderComesFrom(input, sys, q, order);
  }

  lemma OrderComesFrom(input: seq<Deployment>, sys: Systems, q: Request, order: seq<Deployment>)
    requires multiset(order) == multiset(input + Minted(input, q))
    requires q.bootedDummy == sys.bootedDummy && q.switchedDummy == sys.currentDummy
    ensures ComesFrom(order, input, sys)
  {
    SameMembers(order, input + Minted(input, q));
    assert forall e :: e in Minted(input, q) ==> e == BootedDummy(q) || e == SwitchedDummy(q);
  }

  lemma UuidsComeFrom(kept: seq<Deployment>, s: seq<Deployment>, d: Deployment, sys: Systems)
    requires ComesFrom(kept, s + [d], sys)
    ensures Uuids(kept) <= Uuids(s) + {d.uuid} + Dummies(sys)
  {
    assert forall e :: e in s + [d] ==> e in s || e == d;
  }

  /** In a retained history the two ways of asking for the last deployment agree
      and answer with a newest one. */
  lemma LastIsLatest(s: Store)
    requires s.Retained()
    ensures |s.deployments| > 1 ==> Latest(s.deployments) == Some(s.deployments[0])
    ensures |s.deployments| > 1 ==> forall d :: d in s.deployments ==> d.createdAt <= s.deployments[0].createdAt
  {
    if |s.deployments| > 1 {
      LatestIsFirst(s.deployments);
    }
  }
}
