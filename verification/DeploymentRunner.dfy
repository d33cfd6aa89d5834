/** What the deployer's runner does with the store for one deployment. */
module DeploymentRunner {
  import opened Common
  import opened Deployments
  import opened Retention
  import opened RetentionSurvival
  import opened SwitchInhibitors
  import opened DeploymentStore

  /** One deployment to run: what is submitted, what the clock and the identifier
      generator yield, and how the deployment itself turns out. */
  datatype Job = Job(
    storepath: Path,
    submitted: Operation,
    current: Inhibitors,
    next: Inhibitors,
    uuid: Uuid,
    now: int,
    bootedPath: Path,
    currentPath: Path,
    dummies: seq<Uuid>,
    failed: bool,
    profilePath: Path)

  /** The two error paths on which the runner drops the deployment. */
  datatype RunResult = Completed | NotStarted | NotFinished

  predicate SixDummies(j: Job) {
    |j.dummies| == 6 && forall i, k :: 0 <= i < k < 6 ==> j.dummies[i] != j.dummies[k]
  }

  function JobUuids(j: Job): set<Uuid> {
    {j.uuid} + set i | 0 <= i < |j.dummies| :: j.dummies[i]
  }

  predicate FreshJob(j: Job, used: set<Uuid>) {
    SixDummies(j) && j.uuid !in j.dummies && JobUuids(j) !! used
  }

  function SystemsAt(j: Job, k: nat): Systems
    requires SixDummies(j) && k < 3
  {
    Systems(j.bootedPath, j.currentPath, j.dummies[2 * k], j.dummies[2 * k + 1])
  }

  lemma DummiesOf(j: Job, k: nat)
    requires SixDummies(j) && k < 3
    ensures Dummies(SystemsAt(j, k)) <= JobUuids(j)
    ensures SystemsAt(j, k).bootedDummy != SystemsAt(j, k).currentDummy
  {
  }

  /** The next pass can still mint dummies: earlier passes used other identifiers. */
  lemma StillFresh(j: Job, before: seq<Deployment>, after: seq<Deployment>, k: nat)
    requires FreshJob(j, Uuids(before)) && 1 <= k < 3
    requires Uuids(after) <= Uuids(before) + {j.uuid} + Dummies(SystemsAt(j, 0)) +
      if k == 2 then Dummies(SystemsAt(j, 1)) else {}
    ensures FreshDummies(after, SystemsAt(j, k).bootedDummy, SystemsAt(j, k).currentDummy)
    ensures Uuids(after) <= Uuids(before) + JobUuids(j)
  {
    DummiesOf(j, k);
    UsedUuids(j);
    var b, c := j.dummies[2 * k], j.dummies[2 * k + 1];
    assert b in JobUuids(j) && c in JobUuids(j);
    assert forall i :: 0 <= i < 2 * k ==> j.dummies[i] != b && j.dummies[i] != c;
  }

  /** The part before the deployment itself: it enters the history and is marked
      as running. */
  method StartDeployment(store: Store, j: Job) returns (ok: bool, dpl: Deployment)
    requires store.ValidCapacities()
    requires FreshJob(j, Uuids(store.deployments))
    modifies store
    ensures store.Retained()
    ensures dpl.uuid == j.uuid && dpl.createdAt == j.now && dpl.storepath == j.storepath
    ensures dpl.operation == if Inhibited(j.current, j.next) then Downgraded(j.submitted) else j.submitted
    ensures FreshDummies(store.deployments, SystemsAt(j, 2).bootedDummy, SystemsAt(j, 2).currentDummy)
    ensures Uuids(store.deployments) <= Uuids(old(store.deployments)) + JobUuids(j)
    ensures Unrivalled(old(store.deployments), dpl) ==>
      (ok <==> |NewerThan(old(store.deployments), dpl)| < store.caps.any)
        && (ok <==> j.uuid in Uuids(store.deployments))
    ensures LeadsBy(old(store.deployments), dpl) ==>
      && ok && IsOnTop(store.deployments, j.uuid)
      && store.deployments[0] == Deployment(j.uuid, j.storepath, dpl.operation, Running, j.now, false, "")
  {
    FirstPassIsFresh(j, store.deployments);
    ghost var before := store.deployments;
    dpl := store.NewDeployment(j.storepath, j.submitted, j.current, j.next, j.uuid, j.now, SystemsAt(j, 0));
    UuidsComeFrom(store.deployments, before, dpl, SystemsAt(j, 0));
    StillFresh(j, before, store.deployments, 1);
    ok := store.DeploymentStarted(dpl.uuid, SystemsAt(j, 1));
    StillFresh(j, before, store.deployments, 2);
  }

  /** When nothing else was created at the same time, the runner completes the
      deployment exactly when fewer deployments of the old history than the "any"
      capacity are newer, and otherwise already fails to start it. Dated after all
      others, the deployment goes through and ends on top of the history. */
  method RunDeployment(store: Store, j: Job) returns (r: RunResult, ghost d: Deployment)
    requires store.ValidCapacities()
    requires FreshJob(j, Uuids(store.deployments))
    modifies store
    ensures store.Retained()
    ensures d.uuid == j.uuid && d.createdAt == j.now && d.storepath == j.storepath
    ensures d.operation == if Inhibited(j.current, j.next) then Downgraded(j.submitted) else j.submitted
    ensures Uuids(store.deployments) <= Uuids(old(store.deployments)) + JobUuids(j)
    ensures Unrivalled(old(store.deployments), d) ==>
      r == if |NewerThan(old(store.deployments), d)| < store.caps.any then Completed else NotStarted
    ensures LeadsBy(old(store.deployments), d) ==>
      && r == Completed && IsOnTop(store.deployments, j.uuid)
      && store.deployments[0] ==
           Deployment(j.uuid, j.storepath, d.operation, if j.failed then Failed else Done, j.now, true, j.profilePath)
  {
    var ok, dpl := StartDeployment(store, j);
    d := dpl;
    if !ok {
      return NotStarted, d;
    }
    ok := store.DeploymentFinished(dpl.uuid, j.failed, j.profilePath, SystemsAt(j, 2));
    UsedUuids(j);
    if !ok {
      return NotFinished, d;
    }
    return Completed, d;
  }

  lemma FirstPassIsFresh(j: Job, s: seq<Deployment>)
    requires FreshJob(j, Uuids(s))
    ensures FreshDummies(s, SystemsAt(j, 0).bootedDummy, SystemsAt(j, 0).currentDummy)
    ensures j.uuid !in Uuids(s) && j.uuid !in Dummies(SystemsAt(j, 0))
  {
    DummiesOf(j, 0);
    assert j.uuid in JobUuids(j);
    assert j.dummies[0] in JobUuids(j) && j.dummies[1] in JobUuids(j);
  }

  lemma UsedUuids(j: Job)
    requires SixDummies(j)
    ensures {j.uuid} + Dummies(SystemsAt(j, 0)) + Dummies(SystemsAt(j, 1)) + Dummies(SystemsAt(j, 2)) <= JobUuids(j)
  {
    DummiesOf(j, 0);
    DummiesOf(j, 1);
    DummiesOf(j, 2);
  }

  ghost predicate Scheduled(jobs: seq<Job>, history: seq<Deployment>) {
    && (forall i :: 0 <= i < |jobs| ==> jobs[i].now > 0 && FreshJob(jobs[i], Uuids(history)))
    && (forall i, d :: 0 <= i < |jobs| && d in history ==> d.createdAt < jobs[i].now)
    && (forall i, k :: 0 <= i < k < |jobs| ==> jobs[i].now < jobs[k].now)
    && (forall i, k :: 0 <= i < k < |jobs| ==> JobUuids(jobs[i]) !! JobUuids(jobs[k]))
  }

  /** Over any number of deployments run one after the other with a clock that
      moves forward, no error path is ever taken. */
  method RunAll(store: Store, jobs: seq<Job>) returns (completed: nat)
    requires store.ValidCapacities() && Scheduled(jobs, store.deployments)
    modifies store
    ensures completed == |jobs|
    ensures jobs != [] ==> store.Retained() && store.deployments[0].uuid == jobs[|jobs| - 1].uuid
  {
    completed := 0;
    for i := 0 to |jobs|
      invariant completed == i && Scheduled(jobs[i..], store.deployments)
      invariant i > 0 ==> store.Retained() && store.deployments[0].uuid == jobs[i - 1].uuid
    {
      assert jobs[i..][0] == jobs[i] && jobs[i..][1..] == jobs[i + 1..];
      ghost var before := store.deployments;
      var r;
      ghost var d;
      r, d := RunDeployment(store, jobs[i]);
      assert LeadsBy(before, d);
      StillScheduled(jobs[i..], before, store.deployments, store.deployments[0]);
      if r == Completed {
        completed := completed + 1;
      }
    }
  }

  lemma StillScheduled(jobs: seq<Job>, before: seq<Deployment>, after: seq<Deployment>, d: Deployment)
    requires jobs != [] && Scheduled(jobs, before) && d.createdAt == jobs[0].now
    requires Leads(after, d) && Uuids(after) <= Uuids(before) + JobUuids(jobs[0])
    ensures Scheduled(jobs[1..], after)
  {
    var rest := jobs[1..];
    forall i | 0 <= i < |rest| ensures FreshJob(rest[i], Uuids(after)) {
      assert rest[i] == jobs[i + 1];
      assert FreshJob(jobs[i + 1], Uuids(before)) && JobUuids(jobs[0]) !! JobUuids(jobs[i + 1]);
    }
    forall i, e | 0 <= i < |rest| && e in after ensures e.createdAt < rest[i].now {
      assert jobs[0].now < jobs[i + 1].now;
    }
  }
}
