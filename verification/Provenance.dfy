/** Where the generations that reach the deployer come from. */
module Provenance {
  import opened Common
  import opened Generations
  import opened Manager
  import B = Builder
  import C = Confirmer

  /** The commits of the generations created by the loop, all of them for fetches
      reported as updated and verified; the generations it submitted to the deploy
      confirmer; those the confirmer emitted; and those handed to the deployer. */
  datatype History = History(origin: map<Uuid, string>, readied: set<Uuid>, released: set<Uuid>,
                             handed: seq<Generation>)

  function Emitted(o: Option<Uuid>): set<Uuid> {
    match o case None => {} case Some(u) => {u}
  }

  function Recorded(p: Pipeline, h: History, a: Step): History
    requires Enabled(p, a)
  {
    match a
    case Fetched(updated, verified, commit, u, _) =>
      if updated && verified then h.(origin := h.origin[u := commit]) else h
    case SendDeploy =>
      h.(readied := h.readied + {p.loop.uuid}, released := h.released + Emitted(Next(p, a).deploy.out))
    case DeployUser(_) => h.(released := h.released + Emitted(Next(p, a).deploy.out))
    case DeployConfirmed(_) =>
      if Has(p.x.s, p.deploy.out.value) then h.(handed := h.handed + [Get(p.x.s, p.deploy.out.value)]) else h
    case _ => h
  }

  /** New identifiers are fresh. */
  predicate Fresh(p: Pipeline, h: History, a: Step) {
    a.Fetched? ==> a.uuid != "" && a.uuid !in h.origin && !Has(p.x.s, a.uuid)
  }

  // ---------------------------------------------------------------- invariant

  predicate Solid(g: Generation) {
    g.build == Built && !g.buildErr
  }

  predicate Over(g: Generation) {
    g.build == Built || g.buildErr
  }

  /** Its evaluation is over. */
  predicate Judged(g: Generation) {
    g.eval == Evaluated || g.eval == EvalFailed
  }

  /** If the generation is still in the store, it is built without error. */
  predicate IsSolid(s: State, u: Uuid) {
    Has(s, u) ==> Solid(Get(s, u))
  }

  predicate IsOver(s: State, u: Uuid) {
    Has(s, u) ==> Over(Get(s, u))
  }

  ghost predicate Known(h: History, o: Option<Uuid>) {
    o.Some? ==> o.value in h.origin
  }

  ghost predicate BuilderInv(x: B.Both) {
    && B.Inv(x)
    && (x.b.evaluator.Some? ==>
         Get(x.s, x.b.evaluator.value).build == BuildInit && !Get(x.s, x.b.evaluator.value).buildErr)
    && (x.b.buildator.Some? ==> Get(x.s, x.b.buildator.value).build == Building)
    && (x.b.buildDone.Some? ==> IsOver(x.s, x.b.buildDone.value))
  }

  ghost predicate BuilderKnown(x: B.Both, h: History) {
    && Known(h, x.b.managed) && Known(h, x.b.evaluator) && Known(h, x.b.buildator)
    && Known(h, x.b.evaluationDone) && Known(h, x.b.buildDone)
  }

  ghost predicate StoreKnown(s: State, h: History) {
    && (forall u :: u in h.origin && Has(s, u) ==> Get(s, u).commit == h.origin[u])
    && (forall u :: u in h.readied ==> u in h.origin && IsSolid(s, u))
  }

  ghost predicate GatesKnown(p: Pipeline, h: History) {
    && (p.build.state.submitted != "" ==> p.build.state.submitted in h.origin)
    && Known(h, p.build.out)
    && (p.deploy.state.submitted != "" ==> p.deploy.state.submitted in h.readied)
    && (p.deploy.out.Some? ==> p.deploy.out.value in h.readied && p.deploy.out.value in h.released)
    && (p.loop.SubmittingBuild? ==> p.loop.uuid in h.origin)
    && (p.loop.SubmittingDeploy? ==> p.loop.uuid in h.origin && IsSolid(p.x.s, p.loop.uuid))
  }

  ghost predicate HandedKnown(h: History) {
    forall i :: 0 <= i < |h.handed| ==>
      var g := h.handed[i];
      && g.uuid in h.origin && g.commit == h.origin[g.uuid] && Solid(g)
      && g.uuid in h.readied && g.uuid in h.released
  }

  ghost predicate Inv(p: Pipeline, h: History) {
    BuilderInv(p.x) && BuilderKnown(p.x, h) && StoreKnown(p.x.s, h) && GatesKnown(p, h) && HandedKnown(h)
  }

  // ------------------------------------------------------------ builder steps

  /** Whatever is left of the store was there before, from the same commit; built
      generations stay built, and evaluated ones keep their machine identifier. */
  ghost predicate Preserves(s: State, t: State) {
    forall v :: Has(t, v) ==>
      && Has(s, v) && Get(t, v).commit == Get(s, v).commit
      && (Solid(Get(s, v)) ==> Solid(Get(t, v))) && (Over(Get(s, v)) ==> Over(Get(t, v)))
      && (Judged(Get(s, v)) ==> Judged(Get(t, v)) && Get(t, v).machineId == Get(s, v).machineId)
  }

  lemma TransitionPreserves(s: State, t: State, u: Uuid, g: Generation)
    requires B.IsTransition(s, t, u, g) && g.commit == Get(s, u).commit
    requires Solid(Get(s, u)) ==> Solid(g)
    requires Over(Get(s, u)) ==> Over(g)
    requires Judged(Get(s, u)) ==> Judged(g) && g.machineId == Get(s, u).machineId
    ensures Preserves(s, t)
  {
  }

  lemma PreservesTransitive(r: State, s: State, t: State)
    requires Preserves(r, s) && Preserves(s, t)
    ensures Preserves(r, t)
  {
  }

  /** A generation that was just built without error, or just failed, is over. */
  lemma NotifyOver(slot: Option<Uuid>, u: Uuid, s: State, t: State)
    requires slot.Some? ==> IsOver(s, slot.value)
    requires Preserves(s, t) && IsOver(t, u)
    ensures IsOver(t, B.Notify(slot, u).value)
  {
  }

  lemma EvalEndsPreserves(x: B.Both, r: EvalResult, inStore: bool)
    requires BuilderInv(x) && x.b.evaluator.Some?
    ensures var y := B.EvalEnds(x, r, inStore); BuilderInv(y) && Preserves(x.s, y.s)
  {
    B.EvalEndsKeeps(x, r, inStore);
    var u := x.b.evaluator.value;
    B.EvalFinishedIs(x.s, u, r);
    var s1 := AfterEvalFinished(x.s, u, r);
    TransitionPreserves(x.s, s1, u, FinishedEval(Get(x.s, u), r));
    if inStore {
      B.BuildStartIs(s1, u);
      var s2 := AfterBuildStart(s1, u);
      TransitionPreserves(s1, s2, u, StartedBuild(Get(s1, u)));
      B.BuildFinishedIs(s2, u, false);
      var s3 := AfterBuildFinished(s2, u, false);
      TransitionPreserves(s2, s3, u, FinishedBuild(Get(s2, u), false));
      PreservesTransitive(x.s, s1, s2);
      PreservesTransitive(x.s, s2, s3);
      NotifyOver(x.b.buildDone, u, x.s, s3);
    }
  }

  lemma BuildEndsPreserves(x: B.Both, failed: bool)
    requires BuilderInv(x) && x.b.buildator.Some?
    ensures var y := B.BuildEnds(x, failed); BuilderInv(y) && Preserves(x.s, y.s)
  {
    B.BuildEndsKeeps(x, failed);
    var u := x.b.buildator.value;
    B.BuildFinishedIs(x.s, u, failed);
    var t := AfterBuildFinished(x.s, u, failed);
    TransitionPreserves(x.s, t, u, FinishedBuild(Get(x.s, u), failed));
    NotifyOver(x.b.buildDone, u, x.s, t);
  }

  lemma StoppedPreserves(x: B.Both, k: B.Stops)
    requires BuilderInv(x)
    ensures var y := B.Stopped(x, k); BuilderInv(y) && Preserves(x.s, y.s)
  {
    B.StoppedKeeps(x, k);
    if x.b.evaluator.Some? {
      EvalEndsPreserves(x, k.eval, k.inStore);
    } else if x.b.buildator.Some? {
      BuildEndsPreserves(B.EvalStopped(x, k), k.buildFailed);
    }
  }

  lemma BuildPreserves(x: B.Both, u: Uuid)
    requires BuilderInv(x)
    ensures var y := B.AfterBuild(x, u); BuilderInv(y) && Preserves(x.s, y.s)
  {
    B.BuildKeeps(x, u);
    if B.CanBuild(x, u) {
      B.BuildStartIs(x.s, u);
      TransitionPreserves(x.s, AfterBuildStart(x.s, u), u, StartedBuild(Get(x.s, u)));
    }
  }

  lemma SuspendPreserves(x: B.Both, k: B.Stops)
    requires BuilderInv(x)
    ensures var y := B.AfterSuspend(x, k); BuilderInv(y) && Preserves(x.s, y.s)
  {
    B.SuspendKeeps(x, k);
    if x.b.buildator.Some? {
      BuildEndsPreserves(x, k.buildFailed);
    }
  }

  lemma ResumePreserves(x: B.Both)
    requires BuilderInv(x)
    ensures var y := B.AfterResume(x); BuilderInv(y) && Preserves(x.s, y.s)
  {
    B.ResumeKeeps(x);
    var y := x.(b := x.b.(suspended := false));
    if y.b.managed.Some? {
      BuildPreserves(y, y.b.managed.value);
    }
  }

  lemma AddedKeepsBuilder(x: B.Both, commit: string, u: Uuid)
    requires BuilderInv(x) && !Has(x.s, u) && x.b.buildDone != Some(u)
    ensures BuilderInv(x.(s := Added(x.s, u, commit))) && !IsLast(x.s, u)
  {
    HasIff(x.s, u);
    AddedKeeps(x.s, u, commit);
    B.StepKeeps(x, B.NewGeneration(u, commit));
    if x.b.evaluator.Some? {
      HasIff(x.s, x.b.evaluator.value);
    }
    if x.b.buildator.Some? {
      HasIff(x.s, x.b.buildator.value);
    }
  }

  /** Starting to evaluate the new generation, once nothing is running any more. */
  lemma EvalStartPreserves(x: B.Both, commit: string, u: Uuid, k: B.Stops)
    requires BuilderInv(x) && !Has(x.s, u) && x.b.buildDone != Some(u)
    ensures var a := x.(s := Added(x.s, u, commit)); var y := B.Stopped(a, k); var z := AfterFetched(x, commit, u, k);
      && BuilderInv(a) && BuilderInv(y) && BuilderInv(z) && Preserves(a.s, y.s) && Preserves(y.s, z.s)
  {
    var a := x.(s := Added(x.s, u, commit));
    AddedKeepsBuilder(x, commit, u);
    StoppedPreserves(a, k);
    B.EvalKeeps(a, u, k);
    var y := B.Stopped(a, k);
    if Has(y.s, u) {
      B.NewEvalSucceedsIff(x, u, commit, k);
      B.StoppedKeeps(a, k);
      HasIff(x.s, u);
      AddedKeeps(x.s, u, commit);
      B.EvalStartedIs(y.s, u);
      TransitionPreserves(y.s, AfterEvalStarted(y.s, u), u, StartedEval(Get(y.s, u)));
    }
  }

  /** Adding a new generation and evaluating it. */
  lemma FetchedPreserves(x: B.Both, commit: string, u: Uuid, k: B.Stops)
    requires BuilderInv(x) && !Has(x.s, u) && x.b.buildDone != Some(u)
    ensures var y := AfterFetched(x, commit, u, k); BuilderInv(y) && Preserves(Added(x.s, u, commit), y.s)
  {
    EvalStartPreserves(x, commit, u, k);
    var a := x.(s := Added(x.s, u, commit));
    PreservesTransitive(a.s, B.Stopped(a, k).s, AfterFetched(x, commit, u, k).s);
  }

  // ------------------------------------------------------------ pipeline steps

  lemma StoreStaysKnown(s: State, t: State, h: History)
    requires StoreKnown(s, h) && Preserves(s, t)
    ensures StoreKnown(t, h)
    ensures forall u :: IsSolid(s, u) ==> IsSolid(t, u)
  {
  }

  /** A step of the builder alone. */
  lemma BuilderStepKeeps(p: Pipeline, q: Pipeline, h: History)
    requires Inv(p, h) && q == p.(x := q.x)
    requires BuilderInv(q.x) && BuilderKnown(q.x, h) && Preserves(p.x.s, q.x.s)
    ensures Inv(q, h)
  {
    StoreStaysKnown(p.x.s, q.x.s, h);
  }

  lemma FetchedKeeps(p: Pipeline, h: History, commit: string, u: Uuid, k: B.Stops)
    requires Inv(p, h) && p.loop.Idle? && u !in h.origin && !Has(p.x.s, u)
    ensures Inv(p.(x := AfterFetched(p.x, commit, u, k)), h.(origin := h.origin[u := commit]))
  {
    FetchedPreserves(p.x, commit, u, k);
    FetchedStoreKnown(p.x.s, AfterFetched(p.x, commit, u, k).s, h, commit, u);
    AfterFetchedKnown(p.x, h, commit, u, k);
  }

  lemma FetchedStoreKnown(s: State, t: State, h: History, commit: string, u: Uuid)
    requires Valid(s) && StoreKnown(s, h) && u !in h.origin && !Has(s, u) && Preserves(Added(s, u, commit), t)
    ensures StoreKnown(t, h.(origin := h.origin[u := commit]))
  {
    var h' := h.(origin := h.origin[u := commit]);
    HasIff(s, u);
    AddedKeeps(s, u, commit);
    forall v | v in h'.origin && Has(t, v) ensures Get(t, v).commit == h'.origin[v] {
      assert Has(Added(s, u, commit), v);
    }
    forall v | v in h'.readied ensures v in h'.origin && IsSolid(t, v) {
      assert v != u && IsSolid(s, v);
    }
  }

  lemma AfterFetchedKnown(x: B.Both, h: History, commit: string, u: Uuid, k: B.Stops)
    requires BuilderKnown(x, h)
    ensures BuilderKnown(AfterFetched(x, commit, u, k), h.(origin := h.origin[u := commit]))
  {
  }

  /** What a confirmer emits is what is submitted to it. */
  lemma FedIs(g: Gate, e: C.Event)
    ensures var f := Fed(g, e); var pending := if e.Submit? then e.uuid else g.state.submitted;
      && (f.out.Some? ==> f.out.value == pending && pending != "")
      && (f.state.submitted == "" || f.state.submitted == pending)
  {
  }

  /** Every step keeps the invariant. */
  lemma StepKeeps(p: Pipeline, h: History, a: Step)
    requires Inv(p, h) && Enabled(p, a) && Fresh(p, h, a)
    ensures Inv(Next(p, a), Recorded(p, h, a))
  {
    if a.EvalEnd? || a.BuildEnd? || a.SuspendBuilder? || a.ResumeBuilder? {
      BuilderActsKeeps(p, h, a);
    } else if a.SendBuild? || a.SendDeploy? || a.BuildUser? || a.DeployUser? {
      ConfirmerActsKeeps(p, h, a);
    } else if a.EvaluationDone? {
      EvaluationDoneKeeps(p, h);
    } else if a.BuildDone? {
      BuildDoneKeeps(p, h, a.operation);
    } else if a.Fetched? {
      if a.updated && a.verified {
        FetchedKeeps(p, h, a.commit, a.uuid, a.stops);
      }
    } else if a.BuildConfirmed? {
      BuildConfirmedKeeps(p, h);
    } else if a.DeployConfirmed? {
      DeployConfirmedKeeps(p, h, a.operation);
    }
  }

  lemma BuilderActsKeeps(p: Pipeline, h: History, a: Step)
    requires Inv(p, h) && Enabled(p, a)
    requires a.EvalEnd? || a.BuildEnd? || a.SuspendBuilder? || a.ResumeBuilder?
    ensures Inv(Next(p, a), h)
  {
    match a {
      case EvalEnd(r, e) => EvalEndsPreserves(p.x, r, e);
      case BuildEnd(f) => BuildEndsPreserves(p.x, f);
      case SuspendBuilder(k) => SuspendPreserves(p.x, k);
      case ResumeBuilder => ResumePreserves(p.x);
    }
    BuilderStepKeeps(p, Next(p, a), h);
  }

  lemma ConfirmerActsKeeps(p: Pipeline, h: History, a: Step)
    requires Inv(p, h) && Enabled(p, a)
    requires a.SendBuild? || a.SendDeploy? || a.BuildUser? || a.DeployUser?
    ensures Inv(Next(p, a), Recorded(p, h, a))
  {
    match a {
      case SendBuild => FedIs(p.build, C.Submit(p.loop.uuid));
      case SendDeploy => FedIs(p.deploy, C.Submit(p.loop.uuid));
      case BuildUser(e) => FedIs(p.build, e);
      case DeployUser(e) => FedIs(p.deploy, e);
    }
  }

  /** The loop has taken a notification and, perhaps, found something to submit. */
  lemma TakenKeeps(p: Pipeline, h: History, q: Pipeline)
    requires Inv(p, h)
    requires q.x == p.x.(b := p.x.b.(evaluationDone := q.x.b.evaluationDone, buildDone := q.x.b.buildDone))
    requires q.x.b.evaluationDone == None || q.x.b.evaluationDone == p.x.b.evaluationDone
    requires q.x.b.buildDone == None || q.x.b.buildDone == p.x.b.buildDone
    requires q == p.(x := q.x, loop := q.loop)
    requires q.loop.SubmittingBuild? ==> q.loop.uuid in h.origin
    requires q.loop.SubmittingDeploy? ==> q.loop.uuid in h.origin && IsSolid(p.x.s, q.loop.uuid)
    ensures Inv(q, h)
  {
    assert BuilderInv(q.x) && BuilderKnown(q.x, h);
  }

  lemma EvaluationDoneKeeps(p: Pipeline, h: History)
    requires Inv(p, h) && Enabled(p, EvaluationDone)
    ensures Inv(AfterEvaluationDone(p), h)
  {
    TakenKeeps(p, h, AfterEvaluationDone(p));
  }

  lemma BuildDoneKeeps(p: Pipeline, h: History, operation: string)
    requires Inv(p, h) && Enabled(p, BuildDone(operation))
    ensures Inv(AfterBuildDone(p, operation), h)
  {
    var u := p.x.b.buildDone.value;
    assert u in h.origin && IsOver(p.x.s, u);
    TakenKeeps(p, h, AfterBuildDone(p, operation));
  }

  lemma BuildConfirmedKeeps(p: Pipeline, h: History)
    requires Inv(p, h) && Enabled(p, BuildConfirmed)
    ensures Inv(Next(p, BuildConfirmed), h)
  {
    var q := p.(build := p.build.(out := None));
    BuildPreserves(p.x, p.build.out.value);
    BuilderStepKeeps(q, Next(p, BuildConfirmed), h);
  }

  lemma HandedOneMore(h: History, g: Generation)
    requires HandedKnown(h) && g.uuid in h.origin && g.commit == h.origin[g.uuid] && Solid(g)
    requires g.uuid in h.readied && g.uuid in h.released
    ensures HandedKnown(h.(handed := h.handed + [g]))
  {
  }

  lemma DeployConfirmedKeeps(p: Pipeline, h: History, operation: string)
    requires Inv(p, h) && Enabled(p, DeployConfirmed(operation))
    ensures Inv(Next(p, DeployConfirmed(operation)), Recorded(p, h, DeployConfirmed(operation)))
  {
    var u := p.deploy.out.value;
    assert u in h.readied && u in h.released && u in h.origin;
    if Has(p.x.s, u) {
      var g := Get(p.x.s, u);
      assert g.uuid == u && Solid(g) && g.commit == h.origin[u];
      HandedOneMore(h, g);
    }
  }

  // ------------------------------------------------------------------- runs

  datatype Run = Run(ps: seq<Pipeline>, hs: seq<History>, steps: seq<Step>)

  ghost predicate StepAt(r: Run, i: nat)
    requires i < |r.steps| && |r.ps| == |r.hs| == |r.steps| + 1
  {
    && Enabled(r.ps[i], r.steps[i]) && Fresh(r.ps[i], r.hs[i], r.steps[i])
    && r.ps[i + 1] == Next(r.ps[i], r.steps[i]) && r.hs[i + 1] == Recorded(r.ps[i], r.hs[i], r.steps[i])
  }

  /** A run from a freshly loaded store, with components in any interleaving. */
  ghost predicate IsRun(r: Run) {
    && |r.ps| == |r.hs| == |r.steps| + 1
    && IsStart(r.ps[0]) && r.hs[0] == History(map[], {}, {}, [])
    && forall i :: 0 <= i < |r.steps| ==> StepAt(r, i)
  }

  ghost predicate IsStart(p: Pipeline) {
    && p.x.b == B.BuilderState(None, false, false, false, None, None, None, None)
    && DistinctUuids(p.x.s.generations) && (forall u :: !IsLast(p.x.s, u))
    && p.build.state.submitted == "" && p.deploy.state.submitted == ""
    && p.build.out == None && p.deploy.out == None && p.loop == Idle
  }

  lemma {:induction false} RunKeeps(r: Run, i: nat)
    requires IsRun(r) && i <= |r.steps|
    ensures Inv(r.ps[i], r.hs[i])
  {
    if i > 0 {
      RunKeeps(r, i - 1);
      assert StepAt(r, i - 1);
      StepKeeps(r.ps[i - 1], r.hs[i - 1], r.steps[i - 1]);
    }
  }

  /** Before step n, a fetch reported as updated and verified created u for the
      given commit. */
  ghost predicate CreatedBefore(r: Run, n: nat, u: Uuid, commit: string) {
    exists i :: 0 <= i < n && i < |r.steps| && r.steps[i].Fetched? && r.steps[i].updated && r.steps[i].verified
      && r.steps[i].uuid == u && r.steps[i].commit == commit
  }

  /** Before step n, the loop submitted u to the deploy confirmer. */
  ghost predicate ReadiedBefore(r: Run, n: nat, u: Uuid) {
    exists i :: 0 <= i < n && i < |r.steps| && i < |r.ps| && r.steps[i].SendDeploy?
      && r.ps[i].loop == SubmittingDeploy(u)
  }

  /** At step i, the deploy confirmer emitted u. */
  ghost predicate ReleasesAt(r: Run, i: nat, u: Uuid) {
    && i < |r.steps| && i + 1 < |r.ps| && (r.steps[i].SendDeploy? || r.steps[i].DeployUser?)
    && r.ps[i + 1].deploy.out == Some(u)
  }

  /** Before step n, the deploy confirmer emitted u. */
  ghost predicate ReleasedBefore(r: Run, n: nat, u: Uuid) {
    exists i :: 0 <= i < n && ReleasesAt(r, i, u)
  }

  /** Before step n, the deploy confirmer emitted u, which the loop had submitted to
      it by then. */
  ghost predicate ConfirmedBefore(r: Run, n: nat, u: Uuid) {
    exists i :: 0 <= i < n && ReleasesAt(r, i, u) && ReadiedBefore(r, i + 1, u)
  }

  /** The history says what happened. */
  lemma {:induction false} HistoryIsTrue(r: Run, n: nat, u: Uuid)
    requires IsRun(r) && n <= |r.steps|
    ensures u in r.hs[n].origin ==> CreatedBefore(r, n, u, r.hs[n].origin[u])
    ensures u in r.hs[n].readied ==> ReadiedBefore(r, n, u)
    ensures u in r.hs[n].released ==> ReleasedBefore(r, n, u)
  {
    if n > 0 {
      HistoryIsTrue(r, n - 1, u);
      assert StepAt(r, n - 1);
      var p, h, a := r.ps[n - 1], r.hs[n - 1], r.steps[n - 1];
      assert r.hs[n] == Recorded(p, h, a);
      assert u in r.hs[n].released && u !in h.released ==> ReleasesAt(r, n - 1, u);
      CreatedLater(r, n - 1, u);
    }
  }

  lemma CreatedLater(r: Run, n: nat, u: Uuid)
    ensures forall c :: CreatedBefore(r, n, u, c) ==> CreatedBefore(r, n + 1, u, c)
    ensures ReadiedBefore(r, n, u) ==> ReadiedBefore(r, n + 1, u)
    ensures ReleasedBefore(r, n, u) ==> ReleasedBefore(r, n + 1, u)
  {
    forall c | CreatedBefore(r, n, u, c) ensures CreatedBefore(r, n + 1, u, c) {
      var i :| 0 <= i < n && i < |r.steps| && r.steps[i].Fetched? && r.steps[i].updated && r.steps[i].verified
        && r.steps[i].uuid == u && r.steps[i].commit == c;
      assert 0 <= i < n + 1;
    }
  }

  /** The deploy confirmer emits only what the loop has submitted to it. */
  lemma EmissionFollowsSubmission(r: Run, i: nat, u: Uuid)
    requires IsRun(r) && ReleasesAt(r, i, u)
    ensures ReadiedBefore(r, i + 1, u)
  {
    RunKeeps(r, i + 1);
    HistoryIsTrue(r, i + 1, u);
  }

  /** Every generation the loop hands to the deployer, in every run: it was created
      for a fetch reported as updated and verified, from the commit of that fetch;
      it is recorded as built, without a build error; and it was submitted to the
      deploy confirmer, which emitted it after that. */
  lemma HandedGenerationsAreSound(r: Run, k: nat)
    requires IsRun(r) && k < |r.steps| && r.steps[k].DeployConfirmed?
    requires r.ps[k].deploy.out.Some? && Has(r.ps[k].x.s, r.ps[k].deploy.out.value)
    ensures var g := Get(r.ps[k].x.s, r.ps[k].deploy.out.value);
      && CreatedBefore(r, k, g.uuid, g.commit)
      && g.build == Built && !g.buildErr
      && ConfirmedBefore(r, k, g.uuid)
  {
    RunKeeps(r, k);
    var u := r.ps[k].deploy.out.value;
    HistoryIsTrue(r, k, u);
    var i :| 0 <= i < k && ReleasesAt(r, i, u);
    EmissionFollowsSubmission(r, i, u);
  }
}
