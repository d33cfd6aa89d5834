/** Which generations reach the deploy confirmer without their machine identifier
    having been compared with that of the host. */
module MachineId {
  import opened Common
  import opened Generations
  import opened Manager
  import opened PipelineRuns
  import opened Provenance
  import B = Builder
  import C = Confirmer
  import D = Deployer

  predicate Matches(g: Generation, host: string) {
    g.machineId == "" || g.machineId == host
  }

  /** The evaluation that ends by itself or is stopped finds its storepath in the
      Nix store: the generation counts as built at once. */
  ghost predicate EndsInStore(p: Pipeline, a: Step, u: Uuid) {
    && p.x.b.evaluator == Some(u)
    && ((a.EvalEnd? && a.inStore) || (a.Fetched? && a.updated && a.verified && a.stops.inStore))
  }

  /** A Resume of the builder starts the build. */
  ghost predicate StartedByResume(p: Pipeline, a: Step, u: Uuid) {
    a.ResumeBuilder? && p.x.b.buildator.None? && B.AfterResume(p.x).b.buildator == Some(u)
  }

  ghost predicate Bypasses(p: Pipeline, a: Step, u: Uuid) {
    EndsInStore(p, a, u) || StartedByResume(p, a, u)
  }

  /** The generations that a step lets through without a comparison. */
  ghost function Bypassed(p: Pipeline, a: Step): (us: set<Uuid>)
    ensures forall u :: u in us <==> Bypasses(p, a, u)
  {
    var e := if p.x.b.evaluator.Some? && EndsInStore(p, a, p.x.b.evaluator.value) then {p.x.b.evaluator.value} else {};
    var y := B.AfterResume(p.x);
    e + if y.b.buildator.Some? && StartedByResume(p, a, y.b.buildator.value) then {y.b.buildator.value} else {}
  }

  // ---------------------------------------------------------------- invariant

  predicate IsJudged(s: State, u: Uuid) {
    Has(s, u) ==> Judged(Get(s, u))
  }

  /** If the generation is still in the store, it is evaluated for this host. */
  predicate Fits(s: State, host: string, u: Uuid) {
    Has(s, u) ==> Judged(Get(s, u)) && Matches(Get(s, u), host)
  }

  predicate Cleared(s: State, host: string, us: set<Uuid>, u: Uuid) {
    u in us || Fits(s, host, u)
  }

  predicate SlotCleared(s: State, host: string, us: set<Uuid>, o: Option<Uuid>) {
    o.Some? ==> Cleared(s, host, us, o.value)
  }

  predicate BuilderCleared(x: B.Both, host: string, us: set<Uuid>) {
    && (x.b.evaluationDone.Some? ==> IsJudged(x.s, x.b.evaluationDone.value))
    && SlotCleared(x.s, host, us, x.b.buildator) && SlotCleared(x.s, host, us, x.b.buildDone)
  }

  predicate GateCleared(s: State, host: string, us: set<Uuid>, g: Gate) {
    SlotCleared(s, host, us, g.out) && (g.state.submitted != "" ==> Cleared(s, host, us, g.state.submitted))
  }

  predicate GatesCleared(p: Pipeline, s: State, us: set<Uuid>) {
    && GateCleared(s, p.host, us, p.build) && GateCleared(s, p.host, us, p.deploy)
    && (!p.loop.Idle? ==> Cleared(s, p.host, us, p.loop.uuid))
  }

  /** Whatever is past the comparison has passed it or was let through. */
  predicate AllCleared(p: Pipeline, us: set<Uuid>) {
    BuilderCleared(p.x, p.host, us) && GatesCleared(p, p.x.s, us)
  }

  // ------------------------------------------------------------ builder steps

  lemma ClearedStays(s: State, t: State, host: string, us: set<Uuid>, vs: set<Uuid>, u: Uuid)
    requires Preserves(s, t) && us <= vs
    ensures Cleared(s, host, us, u) ==> Cleared(t, host, vs, u)
    ensures IsJudged(s, u) ==> IsJudged(t, u)
  {
  }

  lemma GatesStayCleared(p: Pipeline, s: State, t: State, us: set<Uuid>, vs: set<Uuid>)
    requires GatesCleared(p, s, us) && Preserves(s, t) && us <= vs
    ensures GatesCleared(p, t, vs)
  {
  }

  /** The builder's slots are untouched while its store changes. */
  lemma SlotsStayCleared(x: B.Both, y: B.Both, host: string, us: set<Uuid>, vs: set<Uuid>)
    requires BuilderCleared(x, host, us) && Preserves(x.s, y.s) && us <= vs
    requires y.b.evaluationDone == x.b.evaluationDone && y.b.buildDone == x.b.buildDone
    requires y.b.buildator.None? || y.b.buildator == x.b.buildator || Cleared(y.s, host, vs, y.b.buildator.value)
    ensures BuilderCleared(y, host, vs)
  {
  }

  lemma EvalEndsClears(x: B.Both, r: EvalResult, inStore: bool, host: string, us: set<Uuid>)
    requires BuilderInv(x) && BuilderCleared(x, host, us) && x.b.evaluator.Some?
    ensures BuilderCleared(B.EvalEnds(x, r, inStore), host, us + if inStore then {x.b.evaluator.value} else {})
  {
    EvalEndsPreserves(x, r, inStore);
    var u := x.b.evaluator.value;
    B.EvalFinishedIs(x.s, u, r);
    assert IsJudged(AfterEvalFinished(x.s, u, r), u);
  }

  lemma BuildEndsClears(x: B.Both, failed: bool, host: string, us: set<Uuid>)
    requires BuilderInv(x) && BuilderCleared(x, host, us) && x.b.buildator.Some?
    ensures BuilderCleared(B.BuildEnds(x, failed), host, us)
  {
    BuildEndsPreserves(x, failed);
  }

  lemma StoppedClears(x: B.Both, k: B.Stops, host: string, us: set<Uuid>)
    requires BuilderInv(x) && BuilderCleared(x, host, us)
    ensures BuilderCleared(B.Stopped(x, k), host,
                           us + if x.b.evaluator.Some? && k.inStore then {x.b.evaluator.value} else {})
  {
    if x.b.evaluator.Some? {
      EvalEndsClears(x, k.eval, k.inStore, host, us);
    } else if x.b.buildator.Some? {
      BuildEndsClears(B.EvalStopped(x, k), k.buildFailed, host, us);
    }
  }

  /** The new generation is in none of the builder's slots. */
  lemma AddedStaysCleared(x: B.Both, h: History, commit: string, u: Uuid, host: string, us: set<Uuid>)
    requires BuilderInv(x) && BuilderKnown(x, h) && BuilderCleared(x, host, us) && !Has(x.s, u) && u !in h.origin
    ensures BuilderCleared(x.(s := Added(x.s, u, commit)), host, us)
  {
    HasIff(x.s, u);
    AddedKeeps(x.s, u, commit);
  }

  lemma FetchedClearsBuilder(x: B.Both, h: History, commit: string, u: Uuid, k: B.Stops, host: string, us: set<Uuid>)
    requires BuilderInv(x) && BuilderKnown(x, h) && BuilderCleared(x, host, us) && !Has(x.s, u) && u !in h.origin
    ensures BuilderCleared(AfterFetched(x, commit, u, k), host,
                           us + if x.b.evaluator.Some? && k.inStore then {x.b.evaluator.value} else {})
  {
    var a := x.(s := Added(x.s, u, commit));
    var vs := us + if x.b.evaluator.Some? && k.inStore then {x.b.evaluator.value} else {};
    AddedStaysCleared(x, h, commit, u, host, us);
    EvalStartPreserves(x, commit, u, k);
    StoppedClears(a, k, host, us);
    SlotsStayCleared(B.Stopped(a, k), AfterFetched(x, commit, u, k), host, vs, vs);
  }

  lemma AddedStaysClearedAtGates(p: Pipeline, h: History, commit: string, u: Uuid, us: set<Uuid>)
    requires Inv(p, h) && GatesCleared(p, p.x.s, us) && !Has(p.x.s, u) && u !in h.origin
    ensures GatesCleared(p, Added(p.x.s, u, commit), us)
  {
    HasIff(p.x.s, u);
    AddedKeeps(p.x.s, u, commit);
  }

  /** Only the builder acts. */
  lemma BuilderStepClears(p: Pipeline, q: Pipeline, us: set<Uuid>, vs: set<Uuid>)
    requires GatesCleared(p, p.x.s, us) && us <= vs && q == p.(x := q.x)
    requires Preserves(p.x.s, q.x.s) && BuilderCleared(q.x, p.host, vs)
    ensures AllCleared(q, vs)
  {
    GatesStayCleared(p, p.x.s, q.x.s, us, vs);
  }

  lemma FetchedClears(p: Pipeline, h: History, a: Step, us: set<Uuid>)
    requires Inv(p, h) && AllCleared(p, us) && Enabled(p, a) && Provenance.Fresh(p, h, a)
    requires a.Fetched? && a.updated && a.verified
    ensures AllCleared(Next(p, a), us + Bypassed(p, a))
  {
    var q, vs := Next(p, a), us + Bypassed(p, a);
    assert us + (if p.x.b.evaluator.Some? && a.stops.inStore then {p.x.b.evaluator.value} else {}) == vs;
    FetchedClearsBuilder(p.x, h, a.commit, a.uuid, a.stops, p.host, us);
    FetchedPreserves(p.x, a.commit, a.uuid, a.stops);
    AddedStaysClearedAtGates(p, h, a.commit, a.uuid, us);
    BuilderStepClears(p.(x := p.x.(s := Added(p.x.s, a.uuid, a.commit))), q, us, vs);
  }

  lemma EvalEndClears(p: Pipeline, h: History, r: EvalResult, e: bool, us: set<Uuid>)
    requires Inv(p, h) && AllCleared(p, us) && Enabled(p, EvalEnd(r, e))
    ensures AllCleared(Next(p, EvalEnd(r, e)), us + Bypassed(p, EvalEnd(r, e)))
  {
    assert us + (if e then {p.x.b.evaluator.value} else {}) == us + Bypassed(p, EvalEnd(r, e));
    EvalEndsPreserves(p.x, r, e);
    EvalEndsClears(p.x, r, e, p.host, us);
    BuilderStepClears(p, Next(p, EvalEnd(r, e)), us, us + Bypassed(p, EvalEnd(r, e)));
  }

  lemma BuildEndClears(p: Pipeline, h: History, failed: bool, us: set<Uuid>)
    requires Inv(p, h) && AllCleared(p, us) && Enabled(p, BuildEnd(failed))
    ensures AllCleared(Next(p, BuildEnd(failed)), us)
  {
    BuildEndsPreserves(p.x, failed);
    BuildEndsClears(p.x, failed, p.host, us);
    BuilderStepClears(p, Next(p, BuildEnd(failed)), us, us);
  }

  lemma SuspendClears(p: Pipeline, h: History, k: B.Stops, us: set<Uuid>)
    requires Inv(p, h) && AllCleared(p, us)
    ensures AllCleared(Next(p, SuspendBuilder(k)), us)
  {
    SuspendPreserves(p.x, k);
    if p.x.b.buildator.Some? {
      BuildEndsClears(p.x, k.buildFailed, p.host, us);
    }
    BuilderStepClears(p, Next(p, SuspendBuilder(k)), us, us);
  }

  lemma ResumeClears(p: Pipeline, h: History, us: set<Uuid>)
    requires Inv(p, h) && AllCleared(p, us)
    ensures AllCleared(Next(p, ResumeBuilder), us + Bypassed(p, ResumeBuilder))
  {
    var q, vs := Next(p, ResumeBuilder), us + Bypassed(p, ResumeBuilder);
    ResumePreserves(p.x);
    SlotsStayCleared(p.x, q.x, p.host, us, vs);
    BuilderStepClears(p, q, us, vs);
  }

  // ------------------------------------------------------------ pipeline steps

  lemma FedStaysCleared(s: State, host: string, us: set<Uuid>, g: Gate, e: C.Event)
    requires GateCleared(s, host, us, g) && (e.Submit? ==> Cleared(s, host, us, e.uuid))
    ensures GateCleared(s, host, us, Fed(g, e))
  {
    FedIs(g, e);
  }

  /** This is where the comparison takes place. */
  lemma EvaluationDoneClears(p: Pipeline, us: set<Uuid>)
    requires AllCleared(p, us) && Enabled(p, EvaluationDone)
    ensures AllCleared(AfterEvaluationDone(p), us)
  {
    var q := AfterEvaluationDone(p);
    assert q.loop.SubmittingBuild? ==> Fits(p.x.s, p.host, q.loop.uuid);
  }

  lemma BuildDoneClears(p: Pipeline, operation: string, us: set<Uuid>)
    requires AllCleared(p, us) && Enabled(p, BuildDone(operation))
    ensures AllCleared(AfterBuildDone(p, operation), us)
  {
    var q := AfterBuildDone(p, operation);
    assert q.loop.SubmittingDeploy? ==> Cleared(p.x.s, p.host, us, q.loop.uuid);
  }

  lemma DeployerClears(p: Pipeline, a: Step, us: set<Uuid>)
    requires AllCleared(p, us) && Enabled(p, a) && (a.DeployConfirmed? || a.DeployerActs?)
    ensures AllCleared(Next(p, a), us)
  {
    var q := Next(p, a);
    assert q == p.(deploy := q.deploy, deployer := q.deployer);
    assert q.deploy == p.deploy || q.deploy == p.deploy.(out := None);
  }

  lemma ConfirmersClear(p: Pipeline, a: Step, us: set<Uuid>)
    requires AllCleared(p, us) && Enabled(p, a)
    requires a.SendBuild? || a.SendDeploy? || a.BuildUser? || a.DeployUser?
    ensures AllCleared(Next(p, a), us)
  {
    match a {
      case SendBuild => FedStaysCleared(p.x.s, p.host, us, p.build, C.Submit(p.loop.uuid));
      case SendDeploy => FedStaysCleared(p.x.s, p.host, us, p.deploy, C.Submit(p.loop.uuid));
      case BuildUser(e) => FedStaysCleared(p.x.s, p.host, us, p.build, e);
      case DeployUser(e) => FedStaysCleared(p.x.s, p.host, us, p.deploy, e);
    }
  }

  lemma BuildConfirmedClears(p: Pipeline, h: History, us: set<Uuid>)
    requires Inv(p, h) && AllCleared(p, us) && Enabled(p, BuildConfirmed)
    ensures AllCleared(Next(p, BuildConfirmed), us)
  {
    var u, q := p.build.out.value, Next(p, BuildConfirmed);
    BuildPreserves(p.x, u);
    ClearedStays(p.x.s, q.x.s, p.host, us, us, u);
    SlotsStayCleared(p.x, q.x, p.host, us, us);
    GatesStayCleared(p, p.x.s, q.x.s, us, us);
  }

  /** These steps let nothing through. */
  lemma OtherStepClears(p: Pipeline, h: History, a: Step, us: set<Uuid>)
    requires Inv(p, h) && AllCleared(p, us) && Enabled(p, a) && !a.EvalEnd? && !a.ResumeBuilder? && !a.Fetched?
    ensures AllCleared(Next(p, a), us)
  {
    if a.BuildEnd? {
      BuildEndClears(p, h, a.failed, us);
    } else if a.SuspendBuilder? {
      SuspendClears(p, h, a.stops, us);
    } else if a.SendBuild? || a.SendDeploy? || a.BuildUser? || a.DeployUser? {
      ConfirmersClear(p, a, us);
    } else if a.BuildConfirmed? {
      BuildConfirmedClears(p, h, us);
    } else if a.EvaluationDone? {
      EvaluationDoneClears(p, us);
    } else if a.BuildDone? {
      BuildDoneClears(p, a.operation, us);
    } else {
      DeployerClears(p, a, us);
    }
  }

  lemma HostIsConstant(p: Pipeline, a: Step)
    requires Enabled(p, a)
    ensures Next(p, a).host == p.host
  {
  }

  /** Every step keeps the invariant. */
  lemma StepClears(p: Pipeline, h: History, a: Step, us: set<Uuid>)
    requires Inv(p, h) && AllCleared(p, us) && Enabled(p, a) && Provenance.Fresh(p, h, a)
    ensures AllCleared(Next(p, a), us + Bypassed(p, a)) && Next(p, a).host == p.host
  {
    HostIsConstant(p, a);
    if a.EvalEnd? {
      EvalEndClears(p, h, a.result, a.inStore, us);
    } else if a.ResumeBuilder? {
      ResumeClears(p, h, us);
    } else if a.Fetched? && a.updated && a.verified {
      FetchedClears(p, h, a, us);
    } else {
      assert us + Bypassed(p, a) == us;
      if !a.Fetched? {
        OtherStepClears(p, h, a, us);
      }
    }
  }

  // --------------------------------------------------------------------- runs

  /** Before step n, the generation was let through without a comparison. */
  ghost predicate BypassedBefore(r: Run, n: nat, u: Uuid) {
    exists i :: 0 <= i < n && i < |r.steps| && i < |r.ps| && Bypasses(r.ps[i], r.steps[i], u)
  }

  ghost function AllBypassed(r: Run, n: nat): set<Uuid>
    requires n <= |r.steps| < |r.ps|
  {
    if n == 0 then {} else AllBypassed(r, n - 1) + Bypassed(r.ps[n - 1], r.steps[n - 1])
  }

  lemma {:induction false} BypassedIsTrue(r: Run, n: nat, u: Uuid)
    requires n <= |r.steps| < |r.ps| && u in AllBypassed(r, n)
    ensures BypassedBefore(r, n, u)
  {
    if n > 0 && u in AllBypassed(r, n - 1) {
      BypassedIsTrue(r, n - 1, u);
    }
  }

  lemma {:induction false} RunClears(r: Run, n: nat)
    requires IsRun(r) && n <= |r.steps|
    ensures AllCleared(r.ps[n], AllBypassed(r, n)) && r.ps[n].host == r.ps[0].host
  {
    if n == 0 {
      StartIsCleared(r.ps[0]);
    } else {
      RunClears(r, n - 1);
      RunKeeps(r, n - 1);
      RunStepClears(r, n - 1, AllBypassed(r, n - 1));
    }
  }

  lemma RunStepClears(r: Run, i: nat, us: set<Uuid>)
    requires IsRun(r) && i < |r.steps| && Inv(r.ps[i], r.hs[i]) && AllCleared(r.ps[i], us)
    ensures AllCleared(r.ps[i + 1], us + Bypassed(r.ps[i], r.steps[i])) && r.ps[i + 1].host == r.ps[i].host
  {
    assert StepAt(r, i);
    StepClears(r.ps[i], r.hs[i], r.steps[i], us);
  }

  lemma StartIsCleared(p: Pipeline)
    requires IsStart(p)
    ensures AllCleared(p, {})
  {
  }

  /** In every run, a generation that the loop sends to the deploy confirmer asks
      for no machine or for this host, unless its evaluation ended with its
      storepath in the Nix store or a Resume started its build. */
  lemma SentGenerationsMatch(r: Run, n: nat)
    requires IsRun(r) && n <= |r.steps| && r.ps[n].loop.SubmittingDeploy? && Has(r.ps[n].x.s, r.ps[n].loop.uuid)
    ensures var g := Get(r.ps[n].x.s, r.ps[n].loop.uuid);
      Matches(g, r.ps[0].host) || BypassedBefore(r, n, g.uuid)
  {
    RunClears(r, n);
    if r.ps[n].loop.uuid in AllBypassed(r, n) {
      BypassedIsTrue(r, n, r.ps[n].loop.uuid);
    }
  }

  /** The same holds of every generation handed to the deployer. */
  lemma HandedGenerationsMatch(r: Run, k: nat)
    requires IsRun(r) && k < |r.steps| && r.steps[k].DeployConfirmed?
    requires r.ps[k].deploy.out.Some? && Has(r.ps[k].x.s, r.ps[k].deploy.out.value)
    ensures var g := Get(r.ps[k].x.s, r.ps[k].deploy.out.value);
      Matches(g, r.ps[0].host) || BypassedBefore(r, k, g.uuid)
  {
    RunClears(r, k);
    if r.ps[k].deploy.out.value in AllBypassed(r, k) {
      BypassedIsTrue(r, k, r.ps[k].deploy.out.value);
    }
  }

  // ---------------------------------------------------------- the two bypasses

  predicate Foreign(g: Generation, host: string) {
    g.machineId != "" && g.machineId != host
  }

  /** The evaluated generation counts as built and keeps what it asks for. */
  lemma InStoreIsBuilt(x: B.Both, r: EvalResult)
    requires B.Inv(x) && x.b.evaluator.Some?
    ensures var u, y := x.b.evaluator.value, B.EvalEnds(x, r, true);
      && Has(y.s, u) && Get(y.s, u) == FinishedBuild(StartedBuild(FinishedEval(Get(x.s, u), r)), false)
      && y.b.buildDone == B.Notify(x.b.buildDone, u)
  {
    var u := x.b.evaluator.value;
    B.EvalFinishedIs(x.s, u, r);
    var s1 := AfterEvalFinished(x.s, u, r);
    assert Has(s1, u);
    B.BuildStartIs(s1, u);
    var s2 := AfterBuildStart(s1, u);
    assert Has(s2, u);
    B.BuildFinishedIs(s2, u, false);
  }

  lemma EndedBuildIsBuilt(x: B.Both)
    requires B.Inv(x) && x.b.buildator.Some?
    ensures var u, y := x.b.buildator.value, B.BuildEnds(x, false);
      && Has(y.s, u) && Get(y.s, u) == FinishedBuild(Get(x.s, u), false) && y.b.buildDone == B.Notify(x.b.buildDone, u)
  {
    B.BuildFinishedIs(x.s, x.b.buildator.value, false);
  }

  lemma ResumeStarts(x: B.Both)
    requires B.Inv(x) && x.b.suspended && x.b.managed.Some? && !x.b.isBuilding
    requires B.HasEval(x.s, x.b.managed.value, Evaluated) && Get(x.s, x.b.managed.value).build != Built
    ensures var u, y := x.b.managed.value, B.AfterResume(x);
      && B.Inv(y) && x.b.buildator.None? && y.b.buildator == Some(u) && y.b.buildDone == x.b.buildDone
      && Has(y.s, u) && Get(y.s, u) == StartedBuild(Get(x.s, u))
  {
    B.ResumeKeeps(x);
    B.BuildStartIs(x.s, x.b.managed.value);
  }

  /** A built generation is sent to the deploy confirmer without a look at the
      machine it asks for. */
  lemma BuiltIsSent(p: Pipeline, u: Uuid, operation: string)
    requires p.loop.Idle? && p.x.b.buildDone == Some(u) && Has(p.x.s, u) && !Get(p.x.s, u).buildErr
    requires !D.AlreadyDeployed(p.deployer, D.Deployed(Get(p.x.s, u).outPath, operation))
    ensures Enabled(p, BuildDone(operation)) && Next(p, BuildDone(operation)).loop == SubmittingDeploy(u)
    ensures Next(p, BuildDone(operation)).x.s == p.x.s
  {
  }

  /** A generation whose storepath exists already goes on to the deploy confirmer
      whatever machine it asks for. */
  lemma ExistingStorepathSkipsMachineId(p: Pipeline, r: EvalResult, operation: string)
    requires B.Inv(p.x) && p.loop.Idle? && p.x.b.evaluator.Some? && p.x.b.buildDone.None?
    requires !D.AlreadyDeployed(p.deployer, D.Deployed(r.outPath, operation))
    ensures var u, q := p.x.b.evaluator.value, Next(p, EvalEnd(r, true));
      && Enabled(q, BuildDone(operation))
      && var z := Next(q, BuildDone(operation));
        z.loop == SubmittingDeploy(u) && Has(z.x.s, u) && Get(z.x.s, u).machineId == r.machineId
  {
    InStoreIsBuilt(p.x, r);
    BuiltIsSent(Next(p, EvalEnd(r, true)), p.x.b.evaluator.value, operation);
  }

  /** A Resume builds the managed generation, whatever machine it asks for, and it
      goes on to the deploy confirmer. */
  lemma ResumeSkipsMachineId(p: Pipeline, operation: string)
    requires B.Inv(p.x) && p.loop.Idle? && p.x.b.suspended && p.x.b.managed.Some? && !p.x.b.isBuilding
      && p.x.b.buildDone.None?
    requires B.HasEval(p.x.s, p.x.b.managed.value, Evaluated) && Get(p.x.s, p.x.b.managed.value).build != Built
    requires !D.AlreadyDeployed(p.deployer, D.Deployed(Get(p.x.s, p.x.b.managed.value).outPath, operation))
    ensures var u, q := p.x.b.managed.value, Next(p, ResumeBuilder);
      && StartedByResume(p, ResumeBuilder, u) && Enabled(q, BuildEnd(false))
      && var y := Next(q, BuildEnd(false));
        && Enabled(y, BuildDone(operation))
        && var z := Next(y, BuildDone(operation));
          z.loop == SubmittingDeploy(u) && Has(z.x.s, u) && Get(z.x.s, u).machineId == Get(p.x.s, u).machineId
  {
    var q := Next(p, ResumeBuilder);
    ResumeStarts(p.x);
    EndedBuildIsBuilt(q.x);
    BuiltIsSent(Next(q, BuildEnd(false)), p.x.b.managed.value, operation);
  }

  // ------------------------------------------------- foreign generations, sent

  /** A run takes the steps and arrives where the loop sends u, which asks for
      another machine, to the deploy confirmer. */
  ghost predicate SendsForeign(p: Pipeline, steps: seq<Step>, u: Uuid) {
    exists q :: Reaches(p, steps, q) && IsSendingForeign(q, u)
  }

  predicate IsSendingForeign(q: Pipeline, u: Uuid) {
    q.loop == SubmittingDeploy(u) && Has(q.x.s, u) && Foreign(Get(q.x.s, u), q.host)
  }

  /** Evaluation ends and does not find the storepath: the loop is told. */
  lemma EvaluationIsReported(x: B.Both, r: EvalResult)
    requires B.Inv(x) && x.b.evaluator.Some?
    ensures var u, y := x.b.evaluator.value, B.EvalEnds(x, r, false);
      && B.Inv(y) && Has(y.s, u) && Get(y.s, u) == FinishedEval(Get(x.s, u), r)
      && y.b == x.b.(isEvaluating := false, evaluator := None, evaluationDone := B.Notify(x.b.evaluationDone, u))
  {
    B.EvalEndsKeeps(x, r, false);
    B.EvalFinishedIs(x.s, x.b.evaluator.value, r);
  }

  ghost predicate IsForeignTo(p: Pipeline, r: EvalResult, u: Uuid, operation: string) {
    && IsStart(p) && u != "" && !Has(p.x.s, u)
    && !r.failed && r.machineId != "" && r.machineId != p.host
    && !D.AlreadyDeployed(p.deployer, D.Deployed(r.outPath, operation))
  }

  /** From any initial state, a foreign generation whose storepath exists. */
  lemma ExistingStorepathExample(p: Pipeline, r: EvalResult, u: Uuid, commit: string, k: B.Stops, operation: string)
    requires IsForeignTo(p, r, u, operation)
    ensures SendsForeign(p, [Fetched(true, true, commit, u, k), EvalEnd(r, true), BuildDone(operation)], u)
  {
    var q := FirstFetchReaches(p, u, commit, k);
    ExistingStorepathSkipsMachineId(q, r, operation);
    var a, b, c := Fetched(true, true, commit, u, k), EvalEnd(r, true), BuildDone(operation);
    ReachesTwo(p, [a], q, b, c);
    assert [a] + [b, c] == [a, b, c];
    assert IsSendingForeign(Next(Next(q, b), c), u);
  }

  /** The loop refuses a foreign generation. */
  lemma ForeignIsRefused(p: Pipeline, u: Uuid)
    requires p.loop.Idle? && p.x.b.evaluationDone == Some(u) && Has(p.x.s, u) && Foreign(Get(p.x.s, u), p.host)
    ensures Next(p, EvaluationDone) == p.(x := p.x.(b := p.x.b.(evaluationDone := None)))
  {
  }

  /** The managed generation is evaluated for another machine, the builder is
      suspended and nothing is on its way. */
  ghost predicate HoldsForeign(p: Pipeline, r: EvalResult, u: Uuid) {
    && p.loop.Idle? && B.Inv(p.x) && p.x.b == B.BuilderState(Some(u), false, false, true, None, None, None, None)
    && B.HasEval(p.x.s, u, Evaluated) && Get(p.x.s, u).build == BuildInit
    && Get(p.x.s, u).outPath == r.outPath && Get(p.x.s, u).machineId == r.machineId
  }

  ghost predicate ReachesForeign(p: Pipeline, steps: seq<Step>, q: Pipeline, r: EvalResult, u: Uuid) {
    Reaches(p, steps, q) && HoldsForeign(q, r, u) && q.host == p.host && q.deployer == p.deployer
  }

  /** The builder is suspended, evaluates, and the loop refuses the generation. */
  function Refusal(r: EvalResult, u: Uuid, commit: string, k: B.Stops): seq<Step> {
    [SuspendBuilder(k), Fetched(true, true, commit, u, k), EvalEnd(r, false), EvaluationDone]
  }

  /** Suspended, the builder starts to evaluate. */
  lemma FetchedWhileSuspended(p: Pipeline, u: Uuid, commit: string, k: B.Stops, q: Pipeline)
    requires IsStart(p) && u != "" && !Has(p.x.s, u)
    requires q == p.(x := AfterFetched(p.x.(b := p.x.b.(suspended := true)), commit, u, k))
    ensures Reaches(p, [SuspendBuilder(k), Fetched(true, true, commit, u, k)], q)
    ensures q.loop.Idle? && q.host == p.host && q.deployer == p.deployer && B.Inv(q.x)
    ensures q.x.b == B.BuilderState(Some(u), true, false, true, Some(u), None, None, None)
    ensures Has(q.x.s, u) && Get(q.x.s, u) == Generation(u, commit, Evaluating, false, "", "", BuildInit, false)
  {
    var a, b := SuspendBuilder(k), Fetched(true, true, commit, u, k);
    ReachesItself(p);
    ReachesNext(p, [], p, a);
    var p1 := p.(x := p.x.(b := p.x.b.(suspended := true)));
    assert [] + [a] == [a] && Next(p, a) == p1;
    ReachesFetch(p, [a], p1, b);
    assert [a] + [b] == [a, b];
    FirstFetch(p1.x, u, commit, k);
  }

  /** The evaluation ends, and the loop refuses the generation. */
  lemma RefusedWhileSuspended(p: Pipeline, r: EvalResult, u: Uuid, commit: string, k: B.Stops, operation: string)
    requires IsForeignTo(p, r, u, operation)
    ensures exists q :: ReachesForeign(p, Refusal(r, u, commit, k), q, r, u)
  {
    var p2 := p.(x := AfterFetched(p.x.(b := p.x.b.(suspended := true)), commit, u, k));
    FetchedWhileSuspended(p, u, commit, k, p2);
    EvaluationIsReported(p2.x, r);
    var p3 := Next(p2, EvalEnd(r, false));
    ForeignIsRefused(p3, u);
    var first := [SuspendBuilder(k), Fetched(true, true, commit, u, k)];
    ReachesTwo(p, first, p2, EvalEnd(r, false), EvaluationDone);
    assert first + [EvalEnd(r, false), EvaluationDone] == Refusal(r, u, commit, k);
    assert ReachesForeign(p, Refusal(r, u, commit, k), Next(p3, EvaluationDone), r, u);
  }

  /** A Resume builds the foreign generation, and it is sent. */
  lemma ResumedIsSent(p: Pipeline, first: seq<Step>, q: Pipeline, r: EvalResult, u: Uuid, operation: string)
    requires ReachesForeign(p, first, q, r, u) && IsForeignTo(p, r, u, operation)
    ensures SendsForeign(p, first + [ResumeBuilder] + [BuildEnd(false), BuildDone(operation)], u)
  {
    ResumeSkipsMachineId(q, operation);
    var q1 := Next(q, ResumeBuilder);
    ReachesNext(p, first, q, ResumeBuilder);
    ReachesTwo(p, first + [ResumeBuilder], q1, BuildEnd(false), BuildDone(operation));
    assert IsSendingForeign(Next(Next(q1, BuildEnd(false)), BuildDone(operation)), u);
  }

  /** From any initial state, a foreign generation that the loop refuses and a
      Resume builds. */
  lemma ResumeExample(p: Pipeline, r: EvalResult, u: Uuid, commit: string, k: B.Stops, operation: string)
    requires IsForeignTo(p, r, u, operation)
    ensures SendsForeign(p, Refusal(r, u, commit, k) + [ResumeBuilder] + [BuildEnd(false), BuildDone(operation)], u)
  {
    RefusedWhileSuspended(p, r, u, commit, k, operation);
    var q :| ReachesForeign(p, Refusal(r, u, commit, k), q, r, u);
    ResumedIsSent(p, Refusal(r, u, commit, k), q, r, u, operation);
  }
}
