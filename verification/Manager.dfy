/** The manager loop, which passes generations from the fetcher to the builder,
    the confirmers and the deployer. */
module Manager {
  import opened Common
  import opened Generations
  import B = Builder
  import C = Confirmer
  import D = Deployer

  /** What the loop is doing: sending to a confirmer blocks it until the
      confirmer is ready to receive. */
  datatype Loop = Idle | SubmittingBuild(uuid: Uuid) | SubmittingDeploy(uuid: Uuid)

  /** A confirmer with the uuid it is blocked on handing over, if any. */
  datatype Gate = Gate(state: C.State, out: Option<Uuid>)

  /** `host` is the machine identifier of the host. */
  datatype Pipeline = Pipeline(x: B.Both, build: Gate, deploy: Gate, deployer: D.State, loop: Loop, host: string)

  datatype Step =
    | Fetched(updated: bool, verified: bool, commit: string, uuid: Uuid, stops: B.Stops)
    | EvaluationDone
    | SendBuild
    | BuildConfirmed
    | BuildDone(operation: string)
    | SendDeploy
    | DeployConfirmed(operation: string)
    | EvalEnd(result: EvalResult, inStore: bool)
    | BuildEnd(failed: bool)
    | SuspendBuilder(stops: B.Stops)
    | ResumeBuilder
    | BuildUser(event: C.Event)
    | DeployUser(event: C.Event)
    | DeployerActs(action: D.Action)

  // ------------------------------------------------------------ specification

  function Fed(g: Gate, e: C.Event): Gate {
    Gate(C.Next(g.state, e), C.Emits(g.state, e))
  }

  /** Each step waits for what it consumes. Users confirm and cancel, timers
      tick; they do not submit. The deployer acts on its own, and users may force
      a deployment; the loop does not. */
  predicate Enabled(p: Pipeline, a: Step) {
    match a
    case Fetched(_, _, _, _, _) => p.loop.Idle?
    case EvaluationDone => p.loop.Idle? && p.x.b.evaluationDone.Some?
    case SendBuild => p.loop.SubmittingBuild? && p.build.out.None?
    case BuildConfirmed => p.loop.Idle? && p.build.out.Some?
    case BuildDone(_) => p.loop.Idle? && p.x.b.buildDone.Some?
    case SendDeploy => p.loop.SubmittingDeploy? && p.deploy.out.None?
    case DeployConfirmed(_) => p.loop.Idle? && p.deploy.out.Some?
    case EvalEnd(_, _) => p.x.b.evaluator.Some?
    case BuildEnd(_) => p.x.b.buildator.Some?
    case SuspendBuilder(_) => true
    case ResumeBuilder => true
    case BuildUser(e) => p.build.out.None? && !e.Submit?
    case DeployUser(e) => p.deploy.out.None? && !e.Submit?
    case DeployerActs(act) => (act.Submit? ==> act.force) && D.Enabled(p.deployer, act)
  }

  function Submission(g: Generation, operation: string): D.Submission {
    D.Submission(g.uuid, D.Deployed(g.outPath, operation))
  }

  function AfterFetched(x: B.Both, commit: string, u: Uuid, k: B.Stops): B.Both {
    B.AfterEval(x.(s := Added(x.s, u, commit)), u, k)
  }

  function AfterEvaluationDone(p: Pipeline): Pipeline
    requires p.x.b.evaluationDone.Some?
  {
    var u := p.x.b.evaluationDone.value;
    var q := p.(x := p.x.(b := p.x.b.(evaluationDone := None)));
    if !Has(p.x.s, u) then q
    else
      var g := Get(p.x.s, u);
      if g.evalErr || (g.machineId != "" && p.host != g.machineId) then q
      else q.(loop := SubmittingBuild(u))
  }

  function AfterBuildDone(p: Pipeline, operation: string): Pipeline
    requires p.x.b.buildDone.Some?
  {
    var u := p.x.b.buildDone.value;
    var q := p.(x := p.x.(b := p.x.b.(buildDone := None)));
    if !Has(p.x.s, u) then q
    else
      var g := Get(p.x.s, u);
      if g.buildErr || D.AlreadyDeployed(p.deployer, D.Deployed(g.outPath, operation)) then q
      else q.(loop := SubmittingDeploy(u))
  }

  function AfterDeployConfirmed(p: Pipeline, operation: string): Pipeline
    requires p.deploy.out.Some?
  {
    var u := p.deploy.out.value;
    var q := p.(deploy := p.deploy.(out := None));
    if !Has(p.x.s, u) then q
    else q.(deployer := D.Next(p.deployer, D.Submit(Submission(Get(p.x.s, u), operation), false)))
  }

  function Next(p: Pipeline, a: Step): Pipeline
    requires Enabled(p, a)
  {
    match a
    case Fetched(updated, verified, commit, u, k) =>
      if updated && verified then p.(x := AfterFetched(p.x, commit, u, k)) else p
    case EvaluationDone => AfterEvaluationDone(p)
    case SendBuild => p.(build := Fed(p.build, C.Submit(p.loop.uuid)), loop := Idle)
    case BuildConfirmed => p.(build := p.build.(out := None), x := B.AfterSubmitBuild(p.x, p.build.out.value))
    case BuildDone(operation) => AfterBuildDone(p, operation)
    case SendDeploy => p.(deploy := Fed(p.deploy, C.Submit(p.loop.uuid)), loop := Idle)
    case DeployConfirmed(operation) => AfterDeployConfirmed(p, operation)
    case EvalEnd(r, e) => p.(x := B.EvalEnds(p.x, r, e))
    case BuildEnd(f) => p.(x := B.BuildEnds(p.x, f))
    case SuspendBuilder(k) => p.(x := B.AfterSuspend(p.x, k))
    case ResumeBuilder => p.(x := B.AfterResume(p.x))
    case BuildUser(e) => p.(build := Fed(p.build, e))
    case DeployUser(e) => p.(deploy := Fed(p.deploy, e))
    case DeployerActs(act) => p.(deployer := D.Next(p.deployer, act))
  }

  // -------------------------------------------------------------- the program

  class Manager {
    const builder: B.Builder
    const buildConfirmer: C.Confirmer
    const deployConfirmer: C.Confirmer
    const deployer: D.Deployer
    const machineId: string
    var buildOut: Option<Uuid>
    var deployOut: Option<Uuid>
    var loop: Loop

    function Current(): Pipeline
      reads this, builder, builder.store, buildConfirmer, deployConfirmer, deployer
    {
      Pipeline(builder.Current(), Gate(buildConfirmer.Current(), buildOut), Gate(deployConfirmer.Current(), deployOut),
               deployer.Current(), loop, machineId)
    }

    constructor (builder: B.Builder, buildConfirmer: C.Confirmer, deployConfirmer: C.Confirmer, deployer: D.Deployer,
                 machineId: string)
      ensures this.builder == builder && this.buildConfirmer == buildConfirmer
        && this.deployConfirmer == deployConfirmer
      ensures this.deployer == deployer && this.machineId == machineId
      ensures buildOut == None && deployOut == None && loop == Idle
    {
      this.builder, this.buildConfirmer, this.deployConfirmer, this.deployer :=
        builder, buildConfirmer, deployConfirmer, deployer;
      this.machineId := machineId;
      buildOut, deployOut, loop := None, None, Idle;
    }

    method OnFetched(updated: bool, verified: bool, commit: string, u: Uuid, k: B.Stops)
      requires Enabled(Current(), Fetched(updated, verified, commit, u, k))
      modifies builder, builder.store
      ensures Current() == Next(old(Current()), Fetched(updated, verified, commit, u, k))
    {
      if !updated {
        return;
      }
      if verified {
        builder.store.NewGeneration(u, commit);
        var ok := builder.Eval(u, k);
      }
    }

    method OnEvaluationDone()
      requires Enabled(Current(), EvaluationDone)
      modifies this, builder
      ensures Current() == Next(old(Current()), EvaluationDone)
    {
      var u := builder.evaluationDone.value;
      builder.evaluationDone := None;
      var g := builder.store.GenerationGet(u);
      if g.None? {
        return;
      }
      if g.value.evalErr {
        return;
      }
      if !(g.value.machineId != "" && machineId != g.value.machineId) {
        loop := SubmittingBuild(u);
      }
    }

    method DoSendBuild()
      requires Enabled(Current(), SendBuild) && buildConfirmer != deployConfirmer
      modifies this, buildConfirmer
      ensures Current() == Next(old(Current()), SendBuild)
    {
      buildOut := buildConfirmer.Handle(C.Submit(loop.uuid));
      loop := Idle;
    }

    method OnBuildConfirmed()
      requires Enabled(Current(), BuildConfirmed)
      modifies this, builder, builder.store
      ensures Current() == Next(old(Current()), BuildConfirmed)
    {
      var u := buildOut.value;
      buildOut := None;
      builder.SubmitBuild(u);
    }

    method OnBuildDone(operation: string)
      requires Enabled(Current(), BuildDone(operation))
      modifies this, builder
      ensures Current() == Next(old(Current()), BuildDone(operation))
    {
      var u := builder.buildDone.value;
      builder.buildDone := None;
      var g := builder.store.GenerationGet(u);
      if g.None? {
        return;
      }
      if !g.value.buildErr {
        if !deployer.IsAlreadyDeployed(D.Deployed(g.value.outPath, operation)) {
          loop := SubmittingDeploy(u);
        }
      }
    }

    method DoSendDeploy()
      requires Enabled(Current(), SendDeploy) && buildConfirmer != deployConfirmer
      modifies this, deployConfirmer
      ensures Current() == Next(old(Current()), SendDeploy)
    {
      deployOut := deployConfirmer.Handle(C.Submit(loop.uuid));
      loop := Idle;
    }

    method OnDeployConfirmed(operation: string)
      requires Enabled(Current(), DeployConfirmed(operation))
      modifies this, deployer
      ensures Current() == Next(old(Current()), DeployConfirmed(operation))
    {
      var u := deployOut.value;
      deployOut := None;
      var g := builder.store.GenerationGet(u);
      if g.None? {
        return;
      }
      deployer.Submit(Submission(g.value, operation), false);
    }
  }
}
