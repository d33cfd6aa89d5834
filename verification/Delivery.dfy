/** A verified commit is deployed: the way of a generation through the pipeline. */
module Delivery {
  import opened Common
  import opened Composition
  import opened Generations
  import opened Manager
  import opened PipelineRuns
  import B = Builder
  import C = Confirmer
  import D = Deployer

  // --------------------------------------------------------------------- steps

  /** The pipeline takes the steps and arrives at q. */
  ghost predicate Goes(p: Pipeline, steps: seq<Step>, q: Pipeline) {
    exists ps :: IsWay(ps, p, steps, q)
  }

  ghost predicate IsWay(ps: seq<Pipeline>, p: Pipeline, steps: seq<Step>, q: Pipeline) {
    && |ps| == |steps| + 1 && ps[0] == p && ps[|steps|] == q
    && forall i :: 0 <= i < |steps| ==> Enabled(ps[i], steps[i]) && ps[i + 1] == Next(ps[i], steps[i])
  }

  lemma GoesNowhere(p: Pipeline)
    ensures Goes(p, [], p)
  {
    assert IsWay([p], p, [], p);
  }

  lemma GoesOn(p: Pipeline, steps: seq<Step>, q: Pipeline, a: Step)
    requires Goes(p, steps, q) && Enabled(q, a)
    ensures Goes(p, steps + [a], Next(q, a))
  {
    var ps :| IsWay(ps, p, steps, q);
    assert IsWay(ps + [Next(q, a)], p, steps + [a], Next(q, a));
  }

  /** The way to the last step but one. */
  lemma GoesLast(p: Pipeline, steps: seq<Step>, a: Step, q: Pipeline) returns (mid: Pipeline)
    requires Goes(p, steps + [a], q)
    ensures Goes(p, steps, mid) && Enabled(mid, a) && q == Next(mid, a)
  {
    var all := steps + [a];
    var ps :| IsWay(ps, p, all, q);
    mid := ps[|steps|];
    assert Enabled(ps[|steps|], all[|steps|]);
    assert IsWay(ps[..|all|], p, steps, mid);
  }

  // -------------------------------------------------------------------- stages

  /** On its way from p to q, the generation u has become g; the builder is in state
      b, and the deployer has not been touched. */
  ghost predicate IsAt(p: Pipeline, q: Pipeline, u: Uuid, b: B.BuilderState, g: Generation) {
    && q.host == p.host && q.deployer == p.deployer
    && B.Inv(q.x) && q.x.b == b && Has(q.x.s, u) && Get(q.x.s, u) == g
  }

  /** The builder manages u; `evaluator`, `buildator` and the two notifications say
      how far it is. */
  function Managing(u: Uuid, evaluator: Option<Uuid>, buildator: Option<Uuid>,
                    evaluationDone: Option<Uuid>, buildDone: Option<Uuid>): B.BuilderState
  {
    B.BuilderState(Some(u), evaluator.Some?, buildator.Some?, false, evaluator, buildator, evaluationDone, buildDone)
  }

  ghost predicate IsIdle(b: B.BuilderState) {
    && b.evaluator.None? && b.buildator.None? && b.evaluationDone.None? && b.buildDone.None?
    && !b.isBuilding && !b.suspended
  }

  /** A new generation is evaluated. */
  lemma IsEvaluated(p: Pipeline, u: Uuid, commit: string, k: B.Stops)
    requires p.loop.Idle? && B.Inv(p.x) && IsIdle(p.x.b) && !Has(p.x.s, u)
    ensures var q := Next(p, Fetched(true, true, commit, u, k));
      && IsAt(p, q, u, Managing(u, Some(u), None, None, None),
              Generation(u, commit, Evaluating, false, "", "", BuildInit, false))
      && q.loop.Idle? && q.build == p.build && q.deploy == p.deploy
  {
    FirstFetch(p.x, u, commit, k);
  }

  /** The evaluation succeeds, and the loop learns of it. */
  lemma IsReported(p: Pipeline, q: Pipeline, u: Uuid, g: Generation, e: EvalResult)
    requires IsAt(p, q, u, Managing(u, Some(u), None, None, None), g)
    ensures Enabled(q, EvalEnd(e, false))
    ensures var t := Next(q, EvalEnd(e, false));
      && IsAt(p, t, u, Managing(u, None, None, Some(u), None),
              g.(eval := if e.failed then EvalFailed else Evaluated, evalErr := g.evalErr || e.failed,
                 outPath := e.outPath, machineId := e.machineId))
      && t.loop == q.loop && t.build == q.build && t.deploy == q.deploy
  {
    B.EvalEndsKeeps(q.x, e, false);
    B.EvalFinishedIs(q.x.s, u, e);
  }

  /** The loop asks for the build exactly when the evaluation succeeded and the
      generation is for this host. */
  lemma IsAskedFor(p: Pipeline, q: Pipeline, u: Uuid, g: Generation)
    requires IsAt(p, q, u, Managing(u, None, None, Some(u), None), g) && q.loop.Idle?
    ensures Enabled(q, EvaluationDone)
    ensures var t := Next(q, EvaluationDone);
      && IsAt(p, t, u, Managing(u, None, None, None, None), g)
      && t.loop == (if !g.evalErr && (g.machineId == "" || g.machineId == p.host) then SubmittingBuild(u) else Idle)
      && t.build == q.build && t.deploy == q.deploy
  {
  }

  /** A confirmed generation that is evaluated and not built is built. */
  lemma IsBuilding(p: Pipeline, q: Pipeline, u: Uuid, g: Generation)
    requires IsAt(p, q, u, Managing(u, None, None, None, None), g) && q.loop.Idle? && q.build.out == Some(u)
    requires g.eval == Evaluated && g.build != Built
    ensures Enabled(q, BuildConfirmed)
    ensures var t := Next(q, BuildConfirmed);
      && IsAt(p, t, u, Managing(u, None, Some(u), None, None), g.(build := Building))
      && t.loop.Idle? && t.build == q.build.(out := None) && t.deploy == q.deploy
  {
    B.BuildKeeps(q.x, u);
    B.BuildStartIs(q.x.s, u);
  }

  /** The build ends, and the loop learns of it. */
  lemma IsBuilt(p: Pipeline, q: Pipeline, u: Uuid, g: Generation, failed: bool)
    requires IsAt(p, q, u, Managing(u, None, Some(u), None, None), g)
    ensures Enabled(q, BuildEnd(failed))
    ensures var t := Next(q, BuildEnd(failed));
      && IsAt(p, t, u, Managing(u, None, None, None, Some(u)),
              g.(build := if failed then BuildFailed else Built, buildErr := failed))
      && t.loop == q.loop && t.build == q.build && t.deploy == q.deploy
  {
    B.BuildEndsKeeps(q.x, failed);
    B.BuildFinishedIs(q.x.s, u, failed);
  }

  /** The loop asks for the deployment exactly when the build succeeded and the
      generation does not count as deployed. */
  lemma IsOffered(p: Pipeline, q: Pipeline, u: Uuid, g: Generation, op: string)
    requires IsAt(p, q, u, Managing(u, None, None, None, Some(u)), g) && q.loop.Idle?
    ensures Enabled(q, BuildDone(op))
    ensures var t := Next(q, BuildDone(op));
      && IsAt(p, t, u, Managing(u, None, None, None, None), g)
      && t.loop == (if !g.buildErr && p.deployer.previous != Some(D.Deployed(g.outPath, op)) then SubmittingDeploy(u)
                    else Idle)
      && t.build == q.build && t.deploy == q.deploy
  {
  }

  // ---------------------------------------------------------------- confirming

  /** The gate is free, and nobody has confirmed u before it was submitted. */
  predicate IsFree(g: Gate, u: Uuid) {
    g.out.None? && u != "" && g.state.confirmed != u
  }

  /** The gate lets u out at once, or when a user confirms it. */
  lemma GateLetsOut(g: Gate, u: Uuid)
    requires IsFree(g, u)
    ensures var f := Fed(g, C.Submit(u));
      if g.state.mode == C.Without then f.out == Some(u)
      else f.out.None? && Fed(f, C.Confirm(u)).out == Some(u)
  {
  }

  function BuildAnswer(g: Gate, u: Uuid): seq<Step> {
    if g.state.mode == C.Without then [SendBuild] else [SendBuild, BuildUser(C.Confirm(u))]
  }

  function DeployAnswer(g: Gate, u: Uuid): seq<Step> {
    if g.state.mode == C.Without then [SendDeploy] else [SendDeploy, DeployUser(C.Confirm(u))]
  }

  lemma BuildIsConfirmed(p: Pipeline, steps: seq<Step>, q: Pipeline, u: Uuid)
    requires Goes(p, steps, q) && q.loop == SubmittingBuild(u) && IsFree(q.build, u)
    ensures exists t :: Goes(p, steps + BuildAnswer(q.build, u), t) && t.build.out == Some(u)
                     && t == q.(build := t.build, loop := Idle)
  {
    GateLetsOut(q.build, u);
    var t := Next(q, SendBuild);
    GoesOn(p, steps, q, SendBuild);
    if q.build.state.mode != C.Without {
      GoesOn(p, steps + [SendBuild], t, BuildUser(C.Confirm(u)));
      assert steps + [SendBuild] + [BuildUser(C.Confirm(u))] == steps + BuildAnswer(q.build, u);
    }
  }

  lemma DeployIsConfirmed(p: Pipeline, steps: seq<Step>, q: Pipeline, u: Uuid)
    requires Goes(p, steps, q) && q.loop == SubmittingDeploy(u) && IsFree(q.deploy, u)
    ensures exists t :: Goes(p, steps + DeployAnswer(q.deploy, u), t) && t.deploy.out == Some(u)
                     && t == q.(deploy := t.deploy, loop := Idle)
  {
    GateLetsOut(q.deploy, u);
    var t := Next(q, SendDeploy);
    GoesOn(p, steps, q, SendDeploy);
    if q.deploy.state.mode != C.Without {
      GoesOn(p, steps + [SendDeploy], t, DeployUser(C.Confirm(u)));
      assert steps + [SendDeploy] + [DeployUser(C.Confirm(u))] == steps + DeployAnswer(q.deploy, u);
    }
  }

  // ------------------------------------------------------------------ delivery

  /** Nothing is on its way, and u is new. */
  ghost predicate IsReady(p: Pipeline, u: Uuid) {
    p.loop.Idle? && B.Inv(p.x) && IsIdle(p.x.b) && !Has(p.x.s, u) && IsFree(p.build, u) && IsFree(p.deploy, u)
  }

  /** The result is good for this host and counts as not deployed. */
  ghost predicate IsWanted(p: Pipeline, e: EvalResult, op: string) {
    && !e.failed && (e.machineId == "" || e.machineId == p.host)
    && p.deployer.previous != Some(D.Deployed(e.outPath, op))
  }

  /** The steps up to the build, and from there to the deployer. */
  function ToBuild(p: Pipeline, u: Uuid, commit: string, k: B.Stops, e: EvalResult): seq<Step> {
    [Fetched(true, true, commit, u, k)] + [EvalEnd(e, false)] + [EvaluationDone] + BuildAnswer(p.build, u)
    + [BuildConfirmed]
  }

  function ToDeployer(p: Pipeline, u: Uuid, op: string): seq<Step> {
    [BuildEnd(false)] + [BuildDone(op)] + DeployAnswer(p.deploy, u) + [DeployConfirmed(op)]
  }

  ghost predicate IsBuildingFrom(p: Pipeline, q: Pipeline, u: Uuid, commit: string, e: EvalResult) {
    && IsAt(p, q, u, Managing(u, None, Some(u), None, None),
            Generation(u, commit, Evaluated, false, e.outPath, e.machineId, Building, false))
    && q.loop.Idle? && q.deploy == p.deploy
  }

  lemma GetsBuilt(p: Pipeline, u: Uuid, commit: string, k: B.Stops, e: EvalResult, op: string)
    requires IsReady(p, u) && IsWanted(p, e, op)
    ensures exists q :: Goes(p, ToBuild(p, u, commit, k, e), q) && IsBuildingFrom(p, q, u, commit, e)
  {
    var s1 := [Fetched(true, true, commit, u, k)];
    GoesNowhere(p);
    GoesOn(p, [], p, Fetched(true, true, commit, u, k));
    assert [] + s1 == s1;
    IsEvaluated(p, u, commit, k);
    var p1 := Next(p, Fetched(true, true, commit, u, k));
    var g1 := Generation(u, commit, Evaluating, false, "", "", BuildInit, false);
    IsReported(p, p1, u, g1, e);
    GoesOn(p, s1, p1, EvalEnd(e, false));
    var p2 := Next(p1, EvalEnd(e, false));
    var g2 := Generation(u, commit, Evaluated, false, e.outPath, e.machineId, BuildInit, false);
    IsAskedFor(p, p2, u, g2);
    GoesOn(p, s1 + [EvalEnd(e, false)], p2, EvaluationDone);
    var p3 := Next(p2, EvaluationDone);
    GetsConfirmed(p, s1 + [EvalEnd(e, false)] + [EvaluationDone], p3, u, g2, e);
  }

  lemma GetsConfirmed(p: Pipeline, steps: seq<Step>, q: Pipeline, u: Uuid, g: Generation, e: EvalResult)
    requires Goes(p, steps, q) && IsAt(p, q, u, Managing(u, None, None, None, None), g)
    requires q.loop == SubmittingBuild(u) && IsFree(q.build, u) && q.build == p.build && q.deploy == p.deploy
    requires g == Generation(u, g.commit, Evaluated, false, e.outPath, e.machineId, BuildInit, false)
    ensures exists t :: Goes(p, steps + BuildAnswer(p.build, u) + [BuildConfirmed], t)
                     && IsBuildingFrom(p, t, u, g.commit, e)
  {
    BuildIsConfirmed(p, steps, q, u);
    var t :| Goes(p, steps + BuildAnswer(q.build, u), t) && t.build.out == Some(u)
          && t == q.(build := t.build, loop := Idle);
    IsBuilding(p, t, u, g);
    GoesOn(p, steps + BuildAnswer(q.build, u), t, BuildConfirmed);
  }

  ghost predicate IsHanded(p: Pipeline, q: Pipeline, u: Uuid, e: EvalResult, op: string) {
    q.deployer == p.deployer.(pending := Some(D.Submission(u, D.Deployed(e.outPath, op))), wake := true)
  }

  lemma GetsHanded(p: Pipeline, steps: seq<Step>, q: Pipeline, u: Uuid, commit: string, e: EvalResult, op: string)
    requires Goes(p, steps, q) && IsBuildingFrom(p, q, u, commit, e) && IsFree(p.deploy, u) && IsWanted(p, e, op)
    ensures exists t :: Goes(p, steps + [BuildEnd(false)] + [BuildDone(op)] + DeployAnswer(p.deploy, u)
                                + [DeployConfirmed(op)], t) && IsHanded(p, t, u, e, op)
  {
    var g := Generation(u, commit, Evaluated, false, e.outPath, e.machineId, Building, false);
    IsBuilt(p, q, u, g, false);
    GoesOn(p, steps, q, BuildEnd(false));
    var q1, g1 := Next(q, BuildEnd(false)), g.(build := Built);
    IsOffered(p, q1, u, g1, op);
    GoesOn(p, steps + [BuildEnd(false)], q1, BuildDone(op));
    var q2, s2 := Next(q1, BuildDone(op)), steps + [BuildEnd(false)] + [BuildDone(op)];
    DeployIsConfirmed(p, s2, q2, u);
    var q3 :| Goes(p, s2 + DeployAnswer(q2.deploy, u), q3) && q3.deploy.out == Some(u)
           && q3 == q2.(deploy := q3.deploy, loop := Idle);
    ConfirmedIsSubmitted(q3, op);
    GoesOn(p, s2 + DeployAnswer(q2.deploy, u), q3, DeployConfirmed(op));
  }

  /** From any state in which nothing is on its way, a verified commit gets to the
      deployer, in every combination of modes of the two confirmers: its generation
      is evaluated, confirmed, built, confirmed and becomes the pending submission,
      with the storepath that the evaluation found. */
  lemma VerifiedIsDelivered(p: Pipeline, u: Uuid, commit: string, k: B.Stops, e: EvalResult, op: string)
    requires IsReady(p, u) && IsWanted(p, e, op)
    ensures exists q :: Goes(p, ToBuild(p, u, commit, k, e) + ToDeployer(p, u, op), q) && IsHanded(p, q, u, e, op)
  {
    GetsBuilt(p, u, commit, k, e, op);
    var steps := ToBuild(p, u, commit, k, e);
    var q :| Goes(p, steps, q) && IsBuildingFrom(p, q, u, commit, e);
    GetsHanded(p, steps, q, u, commit, e, op);
    assert steps + [BuildEnd(false)] + [BuildDone(op)] + DeployAnswer(p.deploy, u) + [DeployConfirmed(op)]
        == steps + ToDeployer(p, u, op);
  }
}
