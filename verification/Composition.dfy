/** The pipeline runs its confirmers and its deployer as they run alone, and gives
    the deployer what was confirmed. */
module Composition {
  import opened Common
  import opened Generations
  import opened Manager
  import opened Provenance
  import C = Confirmer
  import D = Deployer

  // --------------------------------------------------------------- confirmers

  /** The events that the build confirmer has received before step n: what the loop
      sends and what its users and timer do. */
  ghost function BuildEvents(r: Run, n: nat): seq<C.Event>
    requires n <= |r.steps| <= |r.ps|
  {
    if n == 0 then []
    else
      var before, p := BuildEvents(r, n - 1), r.ps[n - 1];
      match r.steps[n - 1]
      case SendBuild => if p.loop.Idle? then before else before + [C.Submit(p.loop.uuid)]
      case BuildUser(e) => before + [e]
      case _ => before
  }

  ghost function DeployEvents(r: Run, n: nat): seq<C.Event>
    requires n <= |r.steps| <= |r.ps|
  {
    if n == 0 then []
    else
      var before, p := DeployEvents(r, n - 1), r.ps[n - 1];
      match r.steps[n - 1]
      case SendDeploy => if p.loop.Idle? then before else before + [C.Submit(p.loop.uuid)]
      case DeployUser(e) => before + [e]
      case _ => before
  }

  /** The gate has received the events: it is in the state of a confirmer that has,
      and it holds out what such a confirmer has emitted last, unless the loop has
      taken it. */
  ghost predicate Follows(g: Gate, mode: C.Mode, es: seq<C.Event>) {
    g.state == C.After(mode, es) && (g.out.Some? ==> es != [] && g.out == C.Emission(mode, es))
  }

  lemma FedFollows(g: Gate, mode: C.Mode, es: seq<C.Event>, e: C.Event)
    requires Follows(g, mode, es)
    ensures Follows(Fed(g, e), mode, es + [e]) && Fed(g, e).out == C.Emission(mode, es + [e])
  {
    assert (es + [e])[..|es|] == es;
  }

  /** In every run the two confirmers are what they would be alone with the same
      events. */
  lemma {:induction false} ConfirmersFollow(r: Run, n: nat, build: C.Mode, deploy: C.Mode)
    requires IsRun(r) && n <= |r.steps|
    requires r.ps[0].build.state == C.Start(build) && r.ps[0].deploy.state == C.Start(deploy)
    ensures Follows(r.ps[n].build, build, BuildEvents(r, n)) && Follows(r.ps[n].deploy, deploy, DeployEvents(r, n))
  {
    if n > 0 {
      ConfirmersFollow(r, n - 1, build, deploy);
      assert StepAt(r, n - 1);
      var p, a := r.ps[n - 1], r.steps[n - 1];
      match a {
        case SendBuild => FedFollows(p.build, build, BuildEvents(r, n - 1), C.Submit(p.loop.uuid));
        case BuildUser(e) => FedFollows(p.build, build, BuildEvents(r, n - 1), e);
        case SendDeploy => FedFollows(p.deploy, deploy, DeployEvents(r, n - 1), C.Submit(p.loop.uuid));
        case DeployUser(e) => FedFollows(p.deploy, deploy, DeployEvents(r, n - 1), e);
        case _ => OthersLeaveGates(p, a);
      }
    }
  }

  lemma OthersLeaveGates(p: Pipeline, a: Step)
    requires Enabled(p, a) && !a.SendBuild? && !a.BuildUser? && !a.SendDeploy? && !a.DeployUser?
    ensures var q := Next(p, a);
      && q.build == (if a.BuildConfirmed? then p.build.(out := None) else p.build)
      && q.deploy == (if a.DeployConfirmed? then p.deploy.(out := None) else p.deploy)
  {
  }

  /** What a confirmer emits is held out to the loop at the next state. */
  lemma EmissionIsHeldOut(r: Run, n: nat, build: C.Mode, deploy: C.Mode)
    requires IsRun(r) && n < |r.steps|
    requires r.ps[0].build.state == C.Start(build) && r.ps[0].deploy.state == C.Start(deploy)
    ensures r.steps[n].SendBuild? || r.steps[n].BuildUser? ==>
      r.ps[n + 1].build.out == C.Emission(build, BuildEvents(r, n + 1))
    ensures r.steps[n].SendDeploy? || r.steps[n].DeployUser? ==>
      r.ps[n + 1].deploy.out == C.Emission(deploy, DeployEvents(r, n + 1))
  {
    ConfirmersFollow(r, n, build, deploy);
    assert StepAt(r, n);
    var p, a := r.ps[n], r.steps[n];
    match a {
      case SendBuild => FedFollows(p.build, build, BuildEvents(r, n), C.Submit(p.loop.uuid));
      case BuildUser(e) => FedFollows(p.build, build, BuildEvents(r, n), e);
      case SendDeploy => FedFollows(p.deploy, deploy, DeployEvents(r, n), C.Submit(p.loop.uuid));
      case DeployUser(e) => FedFollows(p.deploy, deploy, DeployEvents(r, n), e);
      case _ =>
    }
  }

  // ------------------------------------------------------------------ deployer

  /** What the loop owes the deployer once u is confirmed: the generation, with its
      storepath and the operation configured for it. */
  function Due(u: Uuid, outPath: string, operation: string): D.Submission {
    D.Submission(u, D.Deployed(outPath, operation))
  }

  /** A confirmed generation that is in the store becomes the pending submission and
      wakes the runner, unless it is what was deployed before the last deployment;
      then, or when it is gone, the deployer is left as it is. */
  lemma ConfirmedIsSubmitted(p: Pipeline, operation: string)
    requires Enabled(p, DeployConfirmed(operation))
    ensures var u, q := p.deploy.out.value, Next(p, DeployConfirmed(operation));
      && q.deploy.out.None? && q.x == p.x && q.build == p.build && q.loop == p.loop
      && if Has(p.x.s, u) && p.deployer.previous != Some(D.Deployed(Get(p.x.s, u).outPath, operation)) then
           && q.deployer.pending == Some(Due(u, Get(p.x.s, u).outPath, operation)) && q.deployer.wake
           && q.deployer == p.deployer.(pending := q.deployer.pending, wake := true)
         else q.deployer == p.deployer
  {
  }

  /** In every run each generation handed over is the pending submission of the
      deployer at the next state, unless it counts as deployed already. */
  lemma HandedIsPending(r: Run, k: nat)
    requires IsRun(r) && k < |r.steps| && r.steps[k].DeployConfirmed?
    requires r.ps[k].deploy.out.Some? && Has(r.ps[k].x.s, r.ps[k].deploy.out.value)
    ensures var g := Get(r.ps[k].x.s, r.ps[k].deploy.out.value);
      var due := Due(g.uuid, g.outPath, r.steps[k].operation);
      && r.hs[k + 1].handed == r.hs[k].handed + [g]
      && if r.ps[k].deployer.previous == Some(due.what) then r.ps[k + 1].deployer == r.ps[k].deployer
         else r.ps[k + 1].deployer.pending == Some(due) && r.ps[k + 1].deployer.wake
  {
    assert StepAt(r, k);
    ConfirmedIsSubmitted(r.ps[k], r.steps[k].operation);
  }

  /** What the deployer is asked to do before step n: an unforced submission for each
      generation handed over, and whatever its users and its runner do. */
  ghost function Actions(r: Run, n: nat): seq<D.Action>
    requires n <= |r.steps| <= |r.ps|
  {
    if n == 0 then []
    else
      var before, p := Actions(r, n - 1), r.ps[n - 1];
      match r.steps[n - 1]
      case DeployConfirmed(operation) =>
        if p.deploy.out.Some? && Has(p.x.s, p.deploy.out.value) then
          before + [D.Submit(Due(p.deploy.out.value, Get(p.x.s, p.deploy.out.value).outPath, operation), false)]
        else before
      case DeployerActs(action) => before + [action]
      case _ => before
  }

  /** In every run the deployer is what it would be alone with the same actions, so
      that everything proved of its interleavings holds of it here. */
  lemma {:induction false} DeployerFollows(r: Run, n: nat)
    requires IsRun(r) && n <= |r.steps|
    ensures D.IsRun(r.ps[0].deployer, Actions(r, n))
    ensures r.ps[n].deployer == D.After(r.ps[0].deployer, Actions(r, n))
  {
    if n > 0 {
      DeployerFollows(r, n - 1);
      assert StepAt(r, n - 1);
      var p, a, d := r.ps[n - 1], r.steps[n - 1], r.ps[0].deployer;
      if a.DeployerActs? {
        D.Extend(d, Actions(r, n - 1), a.action);
      } else if a.DeployConfirmed? {
        ConfirmedIsAnAction(p, a.operation);
        if Has(p.x.s, p.deploy.out.value) {
          var due := Due(p.deploy.out.value, Get(p.x.s, p.deploy.out.value).outPath, a.operation);
          D.Extend(d, Actions(r, n - 1), D.Submit(due, false));
        }
      } else {
        OthersLeaveDeployer(p, a);
      }
    }
  }

  lemma ConfirmedIsAnAction(p: Pipeline, operation: string)
    requires Enabled(p, DeployConfirmed(operation))
    ensures var u, q := p.deploy.out.value, Next(p, DeployConfirmed(operation));
      q.deployer == if Has(p.x.s, u) then D.Next(p.deployer, D.Submit(Due(u, Get(p.x.s, u).outPath, operation), false))
                    else p.deployer
  {
  }

  lemma OthersLeaveDeployer(p: Pipeline, a: Step)
    requires Enabled(p, a) && !a.DeployConfirmed? && !a.DeployerActs?
    ensures Next(p, a).deployer == p.deployer
  {
  }

  /** The submission was handed over by the loop, from the store, or forced by a
      user, at step i. */
  ghost predicate OfferedAt(r: Run, i: nat, s: D.Submission) {
    && i < |r.steps| && i < |r.ps|
    && (r.steps[i] == DeployerActs(D.Submit(s, true))
        || (&& r.steps[i].DeployConfirmed? && r.ps[i].deploy.out == Some(s.generation)
            && Has(r.ps[i].x.s, s.generation)
            && s.what == D.Deployed(Get(r.ps[i].x.s, s.generation).outPath, r.steps[i].operation)))
  }

  ghost predicate OfferedBefore(r: Run, n: nat, s: D.Submission) {
    exists i :: 0 <= i < n && OfferedAt(r, i, s)
  }

  ghost predicate HoldsOnly(r: Run, n: nat, d: D.State) {
    && (d.pending.Some? ==> OfferedBefore(r, n, d.pending.value))
    && (d.runner.Holding? ==> OfferedBefore(r, n, d.runner.taken))
  }

  /** In every run, whatever the runner holds or is about to take was confirmed and
      handed over by the loop, or forced by a user. */
  lemma {:induction false} TakenWasOffered(r: Run, n: nat)
    requires IsRun(r) && n <= |r.steps| && r.ps[0].deployer.pending.None? && !r.ps[0].deployer.runner.Holding?
    ensures HoldsOnly(r, n, r.ps[n].deployer)
  {
    if n > 0 {
      TakenWasOffered(r, n - 1);
      assert StepAt(r, n - 1);
      StillOffered(r, n - 1, r.ps[n - 1].deployer);
      if r.steps[n - 1].DeployConfirmed? {
        ConfirmedIsOffered(r, n - 1);
      } else if r.steps[n - 1].DeployerActs? {
        ActionOffers(r, n - 1, r.ps[n - 1].deployer, r.steps[n - 1].action);
      } else {
        OthersLeaveDeployer(r.ps[n - 1], r.steps[n - 1]);
      }
    }
  }

  lemma ConfirmedIsOffered(r: Run, i: nat)
    requires i < |r.steps| && i < |r.ps| && r.steps[i].DeployConfirmed? && Enabled(r.ps[i], r.steps[i])
    requires HoldsOnly(r, i + 1, r.ps[i].deployer)
    ensures HoldsOnly(r, i + 1, Next(r.ps[i], r.steps[i]).deployer)
  {
    var p, operation := r.ps[i], r.steps[i].operation;
    ConfirmedIsSubmitted(p, operation);
    var u := p.deploy.out.value;
    if Has(p.x.s, u) {
      assert OfferedAt(r, i, Due(u, Get(p.x.s, u).outPath, operation));
    }
  }

  lemma ActionOffers(r: Run, i: nat, d: D.State, a: D.Action)
    requires i < |r.steps| && i < |r.ps| && r.steps[i] == DeployerActs(a) && D.Enabled(d, a) && (a.Submit? ==> a.force)
    requires HoldsOnly(r, i + 1, d)
    ensures HoldsOnly(r, i + 1, D.Next(d, a))
  {
    assert a.Submit? ==> OfferedAt(r, i, a.submission);
  }

  lemma StillOffered(r: Run, n: nat, d: D.State)
    requires HoldsOnly(r, n, d)
    ensures HoldsOnly(r, n + 1, d)
  {
    if d.pending.Some? {
      var i :| 0 <= i < n && OfferedAt(r, i, d.pending.value);
      assert 0 <= i < n + 1 && OfferedAt(r, i, d.pending.value);
    }
    if d.runner.Holding? {
      var i :| 0 <= i < n && OfferedAt(r, i, d.runner.taken);
      assert 0 <= i < n + 1 && OfferedAt(r, i, d.runner.taken);
    }
  }
}
