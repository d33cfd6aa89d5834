/** Which generations reach the deploy confirmer without an answer of the build
    confirmer. */
module BuildConfirmation {
  import opened Common
  import opened Generations
  import opened MachineId
  import opened Manager
  import opened Provenance
  import B = Builder
  import C = Confirmer

  /** The build confirmer emits u at the step. */
  predicate BuildReleases(p: Pipeline, a: Step, u: Uuid)
    requires Enabled(p, a)
  {
    (a.SendBuild? || a.BuildUser?) && Next(p, a).build.out == Some(u)
  }

  /** What a step lets through to a build, confirmed or not. */
  ghost function LetThrough(p: Pipeline, a: Step): (us: set<Uuid>)
    requires Enabled(p, a)
    ensures forall u :: u in us <==> Bypasses(p, a, u) || BuildReleases(p, a, u)
  {
    Bypassed(p, a) + if a.SendBuild? || a.BuildUser? then Emitted(Next(p, a).build.out) else {}
  }

  // ---------------------------------------------------------------- invariant

  predicate SlotIn(o: Option<Uuid>, us: set<Uuid>) {
    o.Some? ==> o.value in us
  }

  predicate BuilderIn(x: B.Both, us: set<Uuid>) {
    SlotIn(x.b.buildator, us) && SlotIn(x.b.buildDone, us)
  }

  predicate GatesIn(p: Pipeline, us: set<Uuid>) {
    && SlotIn(p.build.out, us) && SlotIn(p.deploy.out, us)
    && (p.deploy.state.submitted != "" ==> p.deploy.state.submitted in us)
    && (p.loop.SubmittingDeploy? ==> p.loop.uuid in us)
  }

  /** Whatever is past the build confirmer was let through. */
  predicate AllIn(p: Pipeline, us: set<Uuid>) {
    BuilderIn(p.x, us) && GatesIn(p, us)
  }

  lemma StoppedStaysIn(x: B.Both, k: B.Stops, us: set<Uuid>)
    requires BuilderIn(x, us) && (x.b.evaluator.Some? && k.inStore ==> x.b.evaluator.value in us)
    ensures BuilderIn(B.Stopped(x, k), us)
  {
  }

  lemma FetchedStaysIn(p: Pipeline, a: Step, us: set<Uuid>)
    requires AllIn(p, us) && Enabled(p, a) && a.Fetched?
    ensures AllIn(Next(p, a), us + LetThrough(p, a))
  {
    if a.updated && a.verified {
      var x, vs := p.x.(s := Added(p.x.s, a.uuid, a.commit)), us + LetThrough(p, a);
      assert p.x.b.evaluator.Some? && a.stops.inStore ==> EndsInStore(p, a, p.x.b.evaluator.value);
      StoppedStaysIn(x, a.stops, vs);
    }
  }

  lemma ResumedStaysIn(p: Pipeline, us: set<Uuid>)
    requires B.Inv(p.x) && AllIn(p, us)
    ensures AllIn(Next(p, ResumeBuilder), us + LetThrough(p, ResumeBuilder))
  {
    var y := B.AfterResume(p.x);
    assert y.b.buildator == p.x.b.buildator || StartedByResume(p, ResumeBuilder, y.b.buildator.value);
  }

  lemma BuilderStaysIn(p: Pipeline, a: Step, us: set<Uuid>)
    requires AllIn(p, us) && Enabled(p, a) && (a.EvalEnd? || a.BuildEnd? || a.SuspendBuilder?)
    ensures AllIn(Next(p, a), us + LetThrough(p, a))
  {
    assert a.EvalEnd? && a.inStore ==> EndsInStore(p, a, p.x.b.evaluator.value);
  }

  lemma ConfirmersStayIn(p: Pipeline, a: Step, us: set<Uuid>)
    requires AllIn(p, us) && Enabled(p, a) && (a.SendBuild? || a.SendDeploy? || a.BuildUser? || a.DeployUser?)
    ensures AllIn(Next(p, a), us + LetThrough(p, a))
  {
    var q, vs := Next(p, a), us + LetThrough(p, a);
    match a {
      case SendBuild => assert q.build.out.Some? ==> BuildReleases(p, a, q.build.out.value);
      case SendDeploy => FedIs(p.deploy, C.Submit(p.loop.uuid));
      case BuildUser(e) => assert q.build.out.Some? ==> BuildReleases(p, a, q.build.out.value);
      case DeployUser(e) => FedIs(p.deploy, e);
    }
  }

  lemma LoopStaysIn(p: Pipeline, a: Step, us: set<Uuid>)
    requires AllIn(p, us) && Enabled(p, a)
    requires a.EvaluationDone? || a.BuildConfirmed? || a.BuildDone? || a.DeployConfirmed? || a.DeployerActs?
    ensures AllIn(Next(p, a), us)
  {
  }

  /** Every step keeps the invariant. */
  lemma StepStaysIn(p: Pipeline, a: Step, us: set<Uuid>)
    requires B.Inv(p.x) && AllIn(p, us) && Enabled(p, a)
    ensures AllIn(Next(p, a), us + LetThrough(p, a))
  {
    if a.Fetched? {
      FetchedStaysIn(p, a, us);
    } else if a.ResumeBuilder? {
      ResumedStaysIn(p, us);
    } else if a.EvalEnd? || a.BuildEnd? || a.SuspendBuilder? {
      BuilderStaysIn(p, a, us);
    } else if a.SendBuild? || a.SendDeploy? || a.BuildUser? || a.DeployUser? {
      ConfirmersStayIn(p, a, us);
    } else {
      LoopStaysIn(p, a, us);
    }
  }

  // --------------------------------------------------------------------- runs

  /** Before step n, the build confirmer emitted u. */
  ghost predicate BuildConfirmedBefore(r: Run, n: nat, u: Uuid) {
    exists i :: 0 <= i < n && BuildReleasesAt(r, i, u)
  }

  ghost predicate BuildReleasesAt(r: Run, i: nat, u: Uuid) {
    i < |r.steps| && i < |r.ps| && Enabled(r.ps[i], r.steps[i]) && BuildReleases(r.ps[i], r.steps[i], u)
  }

  ghost predicate LetThroughBefore(r: Run, n: nat, u: Uuid) {
    BuildConfirmedBefore(r, n, u) || BypassedBefore(r, n, u)
  }

  ghost function AllLetThrough(r: Run, n: nat): set<Uuid>
    requires IsRun(r) && n <= |r.steps|
  {
    if n == 0 then {}
    else
      assert StepAt(r, n - 1);
      AllLetThrough(r, n - 1) + LetThrough(r.ps[n - 1], r.steps[n - 1])
  }

  lemma {:induction false} LetThroughIsTrue(r: Run, n: nat, u: Uuid)
    requires IsRun(r) && n <= |r.steps| && u in AllLetThrough(r, n)
    ensures LetThroughBefore(r, n, u)
  {
    assert n > 0 && StepAt(r, n - 1);
    if u in AllLetThrough(r, n - 1) {
      LetThroughIsTrue(r, n - 1, u);
    } else {
      assert BuildReleases(r.ps[n - 1], r.steps[n - 1], u) ==> BuildReleasesAt(r, n - 1, u);
    }
  }

  lemma {:induction false} RunStaysIn(r: Run, n: nat)
    requires IsRun(r) && n <= |r.steps|
    ensures AllIn(r.ps[n], AllLetThrough(r, n))
  {
    if n > 0 {
      RunStaysIn(r, n - 1);
      RunKeeps(r, n - 1);
      assert StepAt(r, n - 1);
      StepStaysIn(r.ps[n - 1], r.steps[n - 1], AllLetThrough(r, n - 1));
    }
  }

  /** In every run, a generation that the loop sends to the deploy confirmer was
      emitted by the build confirmer before, unless its evaluation ended with its
      storepath in the Nix store or a Resume started its build. */
  lemma SentGenerationsAreConfirmed(r: Run, n: nat)
    requires IsRun(r) && n <= |r.steps| && r.ps[n].loop.SubmittingDeploy?
    ensures BuildConfirmedBefore(r, n, r.ps[n].loop.uuid) || BypassedBefore(r, n, r.ps[n].loop.uuid)
  {
    RunStaysIn(r, n);
    LetThroughIsTrue(r, n, r.ps[n].loop.uuid);
  }

  /** The same holds of every generation that reaches the deployer. */
  lemma HandedGenerationsAreConfirmed(r: Run, k: nat)
    requires IsRun(r) && k < |r.steps| && r.steps[k].DeployConfirmed? && r.ps[k].deploy.out.Some?
    ensures BuildConfirmedBefore(r, k, r.ps[k].deploy.out.value) || BypassedBefore(r, k, r.ps[k].deploy.out.value)
  {
    RunStaysIn(r, k);
    LetThroughIsTrue(r, k, r.ps[k].deploy.out.value);
  }
}
