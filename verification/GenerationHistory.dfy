/** What the store says about a generation is what happened to it. */
module GenerationHistory {
  import opened Common
  import opened Generations
  import opened Manager
  import opened Provenance
  import B = Builder

  /** The result with which the evaluation of a generation ended, if it did;
      whether its build is running; and whether its last build failed, if one ended
      or was not needed because the storepath was in the Nix store. */
  datatype Past = Past(evaluated: Option<EvalResult>, building: bool, built: Option<bool>)

  const UNTOUCHED := Past(None, false, None)

  /** The generation that such a past makes of a new one. */
  function Made(u: Uuid, commit: string, past: Past): Generation {
    var r := if past.evaluated.Some? then past.evaluated.value else EvalResult(false, "", "");
    Generation(u, commit,
      if past.evaluated.None? then Evaluating else if r.failed then EvalFailed else Evaluated,
      r.failed, r.outPath, r.machineId,
      if past.building then Building
      else if past.built.None? then BuildInit
      else if past.built.value then BuildFailed else Built,
      past.built == Some(true))
  }

  // ------------------------------------------------------------ builder steps

  /** If the generation is in the store, it is what its past makes of it. */
  ghost predicate Tells(x: B.Both, u: Uuid, commit: string, past: Past) {
    Has(x.s, u) ==>
      && Get(x.s, u) == Made(u, commit, past)
      && (past.evaluated.None? <==> x.b.evaluator == Some(u))
      && (past.building <==> x.b.buildator == Some(u))
  }

  function EvalEnded(past: Past, r: EvalResult, inStore: bool): Past {
    past.(evaluated := Some(r), built := if inStore then Some(false) else past.built)
  }

  function BuildEnded(past: Past, failed: bool): Past {
    past.(building := false, built := Some(failed))
  }

  lemma EvalEndsTells(x: B.Both, r: EvalResult, inStore: bool, u: Uuid, commit: string, past: Past)
    requires B.Inv(x) && x.b.evaluator.Some? && Tells(x, u, commit, past)
    ensures Tells(B.EvalEnds(x, r, inStore), u, commit,
                  if x.b.evaluator == Some(u) then EvalEnded(past, r, inStore) else past)
  {
    var w := x.b.evaluator.value;
    B.EvalFinishedIs(x.s, w, r);
    var s1 := AfterEvalFinished(x.s, w, r);
    if inStore {
      B.BuildStartIs(s1, w);
      var s2 := AfterBuildStart(s1, w);
      B.BuildFinishedIs(s2, w, false);
    }
  }

  lemma BuildEndsTells(x: B.Both, failed: bool, u: Uuid, commit: string, past: Past)
    requires B.Inv(x) && x.b.buildator.Some? && Tells(x, u, commit, past)
    ensures Tells(B.BuildEnds(x, failed), u, commit,
                  if x.b.buildator == Some(u) then BuildEnded(past, failed) else past)
  {
    B.BuildFinishedIs(x.s, x.b.buildator.value, failed);
  }

  /** The past after whatever runs was stopped. */
  function Stopped(x: B.Both, k: B.Stops, u: Uuid, past: Past): Past {
    if x.b.evaluator == Some(u) then EvalEnded(past, k.eval, k.inStore)
    else if x.b.buildator == Some(u) then BuildEnded(past, k.buildFailed)
    else past
  }

  lemma StoppedTells(x: B.Both, k: B.Stops, u: Uuid, commit: string, past: Past)
    requires B.Inv(x) && Tells(x, u, commit, past)
    ensures Tells(B.Stopped(x, k), u, commit, Stopped(x, k, u, past))
  {
    if x.b.evaluator.Some? {
      EvalEndsTells(x, k.eval, k.inStore, u, commit, past);
      B.EvalEndsKeeps(x, k.eval, k.inStore);
    } else if x.b.buildator.Some? {
      BuildEndsTells(B.EvalStopped(x, k), k.buildFailed, u, commit, past);
    }
  }

  lemma BuildTells(x: B.Both, v: Uuid, u: Uuid, commit: string, past: Past)
    requires B.Inv(x) && Tells(x, u, commit, past)
    ensures var y := B.AfterBuild(x, v);
      Tells(y, u, commit, if y.b.buildator == Some(u) then past.(building := true) else past)
  {
    if B.CanBuild(x, v) {
      B.BuildStartIs(x.s, v);
    }
  }

  lemma SuspendTells(x: B.Both, k: B.Stops, u: Uuid, commit: string, past: Past)
    requires B.Inv(x) && Tells(x, u, commit, past)
    ensures Tells(B.AfterSuspend(x, k), u, commit,
                  if !x.b.suspended && x.b.buildator == Some(u) then BuildEnded(past, k.buildFailed) else past)
  {
    if !x.b.suspended && x.b.buildator.Some? {
      BuildEndsTells(x, k.buildFailed, u, commit, past);
    }
  }

  lemma ResumeTells(x: B.Both, u: Uuid, commit: string, past: Past)
    requires B.Inv(x) && Tells(x, u, commit, past)
    ensures var y := B.AfterResume(x);
      Tells(y, u, commit, if y.b.buildator == Some(u) then past.(building := true) else past)
  {
    var y := x.(b := x.b.(suspended := false));
    if y.b.managed.Some? {
      BuildTells(y, y.b.managed.value, u, commit, past);
    }
  }

  /** A fetch stops what runs; other generations are not touched. */
  lemma FetchedTells(x: B.Both, v: Uuid, c: string, k: B.Stops, u: Uuid, commit: string, past: Past)
    requires BuilderInv(x) && !Has(x.s, v) && x.b.buildDone != Some(v) && u != v && Tells(x, u, commit, past)
    ensures Tells(AfterFetched(x, c, v, k), u, commit, Stopped(x, k, u, past))
  {
    var a := x.(s := Added(x.s, v, c));
    HasIff(x.s, v);
    AddedKeeps(x.s, v, c);
    AddedKeepsBuilder(x, c, v);
    StoppedTells(a, k, u, commit, past);
    B.StoppedKeeps(a, k);
    EvalTells(a, v, k, u, commit, Stopped(x, k, u, past));
  }

  lemma EvalTells(x: B.Both, v: Uuid, k: B.Stops, u: Uuid, commit: string, past: Past)
    requires var y := B.Stopped(x, k);
      B.Inv(y) && y.b.evaluator.None? && y.b.buildator.None? && u != v && Tells(y, u, commit, past)
    ensures Tells(B.AfterEval(x, v, k), u, commit, past)
  {
    var y := B.Stopped(x, k);
    if Has(y.s, v) {
      B.EvalStartedIs(y.s, v);
    }
  }

  /** The new generation is evaluated, unless it was collected at once. */
  lemma FetchedTellsNew(x: B.Both, u: Uuid, commit: string, k: B.Stops)
    requires BuilderInv(x) && !Has(x.s, u) && x.b.buildDone != Some(u)
    ensures Tells(AfterFetched(x, commit, u, k), u, commit, UNTOUCHED)
  {
    var a := x.(s := Added(x.s, u, commit));
    HasIff(x.s, u);
    AddedKeeps(x.s, u, commit);
    AddedKeepsBuilder(x, commit, u);
    B.NewEvalSucceedsIff(x, u, commit, k);
    B.StoppedKeeps(a, k);
    var y := B.Stopped(a, k);
    if Has(y.s, u) {
      assert y.s == a.s;
      B.EvalStartedIs(y.s, u);
    } else {
      B.EvalKeeps(a, u, k);
    }
  }

  // ------------------------------------------------------------ pipeline steps

  /** What the step adds to the past of u. */
  function Then(p: Pipeline, a: Step, u: Uuid, past: Past): Past
    requires Enabled(p, a)
  {
    var b := p.x.b;
    match a
    case EvalEnd(r, inStore) => if b.evaluator == Some(u) then EvalEnded(past, r, inStore) else past
    case BuildEnd(failed) => if b.buildator == Some(u) then BuildEnded(past, failed) else past
    case SuspendBuilder(k) =>
      if !b.suspended && b.buildator == Some(u) then BuildEnded(past, k.buildFailed) else past
    case Fetched(updated, verified, _, _, k) => if updated && verified then Stopped(p.x, k, u, past) else past
    case _ => if Next(p, a).x.b.buildator == Some(u) then past.(building := true) else past
  }

  /** The past of u is known: untouched before the loop creates u. */
  ghost predicate IsPast(p: Pipeline, h: History, u: Uuid, past: Past) {
    if u in h.origin then Tells(p.x, u, h.origin[u], past) else past == UNTOUCHED
  }

  lemma BuilderActsTell(p: Pipeline, h: History, a: Step, u: Uuid, past: Past)
    requires Inv(p, h) && Enabled(p, a) && IsPast(p, h, u, past) && u in h.origin
    requires a.EvalEnd? || a.BuildEnd? || a.SuspendBuilder? || a.ResumeBuilder? || a.BuildConfirmed?
    ensures Tells(Next(p, a).x, u, h.origin[u], Then(p, a, u, past))
  {
    var commit := h.origin[u];
    match a {
      case EvalEnd(r, inStore) => EvalEndsTells(p.x, r, inStore, u, commit, past);
      case BuildEnd(failed) => BuildEndsTells(p.x, failed, u, commit, past);
      case SuspendBuilder(k) => SuspendTells(p.x, k, u, commit, past);
      case ResumeBuilder => ResumeTells(p.x, u, commit, past);
      case BuildConfirmed => BuildTells(p.x, p.build.out.value, u, commit, past);
    }
  }

  lemma FetchedActsTell(p: Pipeline, h: History, a: Step, u: Uuid, past: Past)
    requires Inv(p, h) && Enabled(p, a) && Provenance.Fresh(p, h, a) && IsPast(p, h, u, past)
    requires a.Fetched? && a.updated && a.verified
    ensures IsPast(Next(p, a), Recorded(p, h, a), u, Then(p, a, u, past))
  {
    if u == a.uuid {
      FetchedTellsNew(p.x, u, a.commit, a.stops);
    } else if u in h.origin {
      FetchedTells(p.x, a.uuid, a.commit, a.stops, u, h.origin[u], past);
    }
  }

  lemma NotTouchedBefore(p: Pipeline, h: History, a: Step, u: Uuid, past: Past)
    requires Inv(p, h) && Enabled(p, a) && past == UNTOUCHED && u !in h.origin
    requires !(a.Fetched? && a.updated && a.verified)
    ensures Then(p, a, u, past) == UNTOUCHED
  {
    if a.ResumeBuilder? {
      ResumePreserves(p.x);
    } else if a.BuildConfirmed? {
      assert B.AfterSubmitBuild(p.x, p.build.out.value).b.buildator.Some? ==>
        Known(h, B.AfterSubmitBuild(p.x, p.build.out.value).b.buildator);
    } else if IsElsewhere(a) {
      ElsewhereKeepsTasks(p, a);
    }
  }

  lemma StepTells(p: Pipeline, h: History, a: Step, u: Uuid, past: Past)
    requires Inv(p, h) && Enabled(p, a) && Provenance.Fresh(p, h, a) && IsPast(p, h, u, past)
    ensures IsPast(Next(p, a), Recorded(p, h, a), u, Then(p, a, u, past))
  {
    if a.Fetched? && a.updated && a.verified {
      FetchedActsTell(p, h, a, u, past);
    } else if u !in h.origin {
      NotTouchedBefore(p, h, a, u, past);
    } else if a.EvalEnd? || a.BuildEnd? || a.SuspendBuilder? || a.ResumeBuilder? || a.BuildConfirmed? {
      BuilderActsTell(p, h, a, u, past);
    } else {
      OtherStepTells(p, h, a, u, past);
    }
  }

  /** These steps leave the store and the tasks alone. */
  ghost predicate IsElsewhere(a: Step) {
    && !a.EvalEnd? && !a.BuildEnd? && !a.SuspendBuilder? && !a.ResumeBuilder? && !a.BuildConfirmed?
    && !(a.Fetched? && a.updated && a.verified)
  }

  lemma ElsewhereKeepsTasks(p: Pipeline, a: Step)
    requires Enabled(p, a) && IsElsewhere(a)
    ensures var q := Next(p, a);
      q.x.s == p.x.s && q.x.b.evaluator == p.x.b.evaluator && q.x.b.buildator == p.x.b.buildator
  {
  }

  lemma OtherStepTells(p: Pipeline, h: History, a: Step, u: Uuid, past: Past)
    requires Inv(p, h) && Enabled(p, a) && u in h.origin && Tells(p.x, u, h.origin[u], past) && IsElsewhere(a)
    ensures Recorded(p, h, a).origin == h.origin
    ensures Tells(Next(p, a).x, u, h.origin[u], Then(p, a, u, past))
  {
    ElsewhereKeepsTasks(p, a);
    assert p.x.b.buildator == Some(u) ==> Has(p.x.s, u) && past.building;
  }

  // --------------------------------------------------------------------- runs

  /** What happened to u before step n. */
  ghost function PastOf(r: Run, n: nat, u: Uuid): Past
    requires IsRun(r) && n <= |r.steps|
  {
    if n == 0 then UNTOUCHED
    else
      assert StepAt(r, n - 1);
      Then(r.ps[n - 1], r.steps[n - 1], u, PastOf(r, n - 1, u))
  }

  lemma {:induction false} PastIsKnown(r: Run, n: nat, u: Uuid)
    requires IsRun(r) && n <= |r.steps|
    ensures IsPast(r.ps[n], r.hs[n], u, PastOf(r, n, u))
  {
    if n > 0 {
      PastIsKnown(r, n - 1, u);
      RunKeeps(r, n - 1);
      assert StepAt(r, n - 1);
      StepTells(r.ps[n - 1], r.hs[n - 1], r.steps[n - 1], u, PastOf(r, n - 1, u));
    }
  }

  /** The step ends the evaluation of u with result e, by itself or because a fetch
      stops it. */
  ghost predicate EndsEvaluation(p: Pipeline, a: Step, u: Uuid, e: EvalResult) {
    && p.x.b.evaluator == Some(u)
    && ((a.EvalEnd? && a.result == e) || (a.Fetched? && a.updated && a.verified && a.stops.eval == e))
  }

  ghost predicate EvaluationEndsAt(r: Run, i: nat, u: Uuid, e: EvalResult) {
    i < |r.steps| && i < |r.ps| && EndsEvaluation(r.ps[i], r.steps[i], u, e)
  }

  ghost predicate EvaluatedBefore(r: Run, n: nat, u: Uuid, e: EvalResult) {
    exists i :: 0 <= i < n && EvaluationEndsAt(r, i, u, e)
  }

  lemma {:induction false} PastEvaluationIsTrue(r: Run, n: nat, u: Uuid)
    requires IsRun(r) && n <= |r.steps| && PastOf(r, n, u).evaluated.Some?
    ensures EvaluatedBefore(r, n, u, PastOf(r, n, u).evaluated.value)
  {
    var e := PastOf(r, n, u).evaluated.value;
    assert n > 0 && StepAt(r, n - 1);
    if PastOf(r, n - 1, u).evaluated == Some(e) {
      PastEvaluationIsTrue(r, n - 1, u);
      var i :| 0 <= i < n - 1 && EvaluationEndsAt(r, i, u, e);
      assert 0 <= i < n && EvaluationEndsAt(r, i, u, e);
    } else {
      assert EvaluationEndsAt(r, n - 1, u, e);
    }
  }

  /** An evaluation that has ended is not repeated. */
  lemma OnlyOneEvaluation(p: Pipeline, h: History, a: Step, u: Uuid, past: Past)
    requires Inv(p, h) && Enabled(p, a) && IsPast(p, h, u, past) && past.evaluated.Some?
    ensures Then(p, a, u, past).evaluated == past.evaluated
  {
    assert p.x.b.evaluator == Some(u) ==> Has(p.x.s, u) && u in h.origin;
  }

  lemma {:induction false} EvaluationStays(r: Run, m: nat, n: nat, u: Uuid, e: EvalResult)
    requires IsRun(r) && m < n <= |r.steps| && EvaluationEndsAt(r, m, u, e)
    ensures PastOf(r, n, u).evaluated == Some(e)
  {
    assert StepAt(r, n - 1);
    if n > m + 1 {
      EvaluationStays(r, m, n - 1, u, e);
      PastIsKnown(r, n - 1, u);
      RunKeeps(r, n - 1);
      OnlyOneEvaluation(r.ps[n - 1], r.hs[n - 1], r.steps[n - 1], u, PastOf(r, n - 1, u));
    }
  }

  /** In every run and at every moment, a generation that the loop created and that
      is still in the store is recorded as evaluated or as failed exactly when its
      evaluation ended so, with the storepath and the machine identifier of that
      result; and as being evaluated exactly when no evaluation of it has ended. */
  lemma EvaluationIsRecorded(r: Run, n: nat, u: Uuid, e: EvalResult)
    requires IsRun(r) && n <= |r.steps| && u in r.hs[n].origin && Has(r.ps[n].x.s, u)
    ensures var g := Get(r.ps[n].x.s, u);
      && g.uuid == u && g.commit == r.hs[n].origin[u]
      && (EvaluatedBefore(r, n, u, e) ==>
            && (if e.failed then g.eval == EvalFailed && g.evalErr else g.eval == Evaluated && !g.evalErr)
            && g.outPath == e.outPath && g.machineId == e.machineId)
      && (g.eval == Evaluated ==> exists e' :: EvaluatedBefore(r, n, u, e') && !e'.failed)
      && (g.eval == EvalFailed ==> exists e' :: EvaluatedBefore(r, n, u, e') && e'.failed)
      && (g.eval == Evaluating <==> r.ps[n].x.b.evaluator == Some(u)) && g.eval != EvalInit
  {
    PastIsKnown(r, n, u);
    if EvaluatedBefore(r, n, u, e) {
      var i :| 0 <= i < n && EvaluationEndsAt(r, i, u, e);
      EvaluationStays(r, i, n, u, e);
    }
    if PastOf(r, n, u).evaluated.Some? {
      PastEvaluationIsTrue(r, n, u);
    }
  }

  /** Whatever is built was evaluated before, without failure. */
  lemma BuildsAreOfEvaluated(r: Run, n: nat, u: Uuid)
    requires IsRun(r) && n <= |r.steps| && r.ps[n].x.b.buildator == Some(u)
    ensures exists e :: EvaluatedBefore(r, n, u, e) && !e.failed
  {
    RunKeeps(r, n);
    PastIsKnown(r, n, u);
    assert Has(r.ps[n].x.s, u) && u in r.hs[n].origin;
    PastEvaluationIsTrue(r, n, u);
  }

  /** After a failed evaluation no step ever starts a build of the generation. */
  lemma FailedIsNeverBuilt(r: Run, m: nat, n: nat, u: Uuid, e: EvalResult)
    requires IsRun(r) && m < n <= |r.steps| && EvaluationEndsAt(r, m, u, e) && e.failed
    ensures r.ps[n].x.b.buildator != Some(u)
  {
    EvaluationStays(r, m, n, u, e);
    PastIsKnown(r, n, u);
    RunKeeps(r, n);
  }

  /** The step ends a build of u, or finds that none is needed. */
  ghost predicate EndsBuild(p: Pipeline, a: Step, u: Uuid, failed: bool) {
    || (p.x.b.evaluator == Some(u) && !failed
        && ((a.EvalEnd? && a.inStore) || (a.Fetched? && a.updated && a.verified && a.stops.inStore)))
    || (p.x.b.buildator == Some(u)
        && ((a.BuildEnd? && a.failed == failed)
            || (a.Fetched? && a.updated && a.verified && a.stops.buildFailed == failed)
            || (a.SuspendBuilder? && !p.x.b.suspended && a.stops.buildFailed == failed)))
  }

  ghost predicate BuildEndsAt(r: Run, i: nat, u: Uuid, failed: bool) {
    i < |r.steps| && i < |r.ps| && EndsBuild(r.ps[i], r.steps[i], u, failed)
  }

  /** The last build of u that ended before step n ended so. */
  ghost predicate LastBuildIs(r: Run, n: nat, u: Uuid, failed: bool) {
    exists i :: 0 <= i < n && IsLastBuild(r, i, n, u, failed)
  }

  ghost predicate IsLastBuild(r: Run, i: nat, n: nat, u: Uuid, failed: bool) {
    BuildEndsAt(r, i, u, failed) && forall k, f :: i < k < n ==> !BuildEndsAt(r, k, u, f)
  }

  lemma BuildEndIsOne(p: Pipeline, h: History, a: Step, u: Uuid, past: Past)
    requires Inv(p, h) && Enabled(p, a)
    ensures var past' := Then(p, a, u, past);
      past'.built == BuiltAfter(p, a, u, past.built)
    ensures !(EndsBuild(p, a, u, false) && EndsBuild(p, a, u, true))
  {
  }

  lemma {:induction false} PastBuildIsTrue(r: Run, n: nat, u: Uuid)
    requires IsRun(r) && n <= |r.steps|
    ensures BuiltIs(r, n, u, PastOf(r, n, u).built)
  {
    if n > 0 {
      PastBuildIsTrue(r, n - 1, u);
      PastBuildNext(r, n - 1, u);
      BuiltIsNext(r, n - 1, u, PastOf(r, n - 1, u).built);
    }
  }

  lemma {:induction false} PastBuildNext(r: Run, n: nat, u: Uuid)
    requires IsRun(r) && n < |r.steps|
    ensures PastOf(r, n + 1, u).built == BuiltAfter(r.ps[n], r.steps[n], u, PastOf(r, n, u).built)
  {
    RunKeeps(r, n);
    assert StepAt(r, n);
    BuildEndIsOne(r.ps[n], r.hs[n], r.steps[n], u, PastOf(r, n, u));
  }

  ghost function BuiltAfter(p: Pipeline, a: Step, u: Uuid, built: Option<bool>): Option<bool> {
    if EndsBuild(p, a, u, false) then Some(false) else if EndsBuild(p, a, u, true) then Some(true) else built
  }

  /** The last build that ended before step n, if any, ended so. */
  ghost predicate BuiltIs(r: Run, n: nat, u: Uuid, built: Option<bool>) {
    match built
    case None => forall k, f :: 0 <= k < n ==> !BuildEndsAt(r, k, u, f)
    case Some(failed) => LastBuildIs(r, n, u, failed)
  }

  lemma BuiltIsNext(r: Run, n: nat, u: Uuid, built: Option<bool>)
    requires n < |r.steps| && n < |r.ps| && BuiltIs(r, n, u, built)
    ensures BuiltIs(r, n + 1, u, BuiltAfter(r.ps[n], r.steps[n], u, built))
  {
    if EndsBuild(r.ps[n], r.steps[n], u, false) {
      assert IsLastBuild(r, n, n + 1, u, false);
    } else if EndsBuild(r.ps[n], r.steps[n], u, true) {
      assert IsLastBuild(r, n, n + 1, u, true);
    } else if built.Some? {
      var i :| 0 <= i < n && IsLastBuild(r, i, n, u, built.value);
      assert IsLastBuild(r, i, n + 1, u, built.value);
    }
  }

  lemma LastBuildIsUnique(r: Run, n: nat, u: Uuid)
    requires IsRun(r) && n <= |r.steps|
    ensures !(LastBuildIs(r, n, u, false) && LastBuildIs(r, n, u, true))
  {
    if LastBuildIs(r, n, u, false) && LastBuildIs(r, n, u, true) {
      var i :| 0 <= i < n && IsLastBuild(r, i, n, u, false);
      var j :| 0 <= j < n && IsLastBuild(r, j, n, u, true);
      if i == j {
        assert StepAt(r, i);
        RunKeeps(r, i);
        BuildEndIsOne(r.ps[i], r.hs[i], r.steps[i], u, UNTOUCHED);
      }
      assert false;
    }
  }

  /** A generation that the loop created and that is still in the store is recorded
      as being built exactly while it is, and otherwise as built or failed exactly
      when its last build ended so; a build error stays until a build succeeds. */
  lemma BuildIsRecorded(r: Run, n: nat, u: Uuid)
    requires IsRun(r) && n <= |r.steps| && u in r.hs[n].origin && Has(r.ps[n].x.s, u)
    ensures var g, building := Get(r.ps[n].x.s, u), r.ps[n].x.b.buildator == Some(u);
      && (g.build == Building <==> building)
      && (g.build == Built <==> !building && LastBuildIs(r, n, u, false))
      && (g.build == BuildFailed <==> !building && LastBuildIs(r, n, u, true))
      && (g.buildErr <==> LastBuildIs(r, n, u, true))
  {
    PastIsKnown(r, n, u);
    PastBuildIsTrue(r, n, u);
    LastBuildIsUnique(r, n, u);
    assert PastOf(r, n, u).built.None? ==> forall f :: !LastBuildIs(r, n, u, f);
  }
}
