/** The builder: one task at a time, evaluation then build. Each public method,
    and each completion of a task, is one step. */
module Builder {
  import opened Common
  import opened Generations

  datatype BuilderState = BuilderState(
    managed: Option<Uuid>,
    isEvaluating: bool,
    isBuilding: bool,
    suspended: bool,
    evaluator: Option<Uuid>,
    buildator: Option<Uuid>,
    evaluationDone: Option<Uuid>,
    buildDone: Option<Uuid>)

  /** The builder together with the store it works on. */
  datatype Both = Both(b: BuilderState, s: State)

  /** How tasks that a step has to stop turn out: a cancelled task may also have
      finished just before. `inStore` tells whether the evaluated storepath is in
      the Nix store already. */
  datatype Stops = Stops(eval: EvalResult, inStore: bool, buildFailed: bool)

  // ------------------------------------------------------------ specification

  /** A one-slot channel written without blocking. */
  function Notify(slot: Option<Uuid>, u: Uuid): Option<Uuid> {
    if slot.None? then Some(u) else slot
  }

  function EvalEnds(x: Both, r: EvalResult, inStore: bool): Both
    requires x.b.evaluator.Some?
  {
    var u := x.b.evaluator.value;
    var s := AfterEvalFinished(x.s, u, r);
    var b := x.b.(isEvaluating := false, evaluator := None);
    if inStore then
      Both(b.(buildDone := Notify(b.buildDone, u)), AfterBuildFinished(AfterBuildStart(s, u), u, false))
    else
      Both(b.(evaluationDone := Notify(b.evaluationDone, u)), s)
  }

  function BuildEnds(x: Both, failed: bool): Both
    requires x.b.buildator.Some?
  {
    var u := x.b.buildator.value;
    Both(x.b.(isBuilding := false, buildator := None, buildDone := Notify(x.b.buildDone, u)),
         AfterBuildFinished(x.s, u, failed))
  }

  function EvalStopped(x: Both, k: Stops): Both {
    var y := if x.b.evaluator.Some? then EvalEnds(x, k.eval, k.inStore) else x;
    y.(b := y.b.(isEvaluating := false))
  }

  function BuildStopped(x: Both, k: Stops): Both {
    var y := if x.b.buildator.Some? then BuildEnds(x, k.buildFailed) else x;
    y.(b := y.b.(isBuilding := false))
  }

  function Stopped(x: Both, k: Stops): Both {
    BuildStopped(EvalStopped(x, k), k)
  }

  /** An evaluation is refused when the generation is not in the store any more;
      the builder then still reads as evaluating. */
  function AfterEval(x: Both, u: Uuid, k: Stops): Both {
    var y := Stopped(x, k);
    var b := y.b.(isEvaluating := true);
    if Has(y.s, u) then Both(b.(managed := Some(u), evaluator := Some(u)), AfterEvalStarted(y.s, u))
    else Both(b, y.s)
  }

  predicate CanBuild(x: Both, u: Uuid) {
    && (x.b.managed.None? || x.b.managed == Some(u))
    && Has(x.s, u) && Get(x.s, u).eval == Evaluated && !x.b.isBuilding && Get(x.s, u).build != Built
  }

  function AfterBuild(x: Both, u: Uuid): Both {
    if CanBuild(x, u) then Both(x.b.(isBuilding := true, buildator := Some(u)), AfterBuildStart(x.s, u)) else x
  }

  function AfterSubmitBuild(x: Both, u: Uuid): Both {
    if x.b.suspended then x else AfterBuild(x, u)
  }

  function AfterSuspend(x: Both, k: Stops): Both {
    if x.b.suspended then x
    else var y := BuildStopped(x, k); y.(b := y.b.(suspended := true))
  }

  function AfterResume(x: Both): Both {
    if !x.b.suspended then x
    else
      var y := x.(b := x.b.(suspended := false));
      match y.b.managed
      case None => y
      case Some(u) =>
        if Has(y.s, u) && Get(y.s, u).eval == Evaluated && Get(y.s, u).build != Built then AfterBuild(y, u) else y
  }

  // -------------------------------------------------------------- the program

  class Builder {
    const store: Store
    var managed: Option<Uuid>
    var isEvaluating: bool
    var isBuilding: bool
    var suspended: bool
    var evaluator: Option<Uuid>
    var buildator: Option<Uuid>
    var evaluationDone: Option<Uuid>
    var buildDone: Option<Uuid>

    function Current(): Both
      reads this, store
    {
      Both(BuilderState(managed, isEvaluating, isBuilding, suspended, evaluator, buildator, evaluationDone, buildDone),
           store.Current())
    }

    constructor (store: Store)
      ensures this.store == store
      ensures Current() == Both(BuilderState(None, false, false, false, None, None, None, None), store.Current())
    {
      this.store := store;
      managed, isEvaluating, isBuilding, suspended := None, false, false, false;
      evaluator, buildator, evaluationDone, buildDone := None, None, None, None;
    }

    /** What the goroutine that waits for the evaluator does once it is over. */
    method OnEvalEnd(r: EvalResult, inStore: bool)
      requires evaluator.Some?
      modifies this, store
      ensures Current() == EvalEnds(old(Current()), r, inStore)
    {
      var u := evaluator.value;
      var ok := store.GenerationEvalFinished(u, r);
      isEvaluating, evaluator := false, None;
      if inStore {
        ok := store.GenerationBuildStart(u);
        ok := store.GenerationBuildFinished(u, false);
        if buildDone.None? {
          buildDone := Some(u);
        }
      } else if evaluationDone.None? {
        evaluationDone := Some(u);
      }
    }

    method OnBuildEnd(failed: bool)
      requires buildator.Some?
      modifies this, store
      ensures Current() == BuildEnds(old(Current()), failed)
    {
      var u := buildator.value;
      var ok := store.GenerationBuildFinished(u, failed);
      isBuilding, buildator := false, None;
      if buildDone.None? {
        buildDone := Some(u);
      }
    }

    method StopEval(k: Stops)
      modifies this, store
      ensures Current() == EvalStopped(old(Current()), k)
    {
      if evaluator.Some? {
        OnEvalEnd(k.eval, k.inStore);
      }
      isEvaluating := false;
    }

    method StopBuild(k: Stops)
      modifies this, store
      ensures Current() == BuildStopped(old(Current()), k)
    {
      if buildator.Some? {
        OnBuildEnd(k.buildFailed);
      }
      isBuilding := false;
    }

    method Stop(k: Stops)
      modifies this, store
      ensures Current() == Stopped(old(Current()), k)
    {
      StopEval(k);
      StopBuild(k);
    }

    method Eval(u: Uuid, k: Stops) returns (ok: bool)
      modifies this, store
      ensures Current() == AfterEval(old(Current()), u, k)
      ensures ok == Has(Stopped(old(Current()), k).s, u)
    {
      Stop(k);
      isEvaluating := true;
      ok := store.GenerationEvalStarted(u);
      if !ok {
        return;
      }
      managed := Some(u);
      evaluator := Some(u);
    }

    method Build(u: Uuid) returns (ok: bool)
      modifies this, store
      ensures Current() == AfterBuild(old(Current()), u)
      ensures ok == CanBuild(old(Current()), u)
    {
      if managed.Some? && u != managed.value {
        return false;
      }
      var g := store.GenerationGet(u);
      if g.None? {
        return false;
      }
      if g.value.eval != Evaluated {
        return false;
      }
      if isBuilding {
        return false;
      }
      if g.value.build == Built {
        return false;
      }
      ok := store.GenerationBuildStart(u);
      isBuilding := true;
      buildator := Some(u);
    }

    method SubmitBuild(u: Uuid)
      modifies this, store
      ensures Current() == AfterSubmitBuild(old(Current()), u)
    {
      if !suspended {
        var ok := Build(u);
      }
    }

    method Suspend(k: Stops) returns (ok: bool)
      modifies this, store
      ensures Current() == AfterSuspend(old(Current()), k) && ok == !old(suspended)
    {
      if suspended {
        return false;
      }
      StopBuild(k);
      suspended := true;
      return true;
    }

    method Resume() returns (ok: bool)
      modifies this, store
      ensures Current() == AfterResume(old(Current()))
      ensures ok <==> old(suspended) && (managed.Some? ==> Has(old(Current()).s, managed.value))
    {
      if !suspended {
        return false;
      }
      suspended := false;
      if managed.None? {
        return true;
      }
      var g := store.GenerationGet(managed.value);
      if g.None? {
        return false;
      }
      if g.value.eval == Evaluated && g.value.build != Built {
        ok := Build(managed.value);
      }
      return true;
    }
  }

  // -------------------------------------------------------------------- steps

  datatype Step =
    | NewGeneration(uuid: Uuid, commit: string)
    | Eval(uuid: Uuid, stops: Stops)
    | EvalEnd(result: EvalResult, inStore: bool)
    | BuildEnd(failed: bool)
    | SubmitBuild(uuid: Uuid)
    | Stop(stops: Stops)
    | Suspend(stops: Stops)
    | Resume
    | TakeEvaluationDone
    | TakeBuildDone

  predicate Enabled(x: Both, a: Step) {
    match a
    case NewGeneration(u, _) => !Has(x.s, u)
    case EvalEnd(_, _) => x.b.evaluator.Some?
    case BuildEnd(_) => x.b.buildator.Some?
    case _ => true
  }

  function Next(x: Both, a: Step): Both
    requires Enabled(x, a)
  {
    match a
    case NewGeneration(u, c) => x.(s := Added(x.s, u, c))
    case Eval(u, k) => AfterEval(x, u, k)
    case EvalEnd(r, e) => EvalEnds(x, r, e)
    case BuildEnd(f) => BuildEnds(x, f)
    case SubmitBuild(u) => AfterSubmitBuild(x, u)
    case Stop(k) => Stopped(x, k)
    case Suspend(k) => AfterSuspend(x, k)
    case Resume => AfterResume(x)
    case TakeEvaluationDone => x.(b := x.b.(evaluationDone := None))
    case TakeBuildDone => x.(b := x.b.(buildDone := None))
  }

  // -------------------------------------------------------------------- laws

  /** The generation exists and its evaluation has the given status. */
  predicate HasEval(s: State, u: Uuid, e: EvalStatus) {
    Has(s, u) && Get(s, u).eval == e
  }

  /** At most one task runs, on the generation the builder manages, and that
      generation is in the store. */
  ghost predicate Inv(x: Both) {
    && Valid(x.s)
    && (x.b.managed.Some? ==> x.s.evalStarted == x.b.managed)
    && (x.b.evaluator.Some? ==>
          && x.b.managed == x.b.evaluator && x.b.isEvaluating && x.b.buildator.None?
          && HasEval(x.s, x.b.evaluator.value, Evaluating))
    && (x.b.buildator.Some? ==>
          && (x.b.managed.None? || x.b.managed == x.b.buildator)
          && x.s.buildStarted == x.b.buildator && HasEval(x.s, x.b.buildator.value, Evaluated))
    && (x.b.isBuilding <==> x.b.buildator.Some?)
  }

  /** A transition of generation u by one of the four store operations. */
  ghost predicate IsTransition(s: State, t: State, u: Uuid, g: Generation) {
    && Valid(t) && Has(s, u) && g.uuid == u && |t.generations| <= 4
    && (forall v :: Has(t, v) <==> IsLast(t, v))
    && (forall v :: Has(t, v) ==> Has(s, v) && Get(t, v) == if v == u then g else Get(s, v))
  }

  lemma EvalStartedIs(s: State, u: Uuid)
    requires Valid(s) && Has(s, u)
    ensures var t := AfterEvalStarted(s, u);
      IsTransition(s, t, u, StartedEval(Get(s, u))) && t.evalStarted == Some(u) && t.buildStarted == s.buildStarted
  {
    var g := StartedEval(Get(s, u));
    TransitionKeeps(s, g, Put(s, g).(evalStarted := Some(u)));
  }

  lemma EvalFinishedIs(s: State, u: Uuid, r: EvalResult)
    requires Valid(s) && Has(s, u)
    ensures var t := AfterEvalFinished(s, u, r);
      IsTransition(s, t, u, FinishedEval(Get(s, u), r)) && t.evalStarted == s.evalStarted
        && t.buildStarted == s.buildStarted
      && t.evalFinished == Some(u)
  {
    var g := FinishedEval(Get(s, u), r);
    TransitionKeeps(s, g, Put(s, g).(evalFinished := Some(u)));
  }

  lemma BuildStartIs(s: State, u: Uuid)
    requires Valid(s) && Has(s, u)
    ensures var t := AfterBuildStart(s, u);
      IsTransition(s, t, u, StartedBuild(Get(s, u))) && t.evalStarted == s.evalStarted && t.buildStarted == Some(u)
  {
    var g := StartedBuild(Get(s, u));
    TransitionKeeps(s, g, Put(s, g).(buildStarted := Some(u)));
  }

  lemma BuildFinishedIs(s: State, u: Uuid, failed: bool)
    requires Valid(s) && Has(s, u)
    ensures var t := AfterBuildFinished(s, u, failed);
      IsTransition(s, t, u, FinishedBuild(Get(s, u), failed)) && t.evalStarted == s.evalStarted
        && t.buildStarted == s.buildStarted
      && t.buildFinished == Some(u)
  {
    var g := FinishedBuild(Get(s, u), failed);
    TransitionKeeps(s, g, Put(s, g).(buildFinished := Some(u)));
  }

  lemma ManagedResolves(x: Both)
    requires Inv(x)
    ensures x.b.managed.Some? ==> Has(x.s, x.b.managed.value)
  {
    if x.b.managed.Some? {
      HasIff(x.s, x.b.managed.value);
    }
  }

  lemma EvalEndsKeeps(x: Both, r: EvalResult, inStore: bool)
    requires Inv(x) && x.b.evaluator.Some?
    ensures var y := EvalEnds(x, r, inStore);
      Inv(y) && y.b.evaluator.None? && y.b.buildator.None? && forall v :: Has(y.s, v) ==> IsLast(y.s, v)
  {
    var u := x.b.evaluator.value;
    EvalFinishedIs(x.s, u, r);
    var s := AfterEvalFinished(x.s, u, r);
    if inStore {
      BuildStartIs(s, u);
      BuildFinishedIs(AfterBuildStart(s, u), u, false);
    }
  }

  lemma BuildEndsKeeps(x: Both, failed: bool)
    requires Inv(x) && x.b.buildator.Some?
    ensures var y := BuildEnds(x, failed);
      Inv(y) && y.b.evaluator.None? && y.b.buildator.None? && forall v :: Has(y.s, v) ==> IsLast(y.s, v)
  {
    BuildFinishedIs(x.s, x.b.buildator.value, failed);
  }

  /** Stopping leaves nothing running. It collects when there was something. */
  lemma StoppedKeeps(x: Both, k: Stops)
    requires Inv(x)
    ensures var y := Stopped(x, k);
      && Inv(y) && y.b.evaluator.None? && y.b.buildator.None? && y.b.managed == x.b.managed
      && (if x.b.evaluator.None? && x.b.buildator.None? then y.s == x.s else forall v :: Has(y.s, v) ==> IsLast(y.s, v))
  {
    if x.b.evaluator.Some? {
      EvalEndsKeeps(x, k.eval, k.inStore);
    } else if x.b.buildator.Some? {
      BuildEndsKeeps(EvalStopped(x, k), k.buildFailed);
    }
  }

  /** In whatever state the builder was, it then reads as doing nothing. */
  lemma StoppedReadsIdle(x: Both, k: Stops)
    ensures var b := Stopped(x, k).b;
      !b.isEvaluating && !b.isBuilding && b.evaluator.None? && b.buildator.None?
  {
  }

  lemma BuildKeeps(x: Both, u: Uuid)
    requires Inv(x)
    ensures Inv(AfterBuild(x, u))
  {
    if CanBuild(x, u) {
      BuildStartIs(x.s, u);
    }
  }

  lemma EvalKeeps(x: Both, u: Uuid, k: Stops)
    requires Inv(x)
    ensures Inv(AfterEval(x, u, k))
  {
    StoppedKeeps(x, k);
    var y := Stopped(x, k);
    if Has(y.s, u) {
      EvalStartedIs(y.s, u);
    }
  }

  /** Every step keeps the invariant: at most one evaluator or buildator runs,
      and the managed generation is in the store. */
  lemma StepKeeps(x: Both, a: Step)
    requires Inv(x) && Enabled(x, a)
    ensures Inv(Next(x, a))
  {
    match a {
      case NewGeneration(u, c) =>
        HasIff(x.s, u);
        AddedKeeps(x.s, u, c);
      case Eval(u, k) => EvalKeeps(x, u, k);
      case EvalEnd(r, e) => EvalEndsKeeps(x, r, e);
      case BuildEnd(f) => BuildEndsKeeps(x, f);
      case SubmitBuild(u) => BuildKeeps(x, u);
      case Stop(k) => StoppedKeeps(x, k);
      case Suspend(k) => SuspendKeeps(x, k);
      case Resume => ResumeKeeps(x);
      case _ =>
    }
  }

  lemma SuspendKeeps(x: Both, k: Stops)
    requires Inv(x)
    ensures Inv(AfterSuspend(x, k))
  {
    if x.b.buildator.Some? {
      BuildEndsKeeps(x, k.buildFailed);
    }
  }

  lemma ResumeKeeps(x: Both)
    requires Inv(x)
    ensures Inv(AfterResume(x))
  {
    var y := x.(b := x.b.(suspended := false));
    if y.b.managed.Some? {
      BuildKeeps(y, y.b.managed.value);
    }
  }

  ghost predicate IsRun(xs: seq<Both>, steps: seq<Step>) {
    && |xs| == |steps| + 1
    && forall i :: 0 <= i < |steps| ==> Enabled(xs[i], steps[i]) && xs[i + 1] == Next(xs[i], steps[i])
  }

  /** Over every run from a freshly loaded store, at most one task runs at any
      time and the generation the builder manages can be found in the store. */
  lemma {:induction false} OneTaskAtATime(xs: seq<Both>, steps: seq<Step>, i: nat)
    requires IsRun(xs, steps) && i < |xs|
    requires xs[0].b == BuilderState(None, false, false, false, None, None, None, None)
    requires DistinctUuids(xs[0].s.generations) && forall u :: !IsLast(xs[0].s, u)
    ensures Inv(xs[i]) && (xs[i].b.evaluator.None? || xs[i].b.buildator.None?)
    ensures xs[i].b.managed.Some? ==> Has(xs[i].s, xs[i].b.managed.value)
  {
    if i > 0 {
      OneTaskAtATime(xs, steps, i - 1);
      StepKeeps(xs[i - 1], steps[i - 1]);
    }
    ManagedResolves(xs[i]);
  }

  /** Evaluating a new generation, which nothing in the store refers to yet,
      succeeds exactly when no task is running: the end of a stopped task collects
      the new generation before its evaluation starts. */
  lemma NewEvalSucceedsIff(x: Both, u: Uuid, commit: string, k: Stops)
    requires Inv(x) && !Has(x.s, u) && !IsLast(x.s, u)
    ensures var y := Next(x, NewGeneration(u, commit));
      Has(Stopped(y, k).s, u) <==> x.b.evaluator.None? && x.b.buildator.None?
  {
    HasIff(x.s, u);
    AddedKeeps(x.s, u, commit);
    var y := Next(x, NewGeneration(u, commit));
    assert Inv(y) by { StepKeeps(x, NewGeneration(u, commit)); }
    StoppedKeeps(y, k);
    if x.b.evaluator.Some? || x.b.buildator.Some? {
      StoppedLasts(y, k);
      assert !IsLast(y.s, u);
    }
  }

  /** Stopping only makes the stopped generation last in something. */
  lemma StoppedLasts(x: Both, k: Stops)
    requires Inv(x)
    ensures forall v :: IsLast(Stopped(x, k).s, v) ==> IsLast(x.s, v)
  {
    if x.b.evaluator.Some? {
      var u := x.b.evaluator.value;
      EvalFinishedIs(x.s, u, k.eval);
      var s := AfterEvalFinished(x.s, u, k.eval);
      BuildStartIs(s, u);
      BuildFinishedIs(AfterBuildStart(s, u), u, false);
    } else if x.b.buildator.Some? {
      BuildFinishedIs(x.s, x.b.buildator.value, k.buildFailed);
    }
  }

  /** After a refused evaluation the builder reads as evaluating although no
      evaluator runs. */
  lemma RefusedEvalReadsAsEvaluating(x: Both, u: Uuid, commit: string, k: Stops)
    requires Inv(x) && !Has(x.s, u) && !IsLast(x.s, u) && (x.b.evaluator.Some? || x.b.buildator.Some?)
    ensures var z := Next(Next(x, NewGeneration(u, commit)), Eval(u, k));
      z.b.isEvaluating && z.b.evaluator.None? && z.b.managed == x.b.managed && !Has(z.s, u)
  {
    NewEvalSucceedsIff(x, u, commit, k);
    var y := Next(x, NewGeneration(u, commit));
    StepKeeps(x, NewGeneration(u, commit));
    StoppedKeeps(y, k);
  }
}
