/** What the flags and the notifications of the builder tell about a run. */
module BuilderHistory {
  import opened Common
  import opened Generations
  import opened Manager
  import opened Provenance
  import B = Builder

  // -------------------------------------------------------------- suspension

  /** The last suspension of the builder has not been followed by a resumption. */
  ghost predicate IsToBeSuspended(r: Run, n: nat) {
    exists i :: 0 <= i < n && i < |r.steps| && r.steps[i].SuspendBuilder? && NoResume(r, i, n)
  }

  ghost predicate NoResume(r: Run, i: int, n: nat) {
    forall j :: i < j < n && 0 <= j < |r.steps| ==> !r.steps[j].ResumeBuilder?
  }

  ghost predicate IsQuiet(x: B.Both) {
    x.b.suspended ==> x.b.buildator.None?
  }

  lemma StepSuspends(p: Pipeline, h: History, a: Step)
    requires Inv(p, h) && Enabled(p, a) && Provenance.Fresh(p, h, a) && IsQuiet(p.x)
    ensures var q := Next(p, a);
      && IsQuiet(q.x)
      && q.x.b.suspended == (a.SuspendBuilder? || (p.x.b.suspended && !a.ResumeBuilder?))
  {
    if a.Fetched? && a.updated && a.verified {
      FetchLeavesSuspension(p.x, a.commit, a.uuid, a.stops);
    } else if a.SuspendBuilder? || a.ResumeBuilder? {
      AskingSuspends(p.x, if a.SuspendBuilder? then a.stops else B.Stops(EvalResult(true, "", ""), false, true));
    } else {
      OthersLeaveSuspension(p, a);
    }
  }

  lemma AskingSuspends(x: B.Both, k: B.Stops)
    requires IsQuiet(x)
    ensures var y := B.AfterSuspend(x, k); y.b.suspended && IsQuiet(y)
    ensures !B.AfterResume(x).b.suspended
  {
  }

  lemma OthersLeaveSuspension(p: Pipeline, a: Step)
    requires Enabled(p, a) && IsQuiet(p.x) && !a.SuspendBuilder? && !a.ResumeBuilder?
    requires !(a.Fetched? && a.updated && a.verified)
    ensures var q := Next(p, a); IsQuiet(q.x) && q.x.b.suspended == p.x.b.suspended
  {
  }

  lemma FetchLeavesSuspension(x: B.Both, commit: string, u: Uuid, k: B.Stops)
    ensures var y := AfterFetched(x, commit, u, k); y.b.suspended == x.b.suspended && y.b.buildator.None?
  {
  }

  /** In every run the builder is suspended exactly when this was asked for last, and
      a suspended builder builds nothing. */
  lemma {:induction false} SuspendedAsAsked(r: Run, n: nat)
    requires IsRun(r) && n <= |r.steps|
    ensures r.ps[n].x.b.suspended <==> IsToBeSuspended(r, n)
    ensures r.ps[n].x.b.suspended ==> r.ps[n].x.b.buildator.None?
  {
    if n > 0 {
      SuspendedAsAsked(r, n - 1);
      RunKeeps(r, n - 1);
      assert StepAt(r, n - 1);
      StepSuspends(r.ps[n - 1], r.hs[n - 1], r.steps[n - 1]);
      IsToBeSuspendedNext(r, n - 1);
    }
  }

  lemma IsToBeSuspendedNext(r: Run, n: nat)
    requires n < |r.steps|
    ensures IsToBeSuspended(r, n + 1) <==>
      r.steps[n].SuspendBuilder? || (IsToBeSuspended(r, n) && !r.steps[n].ResumeBuilder?)
  {
    if r.steps[n].SuspendBuilder? {
      assert NoResume(r, n, n + 1);
    } else if IsToBeSuspended(r, n) && !r.steps[n].ResumeBuilder? {
      var i :| 0 <= i < n && i < |r.steps| && r.steps[i].SuspendBuilder? && NoResume(r, i, n);
      assert NoResume(r, i, n + 1);
    }
    if IsToBeSuspended(r, n + 1) && !r.steps[n].SuspendBuilder? {
      var i :| 0 <= i < n + 1 && i < |r.steps| && r.steps[i].SuspendBuilder? && NoResume(r, i, n + 1);
      assert i < n && NoResume(r, i, n);
    }
  }

  // ------------------------------------------------------------------- builds

  /** The generation can be built, and nobody else is worked on. */
  ghost predicate IsToBeBuilt(x: B.Both, u: Uuid) {
    && Has(x.s, u) && Get(x.s, u).eval == Evaluated && Get(x.s, u).build != Built
    && x.b.buildator.None? && (x.b.managed.None? || x.b.managed == Some(u))
  }

  /** A step starts the build of a generation exactly when the generation can be
      built and the step is its confirmation, received by a builder that is not
      suspended, or the resumption of a suspended builder that manages it. */
  lemma BuildStartsIff(p: Pipeline, a: Step, u: Uuid)
    requires B.Inv(p.x) && Enabled(p, a)
    ensures Next(p, a).x.b.buildator == Some(u) && p.x.b.buildator != Some(u) <==>
      && IsToBeBuilt(p.x, u)
      && (|| (a.BuildConfirmed? && p.build.out == Some(u) && !p.x.b.suspended)
          || (a.ResumeBuilder? && p.x.b.suspended && p.x.b.managed == Some(u)))
  {
    if Stops(a) {
      FetchLeavesSuspension(p.x, a.commit, a.uuid, a.stops);
    } else if !a.BuildConfirmed? && !a.ResumeBuilder? {
      OthersStartNothing(p, a);
    }
  }

  lemma OthersStartNothing(p: Pipeline, a: Step)
    requires Enabled(p, a) && !Stops(a) && !a.BuildConfirmed? && !a.ResumeBuilder?
    ensures Next(p, a).x.b.buildator.Some? ==> Next(p, a).x.b.buildator == p.x.b.buildator
  {
  }

  // ------------------------------------------------------- refused evaluations

  /** The last evaluation asked for was refused. */
  ghost predicate WasRefused(r: Run, n: nat) {
    exists i :: 0 <= i < n && RefusedAt(r, i) && NoneAsked(r, i, n)
  }

  ghost predicate RefusedAt(r: Run, i: nat) {
    i < |r.steps| && i + 1 < |r.ps| && Stops(r.steps[i]) && r.ps[i + 1].x.b.evaluator.None?
  }

  ghost predicate NoneAsked(r: Run, i: int, n: nat) {
    forall j :: i < j < n && 0 <= j < |r.steps| ==> !Stops(r.steps[j])
  }

  lemma WasRefusedNext(r: Run, n: nat)
    requires n < |r.steps|
    ensures WasRefused(r, n + 1) <==> if Stops(r.steps[n]) then RefusedAt(r, n) else WasRefused(r, n)
  {
    if RefusedAt(r, n) {
      assert NoneAsked(r, n, n + 1);
    }
    if WasRefused(r, n) && !Stops(r.steps[n]) {
      var i :| 0 <= i < n && RefusedAt(r, i) && NoneAsked(r, i, n);
      assert NoneAsked(r, i, n + 1);
    }
    if WasRefused(r, n + 1) {
      var i :| 0 <= i < n + 1 && RefusedAt(r, i) && NoneAsked(r, i, n + 1);
      assert i < n ==> NoneAsked(r, i, n);
    }
  }

  lemma StepReads(p: Pipeline, a: Step)
    requires B.Inv(p.x) && Enabled(p, a)
    ensures var b, c := p.x.b, Next(p, a).x.b;
      if Stops(a) then c.isEvaluating
      else if a.EvalEnd? then !c.isEvaluating && c.evaluator.None?
      else c.isEvaluating == b.isEvaluating && c.evaluator == b.evaluator
  {
  }

  /** In every run the builder reads as evaluating exactly when it is, or when the
      last evaluation asked for was refused. */
  lemma {:induction false} ReadsAsEvaluatingIff(r: Run, n: nat)
    requires IsRun(r) && n <= |r.steps|
    ensures var b := r.ps[n].x.b;
      && (b.isEvaluating <==> b.evaluator.Some? || WasRefused(r, n))
      && !(b.evaluator.Some? && WasRefused(r, n))
  {
    if n > 0 {
      ReadsAsEvaluatingIff(r, n - 1);
      RunKeeps(r, n - 1);
      assert StepAt(r, n - 1);
      StepReads(r.ps[n - 1], r.steps[n - 1]);
      WasRefusedNext(r, n - 1);
    }
  }

  // ------------------------------------------------------------ notifications

  /** The builder tells the loop of evaluations and of builds that have ended. */
  datatype Kind = Evaluation | Build

  /** The step stops whatever the builder does. */
  predicate Stops(a: Step) {
    a.Fetched? && a.updated && a.verified
  }

  /** The generation whose evaluation or build the step ends, so that the loop is to
      learn of it: an evaluation that finds its storepath in the Nix store already
      counts as a build. */
  function Noted(p: Pipeline, a: Step, kind: Kind): Option<Uuid> {
    match kind
    case Evaluation =>
      if (a.EvalEnd? && !a.inStore) || (Stops(a) && !a.stops.inStore) then p.x.b.evaluator else None
    case Build =>
      if p.x.b.evaluator.Some? && ((a.EvalEnd? && a.inStore) || (Stops(a) && a.stops.inStore)) then p.x.b.evaluator
      else if a.BuildEnd? || Stops(a) || (a.SuspendBuilder? && !p.x.b.suspended) then p.x.b.buildator
      else None
  }

  /** The loop receives a notification. */
  predicate Takes(a: Step, kind: Kind) {
    match kind case Evaluation => a.EvaluationDone? case Build => a.BuildDone?
  }

  function Slot(b: B.BuilderState, kind: Kind): Option<Uuid> {
    match kind case Evaluation => b.evaluationDone case Build => b.buildDone
  }

  function Filled(slot: Option<Uuid>, noted: Option<Uuid>): Option<Uuid> {
    if slot.None? then noted else slot
  }

  lemma FetchNotes(x: B.Both, commit: string, u: Uuid, k: B.Stops)
    requires B.Inv(x)
    ensures var b := AfterFetched(x, commit, u, k).b;
      && b.evaluationDone == Filled(x.b.evaluationDone, if k.inStore then None else x.b.evaluator)
      && b.buildDone == Filled(x.b.buildDone, if k.inStore && x.b.evaluator.Some? then x.b.evaluator else x.b.buildator)
  {
  }

  lemma SuspendNotes(x: B.Both, k: B.Stops)
    ensures var b := B.AfterSuspend(x, k).b;
      && b.evaluationDone == x.b.evaluationDone
      && b.buildDone == Filled(x.b.buildDone, if x.b.suspended then None else x.b.buildator)
  {
  }

  /** A notification fills its slot when the slot is free, and is lost otherwise. */
  ghost predicate FillsSlot(p: Pipeline, a: Step, kind: Kind)
    requires Enabled(p, a)
  {
    Slot(Next(p, a).x.b, kind) == if Takes(a, kind) then None else Filled(Slot(p.x.b, kind), Noted(p, a, kind))
  }

  lemma StopsFillSlot(p: Pipeline, a: Step, kind: Kind)
    requires B.Inv(p.x) && Enabled(p, a) && (a.Fetched? || a.SuspendBuilder?)
    ensures FillsSlot(p, a, kind)
  {
    if a.Fetched? {
      FetchNotes(p.x, a.commit, a.uuid, a.stops);
    } else {
      SuspendNotes(p.x, a.stops);
    }
  }

  lemma EndsFillSlot(p: Pipeline, a: Step, kind: Kind)
    requires Enabled(p, a) && (a.EvalEnd? || a.BuildEnd?)
    ensures FillsSlot(p, a, kind)
  {
  }

  lemma OthersFillSlot(p: Pipeline, a: Step, kind: Kind)
    requires Enabled(p, a) && !a.Fetched? && !a.SuspendBuilder? && !a.EvalEnd? && !a.BuildEnd?
    ensures FillsSlot(p, a, kind)
  {
  }

  lemma StepFillsSlot(p: Pipeline, a: Step, kind: Kind)
    requires B.Inv(p.x) && Enabled(p, a)
    ensures FillsSlot(p, a, kind)
  {
    if a.Fetched? || a.SuspendBuilder? {
      StopsFillSlot(p, a, kind);
    } else if a.EvalEnd? || a.BuildEnd? {
      EndsFillSlot(p, a, kind);
    } else {
      OthersFillSlot(p, a, kind);
    }
  }

  // ------------------------------------------------------------ over whole runs

  ghost predicate NotedAt(r: Run, i: int, kind: Kind, u: Uuid) {
    0 <= i < |r.steps| && i < |r.ps| && Noted(r.ps[i], r.steps[i], kind) == Some(u)
  }

  ghost predicate TakenBetween(r: Run, i: int, n: int, kind: Kind) {
    exists j :: i < j < n && 0 <= j < |r.steps| && Takes(r.steps[j], kind)
  }

  /** The loop has been told of everything before step n, or was told of something
      else since. */
  ghost predicate AllTaken(r: Run, n: int, kind: Kind) {
    forall i, u :: i < n && NotedAt(r, i, kind, u) ==> TakenBetween(r, i, n, kind)
  }

  /** Step i ended u, and nothing has been received since; whatever ended before it
      was followed by a receipt. */
  ghost predicate IsFirstUntaken(r: Run, i: int, n: int, kind: Kind, u: Uuid) {
    i < n && NotedAt(r, i, kind, u) && !TakenBetween(r, i, n, kind) && AllTaken(r, i, kind)
  }

  ghost predicate Waits(r: Run, n: int, kind: Kind, u: Uuid) {
    exists i :: IsFirstUntaken(r, i, n, kind, u)
  }

  /** What the slot holds after n steps. */
  ghost predicate HoldsFirst(r: Run, n: int, kind: Kind, slot: Option<Uuid>) {
    match slot
    case None => AllTaken(r, n, kind)
    case Some(u) => Waits(r, n, kind, u)
  }

  lemma HoldsFirstNext(r: Run, n: nat, kind: Kind, slot: Option<Uuid>)
    requires n < |r.steps| && n < |r.ps| && HoldsFirst(r, n, kind, slot)
    ensures HoldsFirst(r, n + 1, kind,
                       if Takes(r.steps[n], kind) then None else Filled(slot, Noted(r.ps[n], r.steps[n], kind)))
  {
    var a := r.steps[n];
    if Takes(a, kind) {
      forall i, u | i < n + 1 && NotedAt(r, i, kind, u) ensures TakenBetween(r, i, n + 1, kind) {
        assert i < n < n + 1;
      }
    } else if slot.Some? {
      var i :| IsFirstUntaken(r, i, n, kind, slot.value);
      assert !TakenBetween(r, i, n + 1, kind);
      assert IsFirstUntaken(r, i, n + 1, kind, slot.value);
    } else if Noted(r.ps[n], a, kind).Some? {
      assert IsFirstUntaken(r, n, n + 1, kind, Noted(r.ps[n], a, kind).value);
    } else {
      forall i, u | i < n + 1 && NotedAt(r, i, kind, u) ensures TakenBetween(r, i, n + 1, kind) {
        assert i < n && TakenBetween(r, i, n, kind);
        var j :| i < j < n && 0 <= j < |r.steps| && Takes(r.steps[j], kind);
        assert i < j < n + 1;
      }
    }
  }

  /** In every run the builder holds out to the loop the first generation whose
      evaluation, or build, has ended since the loop last received one; it holds out
      none exactly when there is no such generation. Later ones are lost. */
  lemma {:induction false} LoopLearnsOfTheFirst(r: Run, n: nat, kind: Kind)
    requires IsRun(r) && n <= |r.steps|
    ensures HoldsFirst(r, n, kind, Slot(r.ps[n].x.b, kind))
  {
    if n > 0 {
      LoopLearnsOfTheFirst(r, n - 1, kind);
      RunKeeps(r, n - 1);
      assert StepAt(r, n - 1);
      StepFillsSlot(r.ps[n - 1], r.steps[n - 1], kind);
      HoldsFirstNext(r, n - 1, kind, Slot(r.ps[n - 1].x.b, kind));
    }
  }
}
