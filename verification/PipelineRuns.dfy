/** Runs of the pipeline, built step by step, and one that leaves the builder stuck. */
module PipelineRuns {
  import opened Common
  import opened Generations
  import opened Manager
  import opened Provenance
  import B = Builder

  /** A run that takes one more step. */
  ghost function Continued(r: Run, a: Step): Run
    requires IsRun(r) && Enabled(r.ps[|r.steps|], a)
  {
    var p, h := r.ps[|r.steps|], r.hs[|r.steps|];
    Run(r.ps + [Next(p, a)], r.hs + [Recorded(p, h, a)], r.steps + [a])
  }

  lemma ContinuedIsRun(r: Run, a: Step)
    requires IsRun(r) && Enabled(r.ps[|r.steps|], a) && Provenance.Fresh(r.ps[|r.steps|], r.hs[|r.steps|], a)
    ensures IsRun(Continued(r, a))
  {
    var s, n := Continued(r, a), |r.steps|;
    forall i | 0 <= i <= n ensures StepAt(s, i) {
      if i < n {
        assert StepAt(r, i);
      }
    }
  }

  /** A run from p takes the steps and arrives at q. */
  ghost predicate Reaches(p: Pipeline, steps: seq<Step>, q: Pipeline) {
    exists r :: IsRunTo(r, p, steps, q)
  }

  ghost predicate IsRunTo(r: Run, p: Pipeline, steps: seq<Step>, q: Pipeline) {
    IsRun(r) && r.ps[0] == p && r.steps == steps && r.ps[|steps|] == q
  }

  lemma ReachesItself(p: Pipeline)
    requires IsStart(p)
    ensures Reaches(p, [], p)
  {
    assert IsRunTo(Run([p], [History(map[], {}, {}, [])], []), p, [], p);
  }

  lemma ReachesNext(p: Pipeline, steps: seq<Step>, q: Pipeline, a: Step)
    requires Reaches(p, steps, q) && Enabled(q, a) && !a.Fetched?
    ensures Reaches(p, steps + [a], Next(q, a))
  {
    var r :| IsRunTo(r, p, steps, q);
    ContinuedIsRun(r, a);
    assert IsRunTo(Continued(r, a), p, steps + [a], Next(q, a));
  }

  lemma ReachesTwo(p: Pipeline, steps: seq<Step>, q: Pipeline, a: Step, b: Step)
    requires Reaches(p, steps, q) && !a.Fetched? && !b.Fetched? && Enabled(q, a) && Enabled(Next(q, a), b)
    ensures Reaches(p, steps + [a, b], Next(Next(q, a), b))
  {
    ReachesNext(p, steps, q, a);
    ReachesNext(p, steps + [a], Next(q, a), b);
    assert steps + [a] + [b] == steps + [a, b];
  }

  /** A fetch needs an identifier that no fetch of the run has used. */
  lemma ReachesFetch(p: Pipeline, steps: seq<Step>, q: Pipeline, a: Step)
    requires Reaches(p, steps, q) && Enabled(q, a) && a.Fetched? && a.uuid != "" && !Has(q.x.s, a.uuid)
    requires forall i :: 0 <= i < |steps| && steps[i].Fetched? ==> steps[i].uuid != a.uuid
    ensures Reaches(p, steps + [a], Next(q, a))
  {
    var r :| IsRunTo(r, p, steps, q);
    HistoryIsTrue(r, |steps|, a.uuid);
    ContinuedIsRun(r, a);
    assert IsRunTo(Continued(r, a), p, steps + [a], Next(q, a));
  }

  /** The new generation is being evaluated. */
  lemma FirstFetch(x: B.Both, u: Uuid, commit: string, k: B.Stops)
    requires B.Inv(x) && x.b.evaluator.None? && x.b.buildator.None? && !Has(x.s, u)
    ensures var y := AfterFetched(x, commit, u, k);
      && B.Inv(y) && y.b == x.b.(isEvaluating := true, managed := Some(u), evaluator := Some(u))
      && Has(y.s, u) && Get(y.s, u) == Generation(u, commit, Evaluating, false, "", "", BuildInit, false)
  {
    HasIff(x.s, u);
    AddedKeeps(x.s, u, commit);
    var a := x.(s := Added(x.s, u, commit));
    B.StepKeeps(x, B.NewGeneration(u, commit));
    B.EvalKeeps(a, u, k);
    B.EvalStartedIs(a.s, u);
  }

  lemma FirstFetchReaches(p: Pipeline, u: Uuid, commit: string, k: B.Stops) returns (q: Pipeline)
    requires IsStart(p) && u != "" && !Has(p.x.s, u)
    ensures Reaches(p, [Fetched(true, true, commit, u, k)], q)
    ensures B.Inv(q.x) && q.x.b.evaluator == Some(u) && q.x.b.buildDone.None?
    ensures q.loop.Idle? && q.host == p.host && q.deployer == p.deployer
  {
    var a := Fetched(true, true, commit, u, k);
    ReachesItself(p);
    ReachesFetch(p, [], p, a);
    assert [] + [a] == [a];
    FirstFetch(p.x, u, commit, k);
    q := Next(p, a);
  }

  /** A second new generation while the first is evaluated. */
  lemma SecondFetchIsStuck(q: Pipeline, u: Uuid, v: Uuid, commit: string, k: B.Stops)
    requires B.Inv(q.x) && q.loop.Idle? && q.x.b.managed == Some(u) && q.x.b.evaluator == Some(u) && !Has(q.x.s, v)
    ensures IsStuck(Next(q, Fetched(true, true, commit, v, k)), u, v)
  {
    HasIff(q.x.s, v);
    B.RefusedEvalReadsAsEvaluating(q.x, v, commit, k);
  }

  /** The first fetch adds no other generation. */
  lemma FirstFetchStores(x: B.Both, u: Uuid, commit: string, k: B.Stops, v: Uuid)
    requires B.Inv(x) && x.b.evaluator.None? && x.b.buildator.None? && !Has(x.s, u) && !Has(x.s, v) && u != v
    ensures !Has(AfterFetched(x, commit, u, k).s, v)
  {
    HasIff(x.s, u);
    AddedKeeps(x.s, u, commit);
    B.EvalStartedIs(Added(x.s, u, commit), u);
  }

  ghost predicate IsStuck(q: Pipeline, u: Uuid, v: Uuid) {
    q.x.b.isEvaluating && q.x.b.evaluator.None? && q.x.b.buildator.None? && q.x.b.managed == Some(u) && !Has(q.x.s, v)
  }

  /** From any initial state, two fetches in a row: the evaluation of the second
      generation is refused, and the builder reads as evaluating with no evaluator. */
  lemma RefusedEvalExample(p: Pipeline, u: Uuid, c: string, k: B.Stops, v: Uuid, d: string, l: B.Stops)
    requires IsStart(p) && u != "" && v != "" && u != v && !Has(p.x.s, u) && !Has(p.x.s, v)
    ensures exists q :: Reaches(p, [Fetched(true, true, c, u, k), Fetched(true, true, d, v, l)], q) && IsStuck(q, u, v)
  {
    var a, b := Fetched(true, true, c, u, k), Fetched(true, true, d, v, l);
    ReachesItself(p);
    ReachesFetch(p, [], p, a);
    assert [] + [a] == [a];
    var q := Next(p, a);
    FirstFetch(p.x, u, c, k);
    FirstFetchStores(p.x, u, c, k, v);
    ReachesFetch(p, [a], q, b);
    assert [a] + [b] == [a, b];
    SecondFetchIsStuck(q, u, v, d, l);
  }
}
