/** The generation half of the store. */
module Generations {
  import opened Common

  datatype EvalStatus = EvalInit | Evaluating | Evaluated | EvalFailed

  datatype BuildStatus = BuildInit | Building | Built | BuildFailed

  datatype Generation = Generation(
    uuid: Uuid,
    commit: string,
    eval: EvalStatus,
    evalErr: bool,
    outPath: string,
    machineId: string,
    build: BuildStatus,
    buildErr: bool)

  /** The list and the four generations that collection spares. */
  datatype State = State(
    generations: seq<Generation>,
    evalStarted: Option<Uuid>,
    evalFinished: Option<Uuid>,
    buildStarted: Option<Uuid>,
    buildFinished: Option<Uuid>)

  datatype EvalResult = EvalResult(failed: bool, outPath: string, machineId: string)

  // ------------------------------------------------------------ specification

  function Uuids(gs: seq<Generation>): set<Uuid> {
    set g | g in gs :: g.uuid
  }

  ghost predicate DistinctUuids(gs: seq<Generation>) {
    forall i, j :: 0 <= i < j < |gs| ==> gs[i].uuid != gs[j].uuid
  }

  predicate IsLast(s: State, u: Uuid) {
    s.evalStarted == Some(u) || s.evalFinished == Some(u) || s.buildStarted == Some(u) || s.buildFinished == Some(u)
  }

  /** Identifiers are unique and whatever started or finished last is listed. */
  ghost predicate Valid(s: State) {
    DistinctUuids(s.generations) && forall u :: IsLast(s, u) ==> u in Uuids(s.generations)
  }

  function IndexOf(gs: seq<Generation>, u: Uuid): (i: nat)
    ensures i <= |gs| && (i < |gs| ==> gs[i].uuid == u)
    ensures forall k :: 0 <= k < i ==> gs[k].uuid != u
  {
    if gs == [] || gs[0].uuid == u then 0 else 1 + IndexOf(gs[1..], u)
  }

  predicate Has(s: State, u: Uuid) {
    IndexOf(s.generations, u) < |s.generations|
  }

  function Get(s: State, u: Uuid): Generation
    requires Has(s, u)
  {
    s.generations[IndexOf(s.generations, u)]
  }

  function Put(s: State, g: Generation): State
    requires Has(s, g.uuid)
  {
    s.(generations := s.generations[IndexOf(s.generations, g.uuid) := g])
  }

  function Spared(gs: seq<Generation>, s: State): seq<Generation> {
    if gs == [] then []
    else
      var front, g := Spared(gs[..|gs| - 1], s), gs[|gs| - 1];
      if IsLast(s, g.uuid) then front + [g] else front
  }

  /** Everything but the four spared generations is collected. */
  function Collected(s: State): State {
    s.(generations := Spared(s.generations, s))
  }

  function Added(s: State, u: Uuid, commit: string): State {
    s.(generations := s.generations + [Generation(u, commit, EvalInit, false, "", "", BuildInit, false)])
  }

  function StartedEval(g: Generation): Generation {
    g.(eval := Evaluating)
  }

  function FinishedEval(g: Generation, r: EvalResult): Generation {
    g.(eval := if r.failed then EvalFailed else Evaluated, evalErr := g.evalErr || r.failed,
       outPath := r.outPath, machineId := r.machineId)
  }

  function StartedBuild(g: Generation): Generation {
    g.(build := Building)
  }

  function FinishedBuild(g: Generation, failed: bool): Generation {
    g.(build := if failed then BuildFailed else Built, buildErr := failed)
  }

  /** The four transitions leave the store as it is when the generation is gone. */
  function AfterEvalStarted(s: State, u: Uuid): State {
    if Has(s, u) then Collected(Put(s, StartedEval(Get(s, u))).(evalStarted := Some(u))) else s
  }

  function AfterEvalFinished(s: State, u: Uuid, r: EvalResult): State {
    if Has(s, u) then Collected(Put(s, FinishedEval(Get(s, u), r)).(evalFinished := Some(u))) else s
  }

  function AfterBuildStart(s: State, u: Uuid): State {
    if Has(s, u) then Collected(Put(s, StartedBuild(Get(s, u))).(buildStarted := Some(u))) else s
  }

  function AfterBuildFinished(s: State, u: Uuid, failed: bool): State {
    if Has(s, u) then Collected(Put(s, FinishedBuild(Get(s, u), failed)).(buildFinished := Some(u))) else s
  }

  // -------------------------------------------------------------- the program

  class Store {
    var generations: seq<Generation>
    var evalStarted: Option<Uuid>
    var evalFinished: Option<Uuid>
    var buildStarted: Option<Uuid>
    var buildFinished: Option<Uuid>

    function Current(): State
      reads this
    {
      State(generations, evalStarted, evalFinished, buildStarted, buildFinished)
    }

    constructor (loaded: seq<Generation>)
      ensures Current() == State(loaded, None, None, None, None)
    {
      generations := loaded;
      evalStarted, evalFinished, buildStarted, buildFinished := None, None, None, None;
    }

    method GenerationsGC()
      modifies this`generations
      ensures Current() == Collected(old(Current()))
    {
      var alive: seq<Generation> := [];
      for i := 0 to |generations|
        invariant alive == Spared(generations[..i], Current())
      {
        var g := generations[i];
        assert generations[..i + 1][..i] == generations[..i];
        if evalStarted == Some(g.uuid) || evalFinished == Some(g.uuid) || buildStarted == Some(g.uuid)
          || buildFinished == Some(g.uuid) {
          alive := alive + [g];
        }
      }
      assert generations[..|generations|] == generations;
      SparedDependsOnLasts(generations, Current(), Current().(generations := alive));
      generations := alive;
    }

    method GenerationGet(u: Uuid) returns (g: Option<Generation>)
      ensures g == if Has(Current(), u) then Some(Get(Current(), u)) else None
    {
      for i := 0 to |generations|
        invariant i <= IndexOf(generations, u)
      {
        if generations[i].uuid == u {
          return Some(generations[i]);
        }
      }
      return None;
    }

    method NewGeneration(u: Uuid, commit: string)
      modifies this`generations
      ensures Current() == Added(old(Current()), u, commit)
    {
      generations := generations + [Generation(u, commit, EvalInit, false, "", "", BuildInit, false)];
    }

    method Replace(g: Generation)
      requires Has(Current(), g.uuid)
      modifies this`generations
      ensures Current() == Put(old(Current()), g)
    {
      var i := IndexOf(generations, g.uuid);
      generations := generations[i := g];
    }

    method GenerationEvalStarted(u: Uuid) returns (ok: bool)
      modifies this
      ensures ok == Has(old(Current()), u)
      ensures Current() == AfterEvalStarted(old(Current()), u)
    {
      var g := GenerationGet(u);
      if g.None? {
        return false;
      }
      Replace(g.value.(eval := Evaluating));
      evalStarted := Some(u);
      GenerationsGC();
      return true;
    }

    method GenerationEvalFinished(u: Uuid, r: EvalResult) returns (ok: bool)
      modifies this
      ensures ok == Has(old(Current()), u)
      ensures Current() == AfterEvalFinished(old(Current()), u, r)
    {
      var g := GenerationGet(u);
      if g.None? {
        return false;
      }
      var d := g.value;
      if r.failed {
        d := d.(evalErr := true, eval := EvalFailed);
      } else {
        d := d.(eval := Evaluated);
      }
      Replace(d.(outPath := r.outPath, machineId := r.machineId));
      evalFinished := Some(u);
      GenerationsGC();
      return true;
    }

    method GenerationBuildStart(u: Uuid) returns (ok: bool)
      modifies this
      ensures ok == Has(old(Current()), u)
      ensures Current() == AfterBuildStart(old(Current()), u)
    {
      var g := GenerationGet(u);
      if g.None? {
        return false;
      }
      Replace(g.value.(build := Building));
      buildStarted := Some(u);
      GenerationsGC();
      return true;
    }

    method GenerationBuildFinished(u: Uuid, failed: bool) returns (ok: bool)
      modifies this
      ensures ok == Has(old(Current()), u)
      ensures Current() == AfterBuildFinished(old(Current()), u, failed)
    {
      var g := GenerationGet(u);
      if g.None? {
        return false;
      }
      if failed {
        Replace(g.value.(build := BuildFailed, buildErr := true));
      } else {
        Replace(g.value.(buildErr := false, build := Built));
      }
      buildFinished := Some(u);
      GenerationsGC();
      return true;
    }
  }

  // -------------------------------------------------------------------- laws

  lemma {:induction false} SparedDependsOnLasts(gs: seq<Generation>, s: State, t: State)
    requires t == s.(generations := t.generations)
    ensures Spared(gs, s) == Spared(gs, t)
  {
    if gs != [] {
      SparedDependsOnLasts(gs[..|gs| - 1], s, t);
    }
  }

  lemma {:induction false} SparedMembers(gs: seq<Generation>, s: State)
    ensures forall g :: g in Spared(gs, s) <==> g in gs && IsLast(s, g.uuid)
    ensures DistinctUuids(gs) ==> DistinctUuids(Spared(gs, s))
  {
    if gs != [] {
      var front, g := gs[..|gs| - 1], gs[|gs| - 1];
      assert gs == front + [g];
      SparedMembers(front, s);
      assert DistinctUuids(gs) ==> forall h :: h in front ==> h.uuid != g.uuid;
      var r := Spared(front, s);
      assert forall i :: 0 <= i < |r| ==> r[i] in front;
    }
  }

  lemma HasIff(s: State, u: Uuid)
    ensures Has(s, u) <==> u in Uuids(s.generations)
  {
    if u in Uuids(s.generations) {
      var g :| g in s.generations && g.uuid == u;
    }
  }

  lemma GetIsTheOne(s: State, g: Generation)
    requires DistinctUuids(s.generations) && g in s.generations
    ensures Has(s, g.uuid) && Get(s, g.uuid) == g
  {
    HasIff(s, g.uuid);
  }

  /** At most as many distinct generations as there are identifiers. */
  lemma {:induction false} DistinctAreFew(gs: seq<Generation>, us: set<Uuid>)
    requires DistinctUuids(gs) && forall g :: g in gs ==> g.uuid in us
    ensures |gs| <= |us|
  {
    if gs != [] {
      var g := gs[|gs| - 1];
      assert g in gs;
      DistinctAreFew(gs[..|gs| - 1], us - {g.uuid});
    }
  }

  /** Collection leaves the order as it is. */
  lemma {:induction false} SparedAreInOrder(gs: seq<Generation>, s: State, i: nat, j: nat)
    requires i < j < |Spared(gs, s)|
    ensures exists p, q :: 0 <= p < q < |gs| && gs[p] == Spared(gs, s)[i] && gs[q] == Spared(gs, s)[j]
  {
    var front, g := gs[..|gs| - 1], gs[|gs| - 1];
    if j < |Spared(front, s)| {
      SparedAreInOrder(front, s, i, j);
      var p, q :| 0 <= p < q < |front| && front[p] == Spared(front, s)[i] && front[q] == Spared(front, s)[j];
      assert gs[p] == front[p] && gs[q] == front[q];
    } else {
      SparedIs(front, s, i);
      var p :| 0 <= p < |front| && front[p] == Spared(front, s)[i];
      assert gs[p] == front[p] && p < |gs| - 1;
    }
  }

  lemma {:induction false} SparedIs(gs: seq<Generation>, s: State, i: nat)
    requires i < |Spared(gs, s)|
    ensures Spared(gs, s)[i] in gs
  {
    if i < |Spared(gs[..|gs| - 1], s)| {
      SparedIs(gs[..|gs| - 1], s, i);
    }
  }

  /** Only four generations survive a collection, and all four that are last in
      something do. */
  lemma CollectionSparesFour(s: State)
    requires DistinctUuids(s.generations)
    requires forall u :: IsLast(s, u) ==> u in Uuids(s.generations)
    ensures Valid(Collected(s)) && |Collected(s).generations| <= 4
    ensures forall u :: Has(Collected(s), u) <==> IsLast(s, u)
    ensures forall u :: IsLast(s, u) ==> Has(s, u) && Get(Collected(s), u) == Get(s, u)
  {
    var c := Collected(s);
    SparedMembers(s.generations, s);
    var us := Lasts(s);
    DistinctAreFew(c.generations, us);
    forall u ensures Has(c, u) <==> IsLast(s, u) {
      HasIff(c, u);
    }
    forall u | IsLast(s, u) ensures u in Uuids(c.generations) && Has(s, u) && Get(c, u) == Get(s, u) {
      HasIff(s, u);
      GetIsTheOne(c, Get(s, u));
    }
  }

  ghost function Lasts(s: State): (us: set<Uuid>)
    ensures |us| <= 4 && forall u :: u in us <==> IsLast(s, u)
  {
    LastOf(s.evalStarted) + LastOf(s.evalFinished) + LastOf(s.buildStarted) + LastOf(s.buildFinished)
  }

  ghost function LastOf(o: Option<Uuid>): (us: set<Uuid>)
    ensures |us| <= 1
  {
    match o case None => {} case Some(u) => {u}
  }

  lemma PutKeepsUuids(gs: seq<Generation>, i: nat, g: Generation)
    requires i < |gs| && gs[i].uuid == g.uuid
    ensures Uuids(gs[i := g]) == Uuids(gs)
    ensures DistinctUuids(gs) ==> DistinctUuids(gs[i := g])
  {
    var ts := gs[i := g];
    forall u | u in Uuids(gs) ensures u in Uuids(ts) {
      var k :| 0 <= k < |gs| && gs[k].uuid == u;
      assert ts[k].uuid == u && ts[k] in ts;
    }
    forall u | u in Uuids(ts) ensures u in Uuids(gs) {
      var k :| 0 <= k < |ts| && ts[k].uuid == u;
      assert gs[k].uuid == u && gs[k] in gs;
    }
  }

  lemma PutKeepsOne(s: State, g: Generation, u: Uuid)
    requires DistinctUuids(s.generations) && Has(s, g.uuid)
    ensures Has(Put(s, g), u) <==> Has(s, u)
    ensures Has(s, u) ==> Get(Put(s, g), u) == if u == g.uuid then g else Get(s, u)
  {
    var t := Put(s, g);
    PutKeepsUuids(s.generations, IndexOf(s.generations, g.uuid), g);
    HasIff(t, u);
    HasIff(s, u);
    if Has(s, u) {
      var k := IndexOf(s.generations, u);
      assert t.generations[k] in t.generations;
      GetIsTheOne(t, t.generations[k]);
    }
  }

  /** Replacing a generation keeps the others. */
  lemma PutKeeps(s: State, g: Generation)
    requires DistinctUuids(s.generations) && Has(s, g.uuid)
    ensures DistinctUuids(Put(s, g).generations)
    ensures Uuids(Put(s, g).generations) == Uuids(s.generations)
    ensures forall u :: Has(Put(s, g), u) <==> Has(s, u)
    ensures forall u :: Has(s, u) ==> Get(Put(s, g), u) == if u == g.uuid then g else Get(s, u)
  {
    PutKeepsUuids(s.generations, IndexOf(s.generations, g.uuid), g);
    forall u
      ensures Has(Put(s, g), u) <==> Has(s, u)
      ensures Has(s, u) ==> Get(Put(s, g), u) == if u == g.uuid then g else Get(s, u)
    {
      PutKeepsOne(s, g, u);
    }
  }

  lemma AddedKeeps(s: State, u: Uuid, commit: string)
    requires Valid(s) && u !in Uuids(s.generations)
    ensures Valid(Added(s, u, commit))
    ensures forall v :: Has(Added(s, u, commit), v) <==> Has(s, v) || v == u
    ensures forall v :: Has(s, v) ==> Get(Added(s, u, commit), v) == Get(s, v)
    ensures Get(Added(s, u, commit), u) == Generation(u, commit, EvalInit, false, "", "", BuildInit, false)
  {
    var t := Added(s, u, commit);
    var n := Generation(u, commit, EvalInit, false, "", "", BuildInit, false);
    assert forall i :: 0 <= i < |s.generations| ==> s.generations[i].uuid in Uuids(s.generations);
    assert DistinctUuids(t.generations);
    assert forall g :: g in t.generations <==> g in s.generations || g == n;
    assert Uuids(t.generations) == Uuids(s.generations) + {u};
    assert forall v :: IsLast(t, v) <==> IsLast(s, v);
    forall v ensures Has(t, v) <==> Has(s, v) || v == u {
      HasIff(t, v);
      HasIff(s, v);
    }
    assert n in t.generations;
    GetIsTheOne(t, n);
    forall v | Has(s, v) ensures Get(t, v) == Get(s, v) {
      GetIsTheOne(t, Get(s, v));
    }
  }

  /** Any transition of a listed generation: the store stays valid, at most four
      generations remain, the spared ones are those last in something, and only
      the generation concerned has changed. */
  lemma TransitionKeeps(s: State, g: Generation, t: State)
    requires Valid(s) && Has(s, g.uuid)
    requires t.generations == Put(s, g).generations
    requires forall u :: IsLast(t, u) ==> IsLast(s, u) || u == g.uuid
    requires IsLast(t, g.uuid)
    ensures Valid(Collected(t)) && |Collected(t).generations| <= 4
    ensures forall u :: Has(Collected(t), u) <==> IsLast(t, u)
    ensures forall u :: IsLast(t, u) ==> Has(s, u) && Get(Collected(t), u) == if u == g.uuid then g else Get(s, u)
  {
    PutKeeps(s, g);
    HasIff(s, g.uuid);
    CollectionSparesFour(t);
    forall u | IsLast(t, u) ensures Has(s, u) && Get(Collected(t), u) == if u == g.uuid then g else Get(s, u) {
      HasIff(s, u);
      HasIff(t, u);
      var p := Put(s, g);
      assert Get(p, u) == Get(t, u);
    }
  }
}
