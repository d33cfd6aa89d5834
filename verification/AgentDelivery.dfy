/** With keys configured, a commit whose signature is accepted gets to the deployer. */
module AgentDelivery {
  import opened Agent
  import opened Common
  import opened CommitGraph
  import B = Builder
  import C = Confirmer
  import D = Deployer
  import F = Fetcher
  import G = Generations
  import Laws = RepositoryLaws
  import M = Manager
  import Meaning = UpdateMeaning
  import P = Provenance
  import R = Repository
  import Way = Delivery

  // --------------------------------------------------------------------- runs

  /** A run from a takes the steps and arrives at b. */
  ghost predicate Runs(keys: bool, a: Agent, steps: seq<Step>, b: Agent) {
    exists agents :: IsRunTo(keys, agents, a, steps, b)
  }

  ghost predicate IsRunTo(keys: bool, agents: seq<Agent>, a: Agent, steps: seq<Step>, b: Agent) {
    IsRun(keys, agents, steps) && agents[0] == a && agents[|steps|] == b
  }

  lemma RunsNowhere(keys: bool, a: Agent)
    requires IsStart(a)
    ensures Runs(keys, a, [], a)
  {
    assert IsRunTo(keys, [a], a, [], a);
  }

  lemma RunsOn(keys: bool, a: Agent, steps: seq<Step>, b: Agent, s: Step)
    requires Runs(keys, a, steps, b) && Enabled(b, s)
    ensures Runs(keys, a, steps + [s], Next(keys, b, s))
  {
    var agents :| IsRunTo(keys, agents, a, steps, b);
    assert IsRunTo(keys, agents + [Next(keys, b, s)], a, steps + [s], Next(keys, b, s));
  }

  function Acts(ms: seq<M.Step>): seq<Step> {
    seq(|ms|, i requires 0 <= i < |ms| => Act(ms[i]))
  }

  ghost predicate NoneFetches(ms: seq<M.Step>) {
    forall i :: 0 <= i < |ms| ==> !ms[i].Fetched?
  }

  /** The agent has received its first event and let the pipeline take the steps. */
  ghost predicate Arrives(keys: bool, a: Agent, steps: seq<Step>, b: Agent, c: Agent, q: M.Pipeline, u: Uuid)
    requires b.events != []
  {
    && Runs(keys, a, steps, c) && c.pipeline == q
    && c.history.origin == b.history.origin[u := CommitOf(b.events[0].report)]
  }

  /** The pipeline steps that begin with a fetch are steps of the agent. */
  lemma {:induction false} Lifts(keys: bool, a: Agent, steps: seq<Step>, b: Agent, u: Uuid, k: B.Stops,
                                 rest: seq<M.Step>, q: M.Pipeline)
    returns (c: Agent)
    requires Runs(keys, a, steps, b) && b.events != [] && b.events[0].updated && b.events[0].verified
    requires P.Fresh(b.pipeline, b.history, Received(b.events[0], u, k)) && NoneFetches(rest)
    requires Way.Goes(b.pipeline, [Received(b.events[0], u, k)] + rest, q)
    ensures Arrives(keys, a, steps + [Receive(u, k)] + Acts(rest), b, c, q, u)
    decreases |rest|
  {
    var f := Received(b.events[0], u, k);
    if rest == [] {
      assert [f] + rest == [f];
      GoesOne(b.pipeline, f, q);
      c := FirstArrives(keys, a, steps, b, u, k);
      assert steps + [Receive(u, k)] + Acts(rest) == steps + [Receive(u, k)];
    } else {
      var front, m := rest[..|rest| - 1], rest[|rest| - 1];
      assert [f] + rest == [f] + front + [m];
      var mid := Way.GoesLast(b.pipeline, [f] + front, m, q);
      c := Lifts(keys, a, steps, b, u, k, front, mid);
      c := NextArrives(keys, a, steps + [Receive(u, k)] + Acts(front), b, c, mid, u, m);
      assert rest == front + [m];
      ActsNext(front, m);
      assert steps + [Receive(u, k)] + (Acts(front) + [Act(m)]) == steps + [Receive(u, k)] + Acts(front) + [Act(m)];
    }
  }

  lemma ActsNext(front: seq<M.Step>, m: M.Step)
    ensures Acts(front + [m]) == Acts(front) + [Act(m)]
  {
  }

  lemma FirstArrives(keys: bool, a: Agent, steps: seq<Step>, b: Agent, u: Uuid, k: B.Stops)
    returns (c: Agent)
    requires Runs(keys, a, steps, b) && b.events != [] && b.events[0].updated && b.events[0].verified
    requires CanAct(b, Received(b.events[0], u, k))
    ensures Arrives(keys, a, steps + [Receive(u, k)], b, c, M.Next(b.pipeline, Received(b.events[0], u, k)), u)
  {
    c := Next(keys, b, Receive(u, k));
    RunsOn(keys, a, steps, b, Receive(u, k));
  }

  lemma NextArrives(keys: bool, a: Agent, steps: seq<Step>, b: Agent, c: Agent, q: M.Pipeline, u: Uuid, m: M.Step)
    returns (d: Agent)
    requires b.events != [] && Arrives(keys, a, steps, b, c, q, u) && M.Enabled(q, m) && !m.Fetched?
    ensures Arrives(keys, a, steps + [Act(m)], b, d, M.Next(q, m), u)
  {
    d := Next(keys, c, Act(m));
    RunsOn(keys, a, steps, c, Act(m));
  }

  lemma GoesOne(p: M.Pipeline, a: M.Step, q: M.Pipeline)
    requires Way.Goes(p, [a], q)
    ensures M.Enabled(p, a) && q == M.Next(p, a)
  {
    var ps :| Way.IsWay(ps, p, [a], q);
    assert M.Enabled(ps[0], [a][0]);
  }

  // ----------------------------------------------------------- from the remotes

  /** The steps from a trigger to the event that the manager will receive. */
  function Fetching(names: seq<F.Name>, failing: set<string>, w: R.World, accepts: Laws.Oracle): seq<Step> {
    [Trigger(names)] + [Work(failing, w, accepts)] + [Report]
  }

  /** The fetch is to find the commit c, which the agent did not know. */
  ghost predicate Finds(a: Agent, names: seq<F.Name>, failing: set<string>, w: R.World, c: Commit) {
    && names != [] && a.fetcher.stored.selected != Some(c)
    && Meaning.IsChoice(w, R.Fetched(F.Members(names), failing, a.status), c)
  }

  /** Without keys every commit will do. */
  predicate Trusts(keys: bool, accepts: Laws.Oracle, c: Commit) {
    keys ==> accepts(c)
  }

  /** The event names the commit; it is verified when there are no keys or the
      signature is accepted. */
  lemma FetchIsPublished(keys: bool, a: Agent, names: seq<F.Name>, failing: set<string>, w: R.World,
                         accepts: Laws.Oracle, c: Commit)
    requires IsStart(a) && Finds(a, names, failing, w, c)
    ensures exists b :: Announces(keys, a, Fetching(names, failing, w, accepts), b, c, Trusts(keys, accepts, c))
  {
    ReportIsReached(keys, a, names, failing, w, accepts, c);
    var s1, s2 := Trigger(names), Work(failing, w, accepts);
    RunsThree(keys, a, s1, s2, Report);
    var b := Next(keys, Next(keys, Next(keys, a, s1), s2), Report);
    assert Announces(keys, a, Fetching(names, failing, w, accepts), b, c, Trusts(keys, accepts, c));
  }

  ghost predicate Announces(keys: bool, a: Agent, steps: seq<Step>, b: Agent, c: Commit, verified: bool) {
    Runs(keys, a, steps, b) && IsAnnounced(a, b, c, verified)
  }

  lemma RunsThree(keys: bool, a: Agent, s1: Step, s2: Step, s3: Step)
    requires IsStart(a) && Enabled(a, s1) && Enabled(Next(keys, a, s1), s2)
    requires Enabled(Next(keys, Next(keys, a, s1), s2), s3)
    ensures Runs(keys, a, [s1] + [s2] + [s3], Next(keys, Next(keys, Next(keys, a, s1), s2), s3))
  {
    RunsNowhere(keys, a);
    RunsOn(keys, a, [], a, s1);
    assert [] + [s1] == [s1];
    RunsOn(keys, a, [s1], Next(keys, a, s1), s2);
    RunsOn(keys, a, [s1] + [s2], Next(keys, Next(keys, a, s1), s2), s3);
  }

  lemma ReportIsReached(keys: bool, a: Agent, names: seq<F.Name>, failing: set<string>, w: R.World,
                        accepts: Laws.Oracle, c: Commit)
    requires IsStart(a) && Finds(a, names, failing, w, c)
    ensures Enabled(a, Trigger(names))
    ensures var b := Next(keys, a, Trigger(names));
      Enabled(b, Work(failing, w, accepts))
      && var d := Next(keys, b, Work(failing, w, accepts));
         Enabled(d, Report) && IsAnnounced(a, Next(keys, d, Report), c, Trusts(keys, accepts, c))
  {
    TriggerStarts(keys, a, names);
    var b := Next(keys, a, Trigger(names));
    ChoiceIsFound(keys, b, names, failing, w, accepts, c);
    FoundIsAnnounced(keys, b, Next(keys, b, Work(failing, w, accepts)), c, Trusts(keys, accepts, c));
  }

  /** The commit waits to be handed to the fetcher. */
  ghost predicate IsFound(a: Agent, b: Agent, c: Commit, verified: bool) {
    && b.pipeline == a.pipeline && b.history == a.history && b.events == []
    && b.fetcher.fetching.Some? && b.fetcher.stored.selected != Some(c)
    && b.found.Some? && b.found.value.selected == Some(c) && (F.IsVerified(b.found.value) <==> verified)
  }

  lemma FoundIsAnnounced(keys: bool, a: Agent, b: Agent, c: Commit, verified: bool)
    requires IsFound(a, b, c, verified)
    ensures Enabled(b, Report) && IsAnnounced(a, Next(keys, b, Report), c, verified)
  {
  }

  ghost predicate IsAnnounced(a: Agent, b: Agent, c: Commit, verified: bool) {
    && b.pipeline == a.pipeline && b.history == a.history && |b.events| == 1
    && b.events[0].updated && b.events[0].verified == verified && b.events[0].report.selected == Some(c)
  }

  lemma TriggerStarts(keys: bool, a: Agent, names: seq<F.Name>)
    requires F.Fresh(a.fetcher) && names != []
    ensures Enabled(a, Trigger(names))
    ensures var b := Next(keys, a, Trigger(names));
      && b == a.(fetcher := b.fetcher) && b.fetcher.fetching.Some? && b.fetcher.stored == a.fetcher.stored
      && F.Members(b.fetcher.fetching.value) == F.Members(names)
  {
    F.UnionIs([], names);
    assert names[0] in F.Members(names);
    assert names[0] in F.Members(F.Union([], names));
  }

  lemma ChoiceIsFound(keys: bool, a: Agent, names: seq<F.Name>, failing: set<string>, w: R.World,
                      accepts: Laws.Oracle, c: Commit)
    requires Finds(a, names, failing, w, c) && a.found.None? && a.events == []
    requires a.fetcher.fetching.Some? && F.Members(a.fetcher.fetching.value) == F.Members(names)
    ensures Enabled(a, Work(failing, w, accepts))
    ensures IsFound(a, Next(keys, a, Work(failing, w, accepts)), c, Trusts(keys, accepts, c))
  {
    ChoiceIsReported(keys, R.Fetched(F.Members(names), failing, a.status), w, accepts, c);
  }

  lemma ChoiceIsReported(keys: bool, st: R.Status, w: R.World, accepts: Laws.Oracle, c: Commit)
    requires Meaning.IsChoice(w, st, c)
    ensures var r := F.ReportOf(R.Updated(w, keys, accepts, st));
      r.selected == Some(c) && (F.IsVerified(r) <==> Trusts(keys, accepts, c))
  {
    var i, u, t, m :| Meaning.IsChoiceFrom(w, st, c, i, u, t, m);
    F.ReportNamesTheChoice(w, keys, accepts, st, c, i, u, t, m);
    F.VerifiedIff(w, keys, accepts, st);
    Meaning.ChoiceIsSelected(w, keys, accepts, st);
  }

  // ------------------------------------------------------------------ delivery

  /** What happens after the event is received. */
  function Rest(p: M.Pipeline, u: Uuid, e: G.EvalResult, op: string): seq<M.Step> {
    [M.EvalEnd(e, false)] + [M.EvaluationDone] + Way.BuildAnswer(p.build, u) + [M.BuildConfirmed]
    + Way.ToDeployer(p, u, op)
  }

  lemma RestIs(p: M.Pipeline, u: Uuid, c: Commit, k: B.Stops, e: G.EvalResult, op: string)
    ensures Way.ToBuild(p, u, c, k, e) + Way.ToDeployer(p, u, op)
         == [M.Fetched(true, true, c, u, k)] + Rest(p, u, e, op)
    ensures NoneFetches(Rest(p, u, e, op))
  {
    assert NoneFetches(Way.BuildAnswer(p.build, u)) && NoneFetches(Way.DeployAnswer(p.deploy, u));
  }

  /** What happens to the event: the pipeline receives it and takes its steps. */
  function Receiving(p: M.Pipeline, u: Uuid, k: B.Stops, e: G.EvalResult, op: string): seq<Step> {
    [Receive(u, k)] + Acts(Rest(p, u, e, op))
  }

  /** Generation u of the commit c is what the deployer is to deploy next. */
  ghost predicate IsNextToDeploy(b: Agent, u: Uuid, c: Commit, what: D.Deployed) {
    && b.pipeline.deployer.pending == Some(D.Submission(u, what)) && b.pipeline.deployer.wake
    && u in b.history.origin && b.history.origin[u] == c
  }

  /** With or without keys, whatever the modes of the confirmers: from every start, a
      fetch that finds a commit the agent did not know, with an accepted signature if
      keys are configured, leads to a run that ends with the generation of this
      commit handed to the deployer and its runner woken. */
  lemma AcceptedIsDelivered(keys: bool, a: Agent, names: seq<F.Name>, failing: set<string>, w: R.World,
                            accepts: Laws.Oracle, c: Commit, u: Uuid, k: B.Stops, e: G.EvalResult, op: string)
    requires IsStart(a) && Finds(a, names, failing, w, c) && Trusts(keys, accepts, c)
    requires Way.IsReady(a.pipeline, u) && Way.IsWanted(a.pipeline, e, op)
    ensures exists b :: Runs(keys, a, Fetching(names, failing, w, accepts) + Receiving(a.pipeline, u, k, e, op), b)
                     && IsNextToDeploy(b, u, c, D.Deployed(e.outPath, op))
  {
    FetchIsPublished(keys, a, names, failing, w, accepts, c);
    var steps := Fetching(names, failing, w, accepts);
    var b :| Announces(keys, a, steps, b, c, Trusts(keys, accepts, c));
    AnnouncedIsDelivered(keys, a, steps, b, c, u, k, e, op);
  }

  lemma AnnouncedIsDelivered(keys: bool, a: Agent, steps: seq<Step>, b: Agent, c: Commit, u: Uuid, k: B.Stops,
                             e: G.EvalResult, op: string)
    requires IsStart(a) && Announces(keys, a, steps, b, c, true)
    requires Way.IsReady(a.pipeline, u) && Way.IsWanted(a.pipeline, e, op)
    ensures exists d :: Runs(keys, a, steps + Receiving(a.pipeline, u, k, e, op), d)
                     && IsNextToDeploy(d, u, c, D.Deployed(e.outPath, op))
  {
    var p := a.pipeline;
    Way.VerifiedIsDelivered(p, u, c, k, e, op);
    var q :| Way.Goes(p, Way.ToBuild(p, u, c, k, e) + Way.ToDeployer(p, u, op), q) && Way.IsHanded(p, q, u, e, op);
    RestIs(p, u, c, k, e, op);
    EventIsDelivered(keys, a, steps, b, u, c, k, Rest(p, u, e, op), q, D.Deployed(e.outPath, op));
    assert steps + [Receive(u, k)] + Acts(Rest(p, u, e, op)) == steps + Receiving(p, u, k, e, op);
  }

  lemma EventIsDelivered(keys: bool, a: Agent, steps: seq<Step>, b: Agent, u: Uuid, c: Commit, k: B.Stops,
                         rest: seq<M.Step>, q: M.Pipeline, what: D.Deployed)
    requires IsStart(a) && Announces(keys, a, steps, b, c, true) && u != "" && !G.Has(a.pipeline.x.s, u)
    requires Way.Goes(a.pipeline, [M.Fetched(true, true, c, u, k)] + rest, q) && NoneFetches(rest)
    requires q.deployer.pending == Some(D.Submission(u, what)) && q.deployer.wake
    ensures exists d :: Runs(keys, a, steps + [Receive(u, k)] + Acts(rest), d) && IsNextToDeploy(d, u, c, what)
  {
    var d := Lifts(keys, a, steps, b, u, k, rest, q);
    assert IsNextToDeploy(d, u, c, what);
  }

  /** An agent with one remote and no confirmers, which has not deployed anything. */
  function Example(): Agent {
    var main, testing := R.Branch("main", None, None, false), R.Branch("", None, None, false);
    var status := R.Status([R.Remote("origin", false, main, testing)], None, "", "", None, None, false, false);
    var builder := B.BuilderState(None, false, false, false, None, None, None, None);
    var gate := M.Gate(C.Start(C.Without), None);
    var pipeline := M.Pipeline(B.Both(builder, G.State([], None, None, None, None)), gate, gate,
                               D.Start(None, false), M.Idle, "");
    Agent(status, F.State([], None, F.Report(None, None, false, false)), None, [], pipeline, {},
          P.History(map[], {}, {}, []))
  }

  /** Its first fetch with keys configured, of a commit signed by one of them. */
  lemma SignedExample()
    ensures exists steps, b :: Runs(true, Example(), steps, b)
                            && IsNextToDeploy(b, "u", "c", D.Deployed("/nix/store/s", "switch"))
  {
    var a, w := Example(), R.World(map["c" := []], map[("origin", "main") := "c"]);
    ExampleFinds(a.status, w);
    var k := B.Stops(G.EvalResult(true, "", ""), false, true);
    var e := G.EvalResult(false, "/nix/store/s", "");
    AcceptedIsDelivered(true, a, ["origin"], {}, w, c => c == "c", "c", "u", k, e, "switch");
  }

  lemma ExampleFinds(st: R.Status, w: R.World)
    requires st == Example().status && w == R.World(map["c" := []], map[("origin", "main") := "c"])
    ensures Meaning.IsChoice(w, R.Fetched(F.Members(["origin"]), {}, st), "c")
  {
    var f := R.Fetched(F.Members(["origin"]), {}, st);
    assert f.remotes[0] == st.remotes[0];
    assert Meaning.IsOnTop(w, f.remotes[0], "main", None, "c");
    assert Meaning.IsChoiceFrom(w, f, "c", 0, 0, 1, Some("c"));
  }
}
