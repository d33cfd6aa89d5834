/** The whole agent: repository, fetcher, event broker and deployment pipeline. */
module Agent {
  import opened Common
  import CommitGraph
  import Generations
  import F = Fetcher
  import R = Repository
  import Laws = RepositoryLaws
  import M = Manager
  import P = Provenance

  /** `found` is the status that a running fetch waits to hand over; `events` are
      published and not yet received by the manager. The last two fields record
      the history: the commits that a signature check accepted, and that of the
      pipeline. */
  datatype Agent = Agent(
    status: R.Status,
    fetcher: F.State,
    found: Option<F.Report>,
    events: seq<F.Published>,
    pipeline: M.Pipeline,
    approved: set<CommitGraph.Commit>,
    history: P.History)

  /** Triggers, the worker of the fetcher, its report, the broker that may lose an
      event to a full buffer, the manager that receives one, and every other step
      of the pipeline. The worker finds the refs in any state. */
  datatype Step =
    | Trigger(remotes: seq<F.Name>)
    | Work(failing: set<string>, world: R.World, accepts: Laws.Oracle)
    | Report
    | Lose(lost: nat)
    | Receive(uuid: Uuid, stops: M.B.Stops)
    | Act(step: M.Step)

  function CommitOf(r: F.Report): string {
    match r.selected case None => "" case Some(c) => c
  }

  function Received(e: F.Published, u: Uuid, k: M.B.Stops): M.Step {
    M.Fetched(e.updated, e.verified, CommitOf(e.report), u, k)
  }

  ghost predicate Enabled(a: Agent, s: Step) {
    match s
    case Trigger(_) => true
    case Work(_, _, _) => a.fetcher.fetching.Some? && a.found.None?
    case Report => a.fetcher.fetching.Some? && a.found.Some?
    case Lose(i) => i < |a.events|
    case Receive(u, k) => a.events != [] && CanAct(a, Received(a.events[0], u, k))
    case Act(m) => !m.Fetched? && CanAct(a, m)
  }

  ghost predicate CanAct(a: Agent, m: M.Step) {
    M.Enabled(a.pipeline, m) && P.Fresh(a.pipeline, a.history, m)
  }

  /** The pipeline takes a step. */
  ghost function Acted(a: Agent, m: M.Step): Agent
    requires CanAct(a, m)
  {
    a.(pipeline := M.Next(a.pipeline, m), history := P.Recorded(a.pipeline, a.history, m))
  }

  /** The status after the worker has fetched the remotes and updated. */
  ghost function Worked(keys: bool, a: Agent, failing: set<string>, w: R.World, accepts: Laws.Oracle): R.Status
    requires a.fetcher.fetching.Some?
  {
    R.Updated(w, keys, accepts, R.Fetched(F.Members(a.fetcher.fetching.value), failing, a.status))
  }

  /** The update selected a commit, reads as signed, and its check accepts it. */
  predicate Approved(st: R.Status, accepts: Laws.Oracle) {
    st.selected.Some? && st.signed && accepts(st.selected.value)
  }

  ghost function Next(keys: bool, a: Agent, s: Step): Agent
    requires Enabled(a, s)
  {
    match s
    case Trigger(remotes) => a.(fetcher := F.Next(a.fetcher, F.Submitted(remotes)))
    case Work(failing, w, accepts) =>
      var st := Worked(keys, a, failing, w, accepts);
      a.(status := st, found := Some(F.ReportOf(st)),
         approved := if Approved(st, accepts) then a.approved + {st.selected.value} else a.approved)
    case Report =>
      var r := a.found.value;
      a.(fetcher := F.Next(a.fetcher, F.Reported(r)), found := None,
         events := a.events + [F.Published(r, F.IsUpdate(a.fetcher.stored, r), F.IsVerified(r))])
    case Lose(i) => a.(events := a.events[..i] + a.events[i + 1..])
    case Receive(u, k) => Acted(a.(events := a.events[1..]), Received(a.events[0], u, k))
    case Act(m) => Acted(a, m)
  }

  // ---------------------------------------------------------------- invariant

  /** A report that counts as verified names an approved commit. */
  ghost predicate Trusted(r: F.Report, approved: set<CommitGraph.Commit>) {
    F.IsVerified(r) ==> r.selected.Some? && r.selected.value in approved
  }

  ghost predicate EventsTrusted(events: seq<F.Published>, approved: set<CommitGraph.Commit>) {
    forall i :: 0 <= i < |events| ==>
      events[i].verified == F.IsVerified(events[i].report) && Trusted(events[i].report, approved)
  }

  ghost predicate OriginsApproved(h: P.History, approved: set<CommitGraph.Commit>) {
    forall u :: u in h.origin ==> h.origin[u] in approved
  }

  ghost predicate Inv(a: Agent) {
    && P.Inv(a.pipeline, a.history)
    && (a.found.Some? ==> Trusted(a.found.value, a.approved))
    && EventsTrusted(a.events, a.approved)
    && OriginsApproved(a.history, a.approved)
  }

  /** A step of the pipeline creates generations for received events only. */
  lemma ActedKeeps(a: Agent, m: M.Step)
    requires Inv(a) && CanAct(a, m)
    requires m.Fetched? && m.updated && m.verified ==> m.commit in a.approved
    ensures Inv(Acted(a, m))
  {
    P.StepKeeps(a.pipeline, a.history, m);
  }

  lemma WorkKeeps(a: Agent, failing: set<string>, w: R.World, accepts: Laws.Oracle)
    requires Inv(a) && Enabled(a, Work(failing, w, accepts))
    ensures Inv(Next(true, a, Work(failing, w, accepts)))
  {
    F.VerifiedNamesASignedCommit(w, accepts, R.Fetched(F.Members(a.fetcher.fetching.value), failing, a.status));
  }

  lemma StepKeeps(a: Agent, s: Step)
    requires Inv(a) && Enabled(a, s)
    ensures Inv(Next(true, a, s))
  {
    match s {
      case Trigger(_) =>
      case Work(failing, w, accepts) => WorkKeeps(a, failing, w, accepts);
      case Report =>
      case Lose(_) =>
      case Receive(u, k) =>
        assert EventsTrusted(a.events[1..], a.approved);
        ActedKeeps(a.(events := a.events[1..]), Received(a.events[0], u, k));
      case Act(m) => ActedKeeps(a, m);
    }
  }

  // --------------------------------------------------------------------- runs

  ghost predicate IsStart(a: Agent) {
    && P.IsStart(a.pipeline) && a.history == P.History(map[], {}, {}, [])
    && F.Fresh(a.fetcher) && a.found.None? && a.events == [] && a.approved == {}
  }

  /** A run from a freshly loaded agent, with its components in any interleaving. */
  ghost predicate IsRun(keys: bool, agents: seq<Agent>, steps: seq<Step>) {
    && |agents| == |steps| + 1 && IsStart(agents[0])
    && forall i :: 0 <= i < |steps| ==> Enabled(agents[i], steps[i]) && agents[i + 1] == Next(keys, agents[i], steps[i])
  }

  lemma {:induction false} RunKeeps(agents: seq<Agent>, steps: seq<Step>, n: nat)
    requires IsRun(true, agents, steps) && n <= |steps|
    ensures Inv(agents[n])
  {
    if n > 0 {
      RunKeeps(agents, steps, n - 1);
      StepKeeps(agents[n - 1], steps[n - 1]);
    }
  }

  /** Before step n, an update selected the commit and marked it signed, after its
      signature check had accepted it. */
  ghost predicate ApprovedBefore(agents: seq<Agent>, steps: seq<Step>, n: nat, c: CommitGraph.Commit) {
    exists i :: 0 <= i < n && i < |steps| && i + 1 < |agents| && Approves(agents[i + 1].status, steps[i], c)
  }

  ghost predicate Approves(after: R.Status, s: Step, c: CommitGraph.Commit) {
    s.Work? && after.selected == Some(c) && after.signed && s.accepts(c)
  }

  /** The history says what happened. */
  lemma {:induction false} ApprovedIsTrue(keys: bool, agents: seq<Agent>, steps: seq<Step>, n: nat,
                                          c: CommitGraph.Commit)
    requires IsRun(keys, agents, steps) && n <= |steps| && c in agents[n].approved
    ensures ApprovedBefore(agents, steps, n, c)
  {
    if n > 0 {
      if c in agents[n - 1].approved {
        ApprovedIsTrue(keys, agents, steps, n - 1, c);
      } else {
        OnlyWorkApproves(keys, agents[n - 1], steps[n - 1], c);
      }
    }
  }

  lemma OnlyWorkApproves(keys: bool, a: Agent, s: Step, c: CommitGraph.Commit)
    requires Enabled(a, s) && c in Next(keys, a, s).approved && c !in a.approved
    ensures Approves(Next(keys, a, s).status, s, c)
  {
  }

  /** With keys configured, in every run and every interleaving, whatever the refs
      and however many events are lost: each generation that the loop hands to the
      deployer was made from a commit that an earlier update of the run selected and
      whose signature that update accepted. */
  lemma DeployedCommitsAreSigned(agents: seq<Agent>, steps: seq<Step>, n: nat)
    requires IsRun(true, agents, steps) && n < |steps| && steps[n].Act? && steps[n].step.DeployConfirmed?
    requires var p := agents[n].pipeline; p.deploy.out.Some? && Generations.Has(p.x.s, p.deploy.out.value)
    ensures var p := agents[n].pipeline; var g := Generations.Get(p.x.s, p.deploy.out.value);
      ApprovedBefore(agents, steps, n, g.commit)
  {
    RunKeeps(agents, steps, n);
    var p, h := agents[n].pipeline, agents[n].history;
    var u := p.deploy.out.value;
    assert u in h.readied && u in h.origin;
    ApprovedIsTrue(true, agents, steps, n, Generations.Get(p.x.s, u).commit);
  }

  /** The same of everything that was ever handed over. */
  lemma HandedCommitsAreSigned(agents: seq<Agent>, steps: seq<Step>, n: nat, i: nat)
    requires IsRun(true, agents, steps) && n <= |steps| && i < |agents[n].history.handed|
    ensures ApprovedBefore(agents, steps, n, agents[n].history.handed[i].commit)
  {
    RunKeeps(agents, steps, n);
    ApprovedIsTrue(true, agents, steps, n, agents[n].history.handed[i].commit);
  }
}
