/** The fetcher: collects the remotes to fetch and publishes what fetches find. */
module Fetcher {
  import opened Common
  import opened CommitGraph
  import R = Repository
  import Laws = RepositoryLaws
  import Meaning = UpdateMeaning

  type Name = string

  /** What the fetcher reads of a repository status. */
  datatype Report = Report(selected: Option<Commit>, testing: Option<bool>, shouldBeSigned: bool, signed: bool)

  datatype Published = Published(report: Report, updated: bool, verified: bool)

  /** `fetching` holds the remotes of the running fetch. */
  datatype State = State(pending: seq<Name>, fetching: Option<seq<Name>>, stored: Report)

  datatype Event = Submitted(remotes: seq<Name>) | Reported(report: Report)

  // ------------------------------------------------------------ specification

  function Union(a: seq<Name>, b: seq<Name>): seq<Name> {
    if b == [] then a
    else
      var before := Union(a, b[..|b| - 1]);
      if b[|b| - 1] in before then before else before + [b[|b| - 1]]
  }

  predicate Flag(t: Option<bool>) {
    t == Some(true)
  }

  predicate IsUpdate(stored: Report, r: Report) {
    r.selected != stored.selected || (r.testing.Some? && r.testing.value != Flag(stored.testing))
  }

  predicate IsVerified(r: Report) {
    !r.shouldBeSigned || r.signed
  }

  function Received(s: State, e: Event): State {
    match e
    case Submitted(remotes) => s.(pending := Union(s.pending, remotes))
    case Reported(r) => s.(fetching := None, stored := if IsUpdate(s.stored, r) then r else s.stored)
  }

  /** A report can only come from a running fetch. */
  predicate Enabled(s: State, e: Event) {
    e.Reported? ==> s.fetching.Some?
  }

  predicate Starts(s: State, e: Event) {
    Received(s, e).fetching.None? && Received(s, e).pending != []
  }

  function Next(s: State, e: Event): State {
    var r := Received(s, e);
    if Starts(s, e) then r.(fetching := Some(r.pending), pending := []) else r
  }

  // -------------------------------------------------------------- the program

  method ComputeUnion(a: seq<Name>, b: seq<Name>) returns (r: seq<Name>)
    ensures r == Union(a, b)
  {
    r := a;
    for i := 0 to |b|
      invariant r == Union(a, b[..i])
    {
      assert b[..i + 1][..i] == b[..i];
      if b[i] !in r {
        r := r + [b[i]];
      }
    }
    assert b[..|b|] == b;
  }

  class GitFetcher {
    var pending: seq<Name>
    var isFetching: bool
    var worker: seq<Name>
    var stored: Report

    function Current(): State
      reads this
    {
      State(pending, if isFetching then Some(worker) else None, stored)
    }

    constructor (status: Report)
      ensures Current() == State([], None, status)
    {
      pending, isFetching, worker, stored := [], false, [], status;
    }

    /** One turn of the loop. */
    method Handle(e: Event) returns (p: Option<Published>)
      requires Enabled(Current(), e)
      modifies this
      ensures Current() == Next(old(Current()), e)
      ensures p == match e
        case Submitted(_) => None
        case Reported(r) => Some(Published(r, IsUpdate(old(stored), r), IsVerified(r)))
    {
      p := None;
      match e {
        case Submitted(remotes) =>
          pending := ComputeUnion(pending, remotes);
        case Reported(r) =>
          isFetching := false;
          var updated := r.selected != stored.selected || (r.testing.Some? && r.testing.value != Flag(stored.testing));
          if updated {
            stored := r;
          }
          p := Some(Published(r, updated, !r.shouldBeSigned || r.signed));
      }
      if !isFetching && |pending| != 0 {
        isFetching := true;
        worker := pending;
        pending := [];
      }
    }
  }

  // ------------------------------------------------------------------- runs

  ghost predicate IsRun(s0: State, es: seq<Event>) {
    forall i :: 0 <= i < |es| ==> Enabled(After(s0, es[..i]), es[i])
  }

  function After(s0: State, es: seq<Event>): State {
    if es == [] then s0 else Next(After(s0, es[..|es| - 1]), es[|es| - 1])
  }

  function Members(names: seq<Name>): set<Name> {
    set n | n in names
  }

  /** The names submitted since a fetch was last started. */
  function Waiting(s0: State, es: seq<Event>): set<Name> {
    if es == [] then {}
    else
      var front, e := es[..|es| - 1], es[|es| - 1];
      if Starts(After(s0, front), e) then {}
      else Waiting(s0, front) + Names(e)
  }

  function Names(e: Event): set<Name> {
    match e case Submitted(remotes) => Members(remotes) case Reported(_) => {}
  }

  /** The commit selected by the last report, or the one known at the start. */
  function LastReported(s0: State, es: seq<Event>): Option<Commit> {
    if es == [] then s0.stored.selected
    else match es[|es| - 1]
      case Reported(r) => r.selected
      case Submitted(_) => LastReported(s0, es[..|es| - 1])
  }

  /** Whether the commit known last came from a testing branch: what the last report
      to say so said, and no when a report named another commit without saying. */
  function LastFlag(s0: State, es: seq<Event>): bool {
    if es == [] then s0.stored.testing == Some(true)
    else
      var front := es[..|es| - 1];
      match es[|es| - 1]
      case Submitted(_) => LastFlag(s0, front)
      case Reported(r) =>
        if r.testing.Some? then r.testing.value
        else r.selected == LastReported(s0, front) && LastFlag(s0, front)
  }

  ghost predicate NoDuplicates(names: seq<Name>) {
    forall i, j :: 0 <= i < j < |names| ==> names[i] != names[j]
  }

  lemma {:induction false} UnionIs(a: seq<Name>, b: seq<Name>)
    ensures Members(Union(a, b)) == Members(a) + Members(b)
    ensures NoDuplicates(a) ==> NoDuplicates(Union(a, b))
  {
    if b != [] {
      var front, n := b[..|b| - 1], b[|b| - 1];
      assert b == front + [n];
      UnionIs(a, front);
      assert Members(b) == Members(front) + {n};
      var before := Union(a, front);
      assert Members(before + [n]) == Members(before) + {n};
    }
  }

  /** The first occurrences of x and y in b are in this order. */
  ghost predicate ComesBefore(b: seq<Name>, x: Name, y: Name) {
    exists i :: 0 <= i < |b| && b[i] == x && y !in b[..i + 1]
  }

  /** The union starts with the first list; the names it adds are in the order in
      which the second one first names them. */
  lemma {:induction false} UnionIsInOrder(a: seq<Name>, b: seq<Name>)
    ensures var u := Union(a, b);
      && |a| <= |u| && u[..|a|] == a
      && forall i, j :: |a| <= i < j < |u| ==> ComesBefore(b, u[i], u[j])
  {
    if b != [] {
      var front, n := b[..|b| - 1], b[|b| - 1];
      UnionIsInOrder(a, front);
      UnionIs(a, front);
      assert b == front + [n];
      var before, u := Union(a, front), Union(a, b);
      forall i, j | |a| <= i < j < |u| ensures ComesBefore(b, u[i], u[j]) {
        if j < |before| {
          StaysBefore(front, n, before[i], before[j]);
        } else {
          AddedComesFrom(a, front, i);
          assert n !in Members(front);
          NewComesLast(front, n, before[i]);
        }
      }
    }
  }

  lemma StaysBefore(b: seq<Name>, n: Name, x: Name, y: Name)
    requires ComesBefore(b, x, y)
    ensures ComesBefore(b + [n], x, y)
  {
    var k :| 0 <= k < |b| && b[k] == x && y !in b[..k + 1];
    assert (b + [n])[..k + 1] == b[..k + 1] && (b + [n])[k] == x;
  }

  lemma NewComesLast(b: seq<Name>, n: Name, x: Name)
    requires x in b && n !in b
    ensures ComesBefore(b + [n], x, n)
  {
    var k :| 0 <= k < |b| && b[k] == x;
    assert (b + [n])[..k + 1] == b[..k + 1] && (b + [n])[k] == x;
  }

  lemma {:induction false} AddedComesFrom(a: seq<Name>, b: seq<Name>, i: nat)
    requires |a| <= i < |Union(a, b)|
    ensures Union(a, b)[i] in b
  {
    if b != [] {
      var front := b[..|b| - 1];
      if i < |Union(a, front)| {
        AddedComesFrom(a, front, i);
      }
    }
  }

  ghost predicate Fresh(s: State) {
    s.pending == [] && s.fetching.None?
  }

  /** Over every run: names wait exactly from their submission to the next start
      of a fetch, none twice, and only while a fetch is running; the stored commit
      is that of the last report. */
  lemma {:induction false} NothingIsForgotten(s0: State, es: seq<Event>)
    requires Fresh(s0) && IsRun(s0, es)
    ensures var s := After(s0, es);
      && Members(s.pending) == Waiting(s0, es) && NoDuplicates(s.pending)
      && (s.pending != [] ==> s.fetching.Some?)
      && s.stored.selected == LastReported(s0, es)
  {
    if es != [] {
      var front, e := es[..|es| - 1], es[|es| - 1];
      assert forall i :: 0 <= i < |front| ==> front[..i] == es[..i];
      NothingIsForgotten(s0, front);
      if e.Submitted? {
        UnionIs(After(s0, front).pending, e.remotes);
      }
      assert Members([]) == {};
    }
  }

  /** How many fetches have reported. */
  function Reports(es: seq<Event>): nat {
    if es == [] then 0 else Reports(es[..|es| - 1]) + if es[|es| - 1].Reported? then 1 else 0
  }

  /** How many have begun. */
  function Begun(s0: State, es: seq<Event>): nat {
    if es == [] then 0
    else
      var front, e := es[..|es| - 1], es[|es| - 1];
      Begun(s0, front) + if Begins(After(s0, front), After(s0, es), e) then 1 else 0
  }

  /** A fetch is running that was not running before the event. */
  predicate Begins(s: State, t: State, e: Event) {
    t.fetching.Some? && (s.fetching.None? || e.Reported? || t.fetching != s.fetching)
  }

  /** Over every run at most one fetch is running: one is begun only after all that
      were begun before have reported, and none is left waiting to be begun. */
  lemma {:induction false} OneFetchAtATime(s0: State, es: seq<Event>)
    requires Fresh(s0) && IsRun(s0, es)
    ensures var s := After(s0, es);
      && Begun(s0, es) == Reports(es) + (if s.fetching.Some? then 1 else 0)
      && (s.fetching.None? ==> s.pending == [])
  {
    if es != [] {
      var front := es[..|es| - 1];
      assert forall i :: 0 <= i < |front| ==> front[..i] == es[..i];
      OneFetchAtATime(s0, front);
    }
  }

  /** A fetch that starts takes every name submitted since the start before. */
  lemma FetchTakesAllWaiting(s0: State, es: seq<Event>, e: Event)
    requires Fresh(s0) && IsRun(s0, es) && Enabled(After(s0, es), e) && Starts(After(s0, es), e)
    ensures Members(Next(After(s0, es), e).fetching.value) == Waiting(s0, es) + Names(e)
  {
    NothingIsForgotten(s0, es);
    if e.Submitted? {
      UnionIs(After(s0, es).pending, e.remotes);
    }
  }

  lemma {:induction false} StoredIsLastReported(s0: State, es: seq<Event>)
    ensures var stored := After(s0, es).stored;
      stored.selected == LastReported(s0, es) && (stored.testing == Some(true) <==> LastFlag(s0, es))
  {
    if es != [] {
      StoredIsLastReported(s0, es[..|es| - 1]);
    }
  }

  /** Over every run a report counts as an update exactly when it names another
      commit than the last report did, or the same one from the other kind of branch:
      a testing commit that is merged into main counts. */
  lemma UpdatedIff(s0: State, es: seq<Event>, r: Report)
    ensures IsUpdate(After(s0, es).stored, r) <==>
      r.selected != LastReported(s0, es) || (r.testing.Some? && r.testing.value != LastFlag(s0, es))
  {
    StoredIsLastReported(s0, es);
  }

  // ------------------------------------------------- what a report stands for

  function ReportOf(st: R.Status): Report {
    Report(st.selected, if st.selection.Some? then Some(st.selection.value.testing) else None,
           st.shouldBeSigned, st.signed)
  }

  /** With keys configured, a verified event names a commit that the signature
      check accepted. */
  lemma VerifiedNamesASignedCommit(w: R.World, accepts: Commit -> bool, st: R.Status)
    ensures var r := ReportOf(R.Updated(w, true, accepts, st));
      IsVerified(r) ==> r.selected.Some? && accepts(r.selected.value)
  {
    Laws.VerifiedIsSigned(w, true, accepts, st);
  }

  /** The report of an update is verified exactly when no keys are configured or the
      update had a choice whose signature is accepted. */
  lemma VerifiedIff(w: R.World, keys: bool, accepts: Commit -> bool, st: R.Status)
    ensures IsVerified(ReportOf(R.Updated(w, keys, accepts, st))) <==>
      !keys || exists c :: Meaning.IsChoice(w, st, c) && accepts(c)
  {
    Meaning.SignedIff(w, keys, accepts, st);
  }

  /** It names the choice of the update, and says whether the choice is a testing
      head or the main commit. */
  lemma ReportNamesTheChoice(w: R.World, keys: bool, accepts: Commit -> bool, st: R.Status, c: Commit,
                             i: nat, u: nat, t: nat, m: Option<Commit>)
    requires Meaning.IsChoiceFrom(w, st, c, i, u, t, m)
    ensures var r := ReportOf(R.Updated(w, keys, accepts, st));
      r.selected == Some(c) && r.testing == Some(t < |st.remotes|)
  {
    Meaning.ChoiceFromIsSelected(w, st, c, i, u, t, m);
    Meaning.FirstMainsAre(w, st.remotes, st.main, i, u);
    Meaning.FirstTestingIs(w, st.remotes, m, t);
  }
}
