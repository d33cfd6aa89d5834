/** Commit selection over whole runs of fetches and updates. */
module RepositoryLaws {
  import opened Common
  import opened CommitGraph
  import opened Repository

  type Oracle = Commit -> bool

  // ------------------------------------------------------------- one update

  /** A usable head is a commit of the repository on top of the main commit. */
  lemma NextMainIsAbove(w: World, st: Status)
    ensures st.main.Some? ==> NextMain(w, st).Some? && Reaches(w.graph, NextMain(w, st).value, st.main.value)
    ensures NextMain(w, st) != st.main ==> NextMain(w, st).Some? && NextMain(w, st).value in w.graph
  {
    if st.main.Some? {
      ReachesSelf(w.graph, st.main.value);
    }
  }

  /** The branch exists, was fetched without error, and its head c is known. */
  ghost predicate IsHead(w: World, r: Remote, branch: string, c: Commit) {
    !r.fetchError && (r.name, branch) in w.refs && w.refs[(r.name, branch)] == c && c in w.graph
  }

  ghost predicate MainIsAbove(w: World, r: Remote, m: Commit) {
    exists c :: IsHead(w, r, r.main.name, c) && StrictlyAbove(w.graph, c, m)
  }

  ghost predicate TestingIsAbove(w: World, r: Remote, m: Commit) {
    r.testing.name != "" && exists c :: IsHead(w, r, r.testing.name, c) && StrictlyAbove(w.graph, c, m)
  }

  /** The documented choice of the main commit: the first main head strictly on
      top of the last main commit m; if there is none, m stays, and the remote
      chosen is the first whose main head is m. */
  lemma MainIsChosenAsDocumented(w: World, st: Status, m: Commit, i: nat)
    requires st.main == Some(m) && i <= |st.remotes|
    requires i < |st.remotes| ==> MainIsAbove(w, st.remotes[i], m)
    requires forall k :: 0 <= k < i ==> !MainIsAbove(w, st.remotes[k], m)
    ensures i < |st.remotes| ==>
      NextMain(w, st).Some? && IsHead(w, st.remotes[i], st.remotes[i].main.name, NextMain(w, st).value)
    ensures i < |st.remotes| ==> ChosenRemote(w, st) == i
    ensures i == |st.remotes| ==> NextMain(w, st) == Some(m)
    ensures i == |st.remotes| ==> forall k :: 0 <= k < |st.remotes| && k <= ChosenRemote(w, st) ==>
      (k == ChosenRemote(w, st) <==> IsHead(w, st.remotes[k], st.remotes[k].main.name, m))
  {
    ReachesSelf(w.graph, m);
    forall r: Remote ensures MainIsAbove(w, r, m) <==> MovesMain(w, r, Some(m)) {
      MovesMeansAbove(w, r, m);
    }
    var f := FirstMoving(w, st.remotes, st.main);
    assert f == i;
    forall k | 0 <= k < |st.remotes| && !MovesMain(w, st.remotes[k], Some(m))
      ensures MainHead(w, st.remotes[k], Some(m)).Some? <==> IsHead(w, st.remotes[k], st.remotes[k].main.name, m)
    {
    }
  }

  lemma MovesMeansAbove(w: World, r: Remote, m: Commit)
    ensures MainIsAbove(w, r, m) <==> MovesMain(w, r, Some(m))
  {
    if MovesMain(w, r, Some(m)) {
      assert IsHead(w, r, r.main.name, MainHead(w, r, Some(m)).value);
    }
  }

  lemma OffersMeansAbove(w: World, r: Remote, m: Commit)
    ensures TestingIsAbove(w, r, m) <==> OffersTesting(w, r, Some(m))
  {
    if OffersTesting(w, r, Some(m)) {
      assert IsHead(w, r, r.testing.name, TestingHead(w, r, Some(m)).value);
    }
  }

  /** The documented choice of the commit: the first testing head strictly on top
      of the chosen main commit m; if there is none, the chosen main commit, when
      a remote has it or one above it. */
  lemma CommitIsChosenAsDocumented(w: World, st: Status, m: Commit, t: nat)
    requires NextMain(w, st) == Some(m) && t <= |st.remotes|
    requires t < |st.remotes| ==> TestingIsAbove(w, st.remotes[t], m)
    requires forall k :: 0 <= k < t ==> !TestingIsAbove(w, st.remotes[k], m)
    ensures t < |st.remotes| ==>
      Selects(w, st).Some? && IsHead(w, st.remotes[t], st.remotes[t].testing.name, Selects(w, st).value)
    ensures t < |st.remotes| ==>
      NextSelection(w, st) == Some(Selection(st.remotes[t].name, st.remotes[t].testing.name, true))
    ensures t == |st.remotes| ==> Selects(w, st) == if ChosenRemote(w, st) < |st.remotes| then Some(m) else None
  {
    forall r: Remote ensures TestingIsAbove(w, r, m) <==> OffersTesting(w, r, Some(m)) {
      OffersMeansAbove(w, r, m);
    }
    assert FirstTesting(w, st.remotes, Some(m)) == t;
  }

  /** The testing commit is strictly on top of the chosen main commit. */
  lemma SelectionIsAboveMain(w: World, st: Status)
    ensures Selects(w, st).Some? && NextMain(w, st).Some? ==>
      Reaches(w.graph, Selects(w, st).value, NextMain(w, st).value)
    ensures FirstTesting(w, st.remotes, NextMain(w, st)) < |st.remotes| && NextMain(w, st).Some? ==>
      Selects(w, st).Some? && StrictlyAbove(w.graph, Selects(w, st).value, NextMain(w, st).value)
  {
    if NextMain(w, st).Some? {
      ReachesSelf(w.graph, NextMain(w, st).value);
    }
  }

  /** Design promises testing commits only on top of a main commit. An update
      breaks this promise in exactly one situation: no main commit is known, no
      remote has a usable main head, and some remote has a testing head. */
  lemma TestingWithoutMainIff(w: World, st: Status)
    ensures Selects(w, st).Some? && NextMain(w, st).None? <==>
      && st.main.None?
      && (forall i :: 0 <= i < |st.remotes| ==> MainHead(w, st.remotes[i], None).None?)
      && exists i :: 0 <= i < |st.remotes| && TestingHead(w, st.remotes[i], None).Some?
  {
    var n := |st.remotes|;
    var m := FirstMoving(w, st.remotes, st.main);
    if NextMain(w, st).None? {
      assert m == n && st.main.None?;
      forall i | 0 <= i < n ensures MainHead(w, st.remotes[i], None).None? {
        assert !MovesMain(w, st.remotes[i], st.main);
      }
      var t := FirstTesting(w, st.remotes, None);
      assert t < n ==> OffersTesting(w, st.remotes[t], None);
      assert forall i :: 0 <= i < n && TestingHead(w, st.remotes[i], None).Some? ==>
        OffersTesting(w, st.remotes[i], None);
    } else if m < n && st.main.None? {
      assert MainHead(w, st.remotes[m], None).Some?;
    }
  }

  /** One remote whose main branch does not exist yet. */
  lemma TestingWithoutMainExample()
    ensures var w := World(map["c" := []], map[("origin", "testing") := "c"]);
      var r := Remote("origin", false, Branch("main", None, None, false), Branch("testing", None, None, false));
      var st := Status([r], None, "", "", None, None, false, false);
      Selects(w, st) == Some("c") && NextMain(w, st) == None
  {
    var w := World(map["c" := []], map[("origin", "testing") := "c"]);
    var r := Remote("origin", false, Branch("main", None, None, false), Branch("testing", None, None, false));
    var st := Status([r], None, "", "", None, None, false, false);
    assert "main" != "testing" by { assert |"main"| != |"testing"|; }
    assert ("origin", "main") !in w.refs;
    assert st.remotes[0] == r && TestingHead(w, r, None) == Some("c");
    assert OffersTesting(w, st.remotes[0], None);
  }

  /** With keys configured, a status that reads as verified names, as its
      selected commit, one that the signature check accepted. */
  lemma VerifiedIsSigned(w: World, keys: bool, accepts: Oracle, st: Status)
    ensures var st' := Updated(w, keys, accepts, st);
      keys && (!st'.shouldBeSigned || st'.signed) ==> st'.selected.Some? && accepts(st'.selected.value)
  {
  }

  // ------------------------------------------------------------------- runs

  /** What happens to a status: fetches with any outcome, and updates against
      any state of the refs. */
  datatype Step = Fetch(requested: set<string>, failing: set<string>) | Update(world: World, accepts: Oracle)

  ghost function Taken(keys: bool, st: Status, s: Step): Status {
    match s
    case Fetch(requested, failing) => Fetched(requested, failing, st)
    case Update(w, accepts) => Updated(w, keys, accepts, st)
  }

  ghost function Final(keys: bool, st: Status, steps: seq<Step>): Status {
    if steps == [] then st else Taken(keys, Final(keys, st, steps[..|steps| - 1]), steps[|steps| - 1])
  }

  /** Every update saw a part of the commits known at the end. */
  ghost predicate Within(steps: seq<Step>, g: Graph) {
    forall i :: 0 <= i < |steps| && steps[i].Update? ==> Extends(steps[i].world.graph, g)
  }

  ghost predicate SelectedAboveMain(g: Graph, st: Status) {
    st.main.Some? && st.selected.Some? ==> Reaches(g, st.selected.value, st.main.value)
  }

  lemma TakenKeepsOrder(keys: bool, st: Status, s: Step, g: Graph)
    requires s.Update? ==> Extends(s.world.graph, g)
    ensures st.main.Some? ==> Taken(keys, st, s).main.Some? && Reaches(g, Taken(keys, st, s).main.value, st.main.value)
    ensures SelectedAboveMain(g, st) ==> SelectedAboveMain(g, Taken(keys, st, s))
  {
    var st' := Taken(keys, st, s);
    if st.main.Some? {
      ReachesSelf(g, st.main.value);
    }
    if s.Update? {
      NextMainIsAbove(s.world, st);
      SelectionIsAboveMain(s.world, st);
      if st.main.Some? {
        ReachesExtends(s.world.graph, g, st'.main.value, st.main.value);
      }
      if Selects(s.world, st).Some? && st'.main.Some? {
        ReachesExtends(s.world.graph, g, st'.selected.value, st'.main.value);
      } else {
        NothingSelectedNothingMoved(s.world, st);
      }
    }
  }

  lemma NothingSelectedNothingMoved(w: World, st: Status)
    ensures Selects(w, st).None? ==> NextMain(w, st) == st.main
  {
  }

  /** Over every run of fetches and updates, with refs changing at will, a main
      commit is only ever replaced by one on top of it, and the selected commit
      stays at the main commit or above. */
  lemma {:induction false} MainOnlyAdvances(keys: bool, st: Status, steps: seq<Step>, g: Graph)
    requires Within(steps, g)
    ensures var end := Final(keys, st, steps);
      && (st.main.Some? ==> end.main.Some? && Reaches(g, end.main.value, st.main.value))
      && (SelectedAboveMain(g, st) ==> SelectedAboveMain(g, end))
  {
    if steps == [] {
      if st.main.Some? {
        ReachesSelf(g, st.main.value);
      }
    } else {
      var front := steps[..|steps| - 1];
      MainOnlyAdvances(keys, st, front, g);
      var mid := Final(keys, st, front);
      TakenKeepsOrder(keys, mid, steps[|steps| - 1], g);
      if st.main.Some? {
        ReachesTransitive(g, Final(keys, st, steps).main.value, mid.main.value, st.main.value);
      }
    }
  }

  // ---------------------------------------------------------------- fixpoint

  /** The remotes with a usable main head strictly above the main commit. */
  ghost function Above(w: World, remotes: seq<Remote>, main: Option<Commit>): set<int> {
    set i | 0 <= i < |remotes| && MovesMain(w, remotes[i], main)
  }

  /** In an acyclic history, a head strictly above the new main commit was
      strictly above the old one. */
  lemma AboveShrinks(w: World, remotes: seq<Remote>, main: Option<Commit>)
    requires Acyclic(w.graph) && MovedMain(w, remotes, main) != main
    ensures Above(w, remotes, MovedMain(w, remotes, main)) < Above(w, remotes, main)
  {
    var main' := MovedMain(w, remotes, main);
    var m := FirstMoving(w, remotes, main);
    assert m in Above(w, remotes, main) && m !in Above(w, remotes, main');
    forall i | i in Above(w, remotes, main') ensures i in Above(w, remotes, main) {
      var h := MainHead(w, remotes[i], main').value;
      assert h != main'.value && Reaches(w.graph, h, main'.value);
      if main.Some? {
        ReachesTransitive(w.graph, h, main'.value, main.value);
      }
      assert MovesMain(w, remotes[i], main);
    }
  }

  lemma NoneAboveNoMove(w: World, remotes: seq<Remote>, main: Option<Commit>)
    ensures Above(w, remotes, main) == {} <==> MovedMain(w, remotes, main) == main
  {
    var m := FirstMoving(w, remotes, main);
    if m < |remotes| {
      assert m in Above(w, remotes, main);
    }
  }

  lemma SmallerSet(s: set<int>, t: set<int>)
    requires s < t
    ensures |s| < |t|
  {
    assert t == s + (t - s) && t - s != {};
    assert |t| == |s| + |t - s|;
  }

  /** The main commit after n updates. */
  ghost function MainAfter(w: World, remotes: seq<Remote>, main: Option<Commit>, n: nat): Option<Commit>
    decreases n
  {
    if n == 0 then main else MainAfter(w, remotes, MovedMain(w, remotes, main), n - 1)
  }

  /** How often n updates move it. */
  ghost function Moves(w: World, remotes: seq<Remote>, main: Option<Commit>, n: nat): nat
    decreases n
  {
    if n == 0 then 0
    else
      var next := MovedMain(w, remotes, main);
      (if next != main then 1 else 0) + Moves(w, remotes, next, n - 1)
  }

  lemma MoveUsesUpARemote(w: World, remotes: seq<Remote>, main: Option<Commit>)
    requires Acyclic(w.graph)
    ensures var main' := MovedMain(w, remotes, main);
      && (main' != main ==> |Above(w, remotes, main')| < |Above(w, remotes, main)|)
      && (main' == main ==> Above(w, remotes, main) == {})
  {
    NoneAboveNoMove(w, remotes, main);
    if MovedMain(w, remotes, main) != main {
      AboveShrinks(w, remotes, main);
      SmallerSet(Above(w, remotes, MovedMain(w, remotes, main)), Above(w, remotes, main));
    }
  }

  /** Each move of the main commit uses up a remote. */
  lemma {:induction false} MovesAreBounded(w: World, remotes: seq<Remote>, main: Option<Commit>, n: nat)
    requires Acyclic(w.graph)
    ensures Moves(w, remotes, main, n) + |Above(w, remotes, MainAfter(w, remotes, main, n))|
      <= |Above(w, remotes, main)|
    ensures Above(w, remotes, MainAfter(w, remotes, main, n)) == {} || Moves(w, remotes, main, n) == n
    decreases n
  {
    if n > 0 {
      MovesAreBounded(w, remotes, MovedMain(w, remotes, main), n - 1);
      MoveUsesUpARemote(w, remotes, main);
    }
  }

  lemma {:induction false} BoundedIndices(s: set<int>, n: nat)
    requires forall i :: i in s ==> 0 <= i < n
    ensures |s| <= n
  {
    if n > 0 {
      BoundedIndices(s - {n - 1}, n - 1);
    } else {
      assert forall i :: i !in s;
    }
  }

  ghost function Iterated(w: World, keys: bool, accepts: Oracle, st: Status, n: nat): Status
    decreases n
  {
    if n == 0 then st else Iterated(w, keys, accepts, Updated(w, keys, accepts, st), n - 1)
  }

  /** The two lists configure the same branches, with the same fetch errors. */
  ghost predicate SameBranches(rs: seq<Remote>, rs': seq<Remote>) {
    && |rs| == |rs'|
    && forall i :: 0 <= i < |rs| ==>
         && rs[i].name == rs'[i].name && rs[i].fetchError == rs'[i].fetchError
         && rs[i].main.name == rs'[i].main.name && rs[i].testing.name == rs'[i].testing.name
  }

  lemma UpdateKeepsBranches(w: World, keys: bool, accepts: Oracle, st: Status)
    ensures SameBranches(st.remotes, Updated(w, keys, accepts, st).remotes)
  {
    forall i | 0 <= i < |st.remotes|
      ensures var r, o := st.remotes[i], Updated(w, keys, accepts, st).remotes[i];
        r.name == o.name && r.fetchError == o.fetchError && r.main.name == o.main.name
          && r.testing.name == o.testing.name
    {
      assert Updated(w, keys, accepts, st).remotes[i] == LookedAt(w, st, i);
    }
  }

  lemma SameBranchesSameFirsts(w: World, rs: seq<Remote>, rs': seq<Remote>, main: Option<Commit>)
    requires SameBranches(rs, rs')
    ensures FirstMoving(w, rs, main) == FirstMoving(w, rs', main)
    ensures FirstUsable(w, rs, main) == FirstUsable(w, rs', main)
    ensures FirstTesting(w, rs, main) == FirstTesting(w, rs', main)
  {
    forall i | 0 <= i < |rs|
      ensures MainHead(w, rs[i], main) == MainHead(w, rs'[i], main)
      ensures TestingHead(w, rs[i], main) == TestingHead(w, rs'[i], main)
    {
      assert rs[i].name == rs'[i].name;
    }
    SameFirstMain(w, rs, rs', main);
    SameFirstTesting(w, rs, rs', main);
  }

  lemma {:induction false} SameFirstMain(w: World, rs: seq<Remote>, rs': seq<Remote>, main: Option<Commit>)
    requires |rs| == |rs'|
    requires forall i :: 0 <= i < |rs| ==> MainHead(w, rs[i], main) == MainHead(w, rs'[i], main)
    ensures FirstMoving(w, rs, main) == FirstMoving(w, rs', main)
    ensures FirstUsable(w, rs, main) == FirstUsable(w, rs', main)
  {
    if rs != [] {
      assert MainHead(w, rs[0], main) == MainHead(w, rs'[0], main);
      SameFirstMain(w, rs[1..], rs'[1..], main);
    }
  }

  lemma {:induction false} SameFirstTesting(w: World, rs: seq<Remote>, rs': seq<Remote>, main: Option<Commit>)
    requires |rs| == |rs'|
    requires forall i :: 0 <= i < |rs| ==> TestingHead(w, rs[i], main) == TestingHead(w, rs'[i], main)
    ensures FirstTesting(w, rs, main) == FirstTesting(w, rs', main)
  {
    if rs != [] {
      assert TestingHead(w, rs[0], main) == TestingHead(w, rs'[0], main);
      SameFirstTesting(w, rs[1..], rs'[1..], main);
    }
  }

  /** Repeated updates move the main commit as if only it changed. */
  lemma {:induction false} IteratedMain(w: World, keys: bool, accepts: Oracle, remotes: seq<Remote>, st: Status, n: nat)
    requires SameBranches(remotes, st.remotes)
    ensures var it := Iterated(w, keys, accepts, st, n);
      SameBranches(remotes, it.remotes) && it.main == MainAfter(w, remotes, st.main, n)
    decreases n
  {
    if n > 0 {
      UpdateMovesMain(w, keys, accepts, remotes, st);
      IteratedMain(w, keys, accepts, remotes, Updated(w, keys, accepts, st), n - 1);
    }
  }

  lemma UpdateMovesMain(w: World, keys: bool, accepts: Oracle, remotes: seq<Remote>, st: Status)
    requires SameBranches(remotes, st.remotes)
    ensures var st' := Updated(w, keys, accepts, st);
      SameBranches(remotes, st'.remotes) && st'.main == MovedMain(w, remotes, st.main)
  {
    UpdateKeepsBranches(w, keys, accepts, st);
    SameMovedMain(w, remotes, st.remotes, st.main);
  }

  lemma SameMovedMain(w: World, rs: seq<Remote>, rs': seq<Remote>, main: Option<Commit>)
    requires SameBranches(rs, rs')
    ensures MovedMain(w, rs, main) == MovedMain(w, rs', main)
  {
    SameBranchesSameFirsts(w, rs, rs', main);
    var i := FirstMoving(w, rs, main);
    assert i < |rs| ==> rs[i].name == rs'[i].name;
  }

  lemma SameAbove(w: World, rs: seq<Remote>, rs': seq<Remote>, main: Option<Commit>)
    requires SameBranches(rs, rs')
    ensures Above(w, rs, main) == Above(w, rs', main)
  {
    forall i | 0 <= i < |rs| ensures MovesMain(w, rs[i], main) == MovesMain(w, rs'[i], main) {
      assert rs[i].name == rs'[i].name;
    }
  }

  /** With refs and fetch errors frozen, repeated updates move the main commit at
      most once per remote, and from the update numbered by the remotes on they
      leave it where no usable main head lies strictly above it. */
  lemma UpdatesConverge(w: World, keys: bool, accepts: Oracle, st: Status, n: nat)
    requires Acyclic(w.graph)
    ensures Iterated(w, keys, accepts, st, n).main == MainAfter(w, st.remotes, st.main, n)
    ensures Moves(w, st.remotes, st.main, n) <= |st.remotes|
    ensures n >= |st.remotes| ==>
      var it := Iterated(w, keys, accepts, st, n);
      IsSettled(w, it) && NextMain(w, it) == it.main
  {
    IteratedMain(w, keys, accepts, st.remotes, st, n);
    MovesAreBounded(w, st.remotes, st.main, n);
    BoundedIndices(Above(w, st.remotes, st.main), |st.remotes|);
    if n >= |st.remotes| {
      var it := Iterated(w, keys, accepts, st, n);
      SettlesAfter(w, keys, accepts, st, n);
      NoneAboveNoMove(w, it.remotes, it.main);
    }
  }

  /** Once the main commit is settled, one update settles the whole status: another
      update selects the same commit from the same branch and changes nothing, the
      records of the branches included. */
  lemma SettledSelection(w: World, keys: bool, accepts: Oracle, st: Status)
    requires Above(w, st.remotes, st.main) == {}
    ensures var once := Updated(w, keys, accepts, st); var twice := Updated(w, keys, accepts, once);
      twice == once && once.main == st.main && Selects(w, once) == Selects(w, st)
  {
    var once := Updated(w, keys, accepts, st);
    NoneAboveNoMove(w, st.remotes, st.main);
    UpdateKeepsBranches(w, keys, accepts, st);
    SameAbove(w, st.remotes, once.remotes, st.main);
    NoneAboveNoMove(w, once.remotes, once.main);
    SameBranchesSameFirsts(w, st.remotes, once.remotes, st.main);
    SameSelection(w, st, once);
    forall i | 0 <= i < |st.remotes| ensures LookedAt(w, once, i) == once.remotes[i] {
      LookingTwice(w, st, once, i);
    }
    assert AllLookedAt(w, once) == once.remotes;
  }

  /** So repeated updates come to rest: with refs and fetch errors frozen, one
      update more than there are remotes reaches a status that no update changes. */
  lemma {:induction false} StatusConverges(w: World, keys: bool, accepts: Oracle, st: Status, n: nat)
    requires Acyclic(w.graph) && n > |st.remotes|
    ensures RestsAt(w, keys, accepts, st, n)
  {
    SettlesAfter(w, keys, accepts, st, n - 1);
    RestsAfterSettling(w, keys, accepts, st, n);
  }

  lemma {:induction false} SettlesAfter(w: World, keys: bool, accepts: Oracle, st: Status, n: nat)
    requires Acyclic(w.graph) && n >= |st.remotes|
    ensures SettledAt(w, keys, accepts, st, n)
  {
    IteratedMain(w, keys, accepts, st.remotes, st, n);
    MovesAreBounded(w, st.remotes, st.main, n);
    BoundedIndices(Above(w, st.remotes, st.main), |st.remotes|);
    var it := Iterated(w, keys, accepts, st, n);
    SameAbove(w, st.remotes, it.remotes, it.main);
  }

  /** After n updates, another one changes nothing. */
  ghost predicate RestsAt(w: World, keys: bool, accepts: Oracle, st: Status, n: nat) {
    var it := Iterated(w, keys, accepts, st, n);
    Updated(w, keys, accepts, it) == it
  }

  ghost predicate SettledAt(w: World, keys: bool, accepts: Oracle, st: Status, n: nat) {
    IsSettled(w, Iterated(w, keys, accepts, st, n))
  }

  /** No usable main head is strictly above the main commit. */
  ghost predicate IsSettled(w: World, st: Status) {
    Above(w, st.remotes, st.main) == {}
  }

  lemma {:induction false} RestsAfterSettling(w: World, keys: bool, accepts: Oracle, st: Status, n: nat)
    requires n > 0 && SettledAt(w, keys, accepts, st, n - 1)
    ensures RestsAt(w, keys, accepts, st, n)
    decreases n
  {
    var next := Updated(w, keys, accepts, st);
    if n == 1 {
      SettledSelection(w, keys, accepts, st);
      assert Iterated(w, keys, accepts, st, 1) == Iterated(w, keys, accepts, next, 0);
    } else {
      RestsAfterSettling(w, keys, accepts, next, n - 1);
    }
  }

  /** A second look records what the first one did. */
  lemma LookingTwice(w: World, st: Status, once: Status, i: nat)
    requires |once.remotes| == |st.remotes| && i < |st.remotes| && once.remotes[i] == LookedAt(w, st, i)
    requires once.main == st.main == NextMain(w, st) == NextMain(w, once)
    requires FirstMoving(w, st.remotes, st.main) == FirstMoving(w, once.remotes, st.main)
    requires FirstTesting(w, st.remotes, st.main) == FirstTesting(w, once.remotes, st.main)
    ensures LookedAt(w, once, i) == once.remotes[i]
  {
    var r, o := st.remotes[i], once.remotes[i];
    assert MainHead(w, o, st.main) == MainHead(w, r, st.main)
      && TestingHead(w, o, st.main) == TestingHead(w, r, st.main);
  }

  lemma SameSelection(w: World, st: Status, st': Status)
    requires SameBranches(st.remotes, st'.remotes) && st'.main == st.main
    requires NextMain(w, st) == st.main == NextMain(w, st')
    requires st'.selection == NextSelection(w, st)
    requires FirstMoving(w, st.remotes, st.main) == FirstMoving(w, st'.remotes, st.main)
    requires FirstUsable(w, st.remotes, st.main) == FirstUsable(w, st'.remotes, st.main)
    requires FirstTesting(w, st.remotes, st.main) == FirstTesting(w, st'.remotes, st.main)
    ensures Selects(w, st') == Selects(w, st) && NextSelection(w, st') == NextSelection(w, st)
  {
    var t := FirstTesting(w, st.remotes, st.main);
    assert t < |st.remotes| ==> st.remotes[t].name == st'.remotes[t].name;
    var c := ChosenRemote(w, st);
    assert c < |st.remotes| ==> st.remotes[c].name == st'.remotes[c].name;
  }
}
