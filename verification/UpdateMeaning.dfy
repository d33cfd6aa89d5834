/** What fetches and updates leave in a status, field by field, in terms of the
    refs and of reachability in the commit graph. */
module UpdateMeaning {
  import opened Common
  import opened CommitGraph
  import opened Repository
  import opened RepositoryLaws

  // ------------------------------------------------------------ what is there

  /** The head c of the branch is known, and is the commit main or on top of it. */
  ghost predicate IsOnTop(w: World, r: Remote, branch: string, main: Option<Commit>, c: Commit) {
    IsHead(w, r, branch, c) && (main.Some? ==> Reaches(w.graph, c, main.value))
  }

  ghost predicate HasMain(w: World, r: Remote, main: Option<Commit>) {
    exists c :: IsOnTop(w, r, r.main.name, main, c)
  }

  ghost predicate HasNewMain(w: World, r: Remote, main: Option<Commit>) {
    exists c :: IsOnTop(w, r, r.main.name, main, c) && main != Some(c)
  }

  ghost predicate HasNewTesting(w: World, r: Remote, main: Option<Commit>) {
    r.testing.name != "" && exists c :: IsOnTop(w, r, r.testing.name, main, c) && main != Some(c)
  }

  /** i is the first remote whose main head is strictly on top of main, u the first
      whose main head is on top of it: the number of remotes when there is none. */
  ghost predicate AreFirstMains(w: World, rs: seq<Remote>, main: Option<Commit>, i: nat, u: nat) {
    && i <= |rs| && (i < |rs| ==> HasNewMain(w, rs[i], main))
    && (forall k :: 0 <= k < i ==> !HasNewMain(w, rs[k], main))
    && u <= |rs| && (u < |rs| ==> HasMain(w, rs[u], main))
    && (forall k :: 0 <= k < u ==> !HasMain(w, rs[k], main))
  }

  ghost predicate IsFirstTesting(w: World, rs: seq<Remote>, main: Option<Commit>, t: nat) {
    && t <= |rs| && (t < |rs| ==> HasNewTesting(w, rs[t], main))
    && forall k :: 0 <= k < t ==> !HasNewTesting(w, rs[k], main)
  }

  lemma HeadIsOnTop(w: World, r: Remote, main: Option<Commit>)
    ensures forall c :: MainHead(w, r, main) == Some(c) <==> IsOnTop(w, r, r.main.name, main, c)
    ensures r.testing.name != "" ==>
      forall c :: TestingHead(w, r, main) == Some(c) <==> IsOnTop(w, r, r.testing.name, main, c)
  {
  }

  lemma HeadsMean(w: World, r: Remote, main: Option<Commit>)
    ensures MainHead(w, r, main).Some? <==> HasMain(w, r, main)
    ensures MovesMain(w, r, main) <==> HasNewMain(w, r, main)
    ensures OffersTesting(w, r, main) <==> HasNewTesting(w, r, main)
  {
    HeadIsOnTop(w, r, main);
    if MainHead(w, r, main).Some? {
      assert IsOnTop(w, r, r.main.name, main, MainHead(w, r, main).value);
    }
    if TestingHead(w, r, main).Some? {
      assert IsOnTop(w, r, r.testing.name, main, TestingHead(w, r, main).value);
    }
  }

  lemma FirstMainsAre(w: World, rs: seq<Remote>, main: Option<Commit>, i: nat, u: nat)
    requires AreFirstMains(w, rs, main, i, u)
    ensures FirstMoving(w, rs, main) == i && FirstUsable(w, rs, main) == u
  {
    forall k | 0 <= k < |rs|
      ensures MainHead(w, rs[k], main).Some? <==> HasMain(w, rs[k], main)
      ensures MovesMain(w, rs[k], main) <==> HasNewMain(w, rs[k], main)
    {
      HeadsMean(w, rs[k], main);
    }
  }

  lemma FirstTestingIs(w: World, rs: seq<Remote>, main: Option<Commit>, t: nat)
    requires IsFirstTesting(w, rs, main, t)
    ensures FirstTesting(w, rs, main) == t
  {
    forall k | 0 <= k < |rs| ensures OffersTesting(w, rs[k], main) <==> HasNewTesting(w, rs[k], main) {
      HeadsMean(w, rs[k], main);
    }
  }

  // -------------------------------------------------------------- one update

  /** An update moves the main commit to the first main head strictly on top of it,
      and remembers where it came from; without such a head nothing moves. */
  lemma MainAfterUpdate(w: World, keys: bool, accepts: Oracle, st: Status, i: nat, u: nat)
    requires AreFirstMains(w, st.remotes, st.main, i, u)
    ensures var st' := Updated(w, keys, accepts, st);
      if i < |st.remotes| then
        && st'.main.Some? && st'.main != st.main
        && IsOnTop(w, st.remotes[i], st.remotes[i].main.name, st.main, st'.main.value)
        && st'.mainRemote == st.remotes[i].name && st'.mainBranch == st.remotes[i].main.name
      else st'.main == st.main && st'.mainRemote == st.mainRemote && st'.mainBranch == st.mainBranch
  {
    FirstMainsAre(w, st.remotes, st.main, i, u);
    if i < |st.remotes| {
      HeadIsOnTop(w, st.remotes[i], st.main);
    }
  }

  /** It selects the first testing head strictly on top of the main commit it left;
      failing that, that main commit, from the remote that moved it or else from the
      first remote that has it; failing that, nothing: the selection stays. */
  lemma SelectionAfterUpdate(w: World, keys: bool, accepts: Oracle, st: Status, i: nat, u: nat, t: nat)
    requires AreFirstMains(w, st.remotes, st.main, i, u)
    requires IsFirstTesting(w, st.remotes, Updated(w, keys, accepts, st).main, t)
    ensures var st', n := Updated(w, keys, accepts, st), |st.remotes|;
      if t < n then
        && st'.selected.Some? && st'.selected != st'.main
        && IsOnTop(w, st.remotes[t], st.remotes[t].testing.name, st'.main, st'.selected.value)
        && st'.selection == Some(Selection(st.remotes[t].name, st.remotes[t].testing.name, true))
      else if i < n || u < n then
        var m := if i < n then i else u;
        && st'.selected == st'.main
        && st'.selection == Some(Selection(st.remotes[m].name, st.remotes[m].main.name, false))
      else st'.selected == st.selected && st'.selection == st.selection
  {
    var st' := Updated(w, keys, accepts, st);
    FirstMainsAre(w, st.remotes, st.main, i, u);
    FirstTestingIs(w, st.remotes, st'.main, t);
    if t < |st.remotes| {
      HeadIsOnTop(w, st.remotes[t], st'.main);
    }
    if u < |st.remotes| && i == |st.remotes| {
      assert HasMain(w, st.remotes[u], st.main) && !HasNewMain(w, st.remotes[u], st.main);
    }
  }

  /** With keys configured the status reads signed exactly when this update chose a
      commit and that commit is accepted; without keys it asks for no signature. */
  lemma SignedAfterUpdate(w: World, keys: bool, accepts: Oracle, st: Status, i: nat, u: nat, t: nat)
    requires AreFirstMains(w, st.remotes, st.main, i, u)
    requires IsFirstTesting(w, st.remotes, Updated(w, keys, accepts, st).main, t)
    ensures var st', n := Updated(w, keys, accepts, st), |st.remotes|;
      && st'.shouldBeSigned == keys
      && (t < n || i < n || u < n ==> st'.selected.Some?)
      && (keys ==> (st'.signed <==> (t < n || i < n || u < n) && accepts(st'.selected.value)))
      && (!keys ==> st'.signed == st.signed)
  {
    var st' := Updated(w, keys, accepts, st);
    FirstMainsAre(w, st.remotes, st.main, i, u);
    FirstTestingIs(w, st.remotes, st'.main, t);
    if u < |st.remotes| && i == |st.remotes| {
      assert HasMain(w, st.remotes[u], st.main) && !HasNewMain(w, st.remotes[u], st.main);
    }
  }

  /** What a look at a branch leaves in its record. */
  ghost predicate IsRecord(w: World, r: Remote, b: Branch, main: Option<Commit>, b': Branch) {
    if exists c :: IsOnTop(w, r, b.name, main, c) then
      && b'.name == b.name && b'.commit.Some? && IsOnTop(w, r, b.name, main, b'.commit.value)
      && b'.onTopOf == main && !b'.error
    else b' == Branch(b.name, b.commit, b.onTopOf, true)
  }

  /** An update looks at the main branches up to the one that moves the main commit
      and at the testing branches up to the one it selects, except those of remotes
      whose fetch failed, and records each look; the rest stays. */
  lemma RecordsAfterUpdate(w: World, keys: bool, accepts: Oracle, st: Status, i: nat, u: nat, t: nat, k: nat)
    requires AreFirstMains(w, st.remotes, st.main, i, u)
    requires IsFirstTesting(w, st.remotes, Updated(w, keys, accepts, st).main, t) && k < |st.remotes|
    ensures var st', r := Updated(w, keys, accepts, st), st.remotes[k];
      && |st'.remotes| == |st.remotes|
      && st'.remotes[k].name == r.name && st'.remotes[k].fetchError == r.fetchError
      && (if !r.fetchError && k <= i then IsRecord(w, r, r.main, st.main, st'.remotes[k].main)
          else st'.remotes[k].main == r.main)
      && (if !r.fetchError && r.testing.name != "" && k <= t
          then IsRecord(w, r, r.testing, st'.main, st'.remotes[k].testing)
          else st'.remotes[k].testing == r.testing)
  {
    var st', r := Updated(w, keys, accepts, st), st.remotes[k];
    FirstMainsAre(w, st.remotes, st.main, i, u);
    FirstTestingIs(w, st.remotes, st'.main, t);
    assert st'.remotes[k] == LookedAt(w, st, k);
    LookIsRecord(w, r, st.main);
    LookIsRecord(w, r, st'.main);
  }

  lemma LookIsRecord(w: World, r: Remote, main: Option<Commit>)
    ensures !r.fetchError ==> IsRecord(w, r, r.main, main, Looked(r.main, MainHead(w, r, main), main))
    ensures !r.fetchError && r.testing.name != "" ==>
      IsRecord(w, r, r.testing, main, Looked(r.testing, TestingHead(w, r, main), main))
  {
    HeadIsOnTop(w, r, main);
  }

  // --------------------------------------------------------------- one fetch

  /** A fetch marks the first remote of each requested name by whether it failed,
      and changes nothing else. */
  lemma AfterFetch(requested: set<string>, failing: set<string>, st: Status, k: nat)
    requires k < |st.remotes|
    ensures var st', r := Fetched(requested, failing, st), st.remotes[k];
      && |st'.remotes| == |st.remotes| && st' == st.(remotes := st'.remotes)
      && st'.remotes[k] == r.(fetchError := st'.remotes[k].fetchError)
      && (if r.name in requested && forall j :: 0 <= j < k ==> st.remotes[j].name != r.name
          then st'.remotes[k].fetchError == (r.name in failing)
          else st'.remotes[k].fetchError == r.fetchError)
  {
  }

  // --------------------------------------------------------------- the choice

  /** m is the main commit that the remote i leads to. */
  ghost predicate IsNewMain(w: World, st: Status, i: nat, m: Option<Commit>) {
    if i < |st.remotes| then
      m.Some? && m != st.main && IsOnTop(w, st.remotes[i], st.remotes[i].main.name, st.main, m.value)
    else m == st.main
  }

  ghost predicate IsChoiceFrom(w: World, st: Status, c: Commit, i: nat, u: nat, t: nat, m: Option<Commit>) {
    && AreFirstMains(w, st.remotes, st.main, i, u) && IsNewMain(w, st, i, m) && IsFirstTesting(w, st.remotes, m, t)
    && if t < |st.remotes| then
         m != Some(c) && IsOnTop(w, st.remotes[t], st.remotes[t].testing.name, m, c)
       else (i < |st.remotes| || u < |st.remotes|) && m == Some(c)
  }

  /** c is what the documentation tells an update to choose: the first testing head
      above the new main commit, else the new main commit when a remote has it. */
  ghost predicate IsChoice(w: World, st: Status, c: Commit) {
    exists i, u, t, m :: IsChoiceFrom(w, st, c, i, u, t, m)
  }

  /** What an update moves to does not depend on the keys. */
  lemma ChoiceFromIsSelected(w: World, st: Status, c: Commit, i: nat, u: nat, t: nat, m: Option<Commit>)
    requires IsChoiceFrom(w, st, c, i, u, t, m)
    ensures NextMain(w, st) == m && Selects(w, st) == Some(c)
  {
    FirstMainsAre(w, st.remotes, st.main, i, u);
    if i < |st.remotes| {
      HeadIsOnTop(w, st.remotes[i], st.main);
    }
    FirstTestingIs(w, st.remotes, m, t);
    if t < |st.remotes| {
      HeadIsOnTop(w, st.remotes[t], m);
    }
  }

  lemma FirstsExist(w: World, st: Status)
    ensures AreFirstMains(w, st.remotes, st.main, FirstMoving(w, st.remotes, st.main),
              FirstUsable(w, st.remotes, st.main))
    ensures IsFirstTesting(w, st.remotes, NextMain(w, st), FirstTesting(w, st.remotes, NextMain(w, st)))
  {
    forall k, main: Option<Commit> | 0 <= k < |st.remotes|
      ensures MainHead(w, st.remotes[k], main).Some? <==> HasMain(w, st.remotes[k], main)
      ensures MovesMain(w, st.remotes[k], main) <==> HasNewMain(w, st.remotes[k], main)
      ensures OffersTesting(w, st.remotes[k], main) <==> HasNewTesting(w, st.remotes[k], main)
    {
      HeadsMean(w, st.remotes[k], main);
    }
  }

  lemma SelectedIsChoice(w: World, st: Status)
    requires Selects(w, st).Some?
    ensures IsChoice(w, st, Selects(w, st).value)
  {
    FirstsExist(w, st);
    var i, u, m := FirstMoving(w, st.remotes, st.main), FirstUsable(w, st.remotes, st.main), NextMain(w, st);
    var t, c := FirstTesting(w, st.remotes, m), Selects(w, st).value;
    if i < |st.remotes| {
      HeadIsOnTop(w, st.remotes[i], st.main);
    }
    if t < |st.remotes| {
      HeadIsOnTop(w, st.remotes[t], m);
    } else if i == |st.remotes| {
      assert MainHead(w, st.remotes[u], st.main).Some? && !MovesMain(w, st.remotes[u], st.main);
    }
    assert IsChoiceFrom(w, st, c, i, u, t, m);
  }

  /** An update selects the documented choice, and keeps the commit selected before
      when there is none. */
  lemma ChoiceIsSelected(w: World, keys: bool, accepts: Oracle, st: Status)
    ensures forall c :: IsChoice(w, st, c) ==> Updated(w, keys, accepts, st).selected == Some(c)
    ensures (forall c :: !IsChoice(w, st, c)) ==> Updated(w, keys, accepts, st).selected == st.selected
  {
    forall c | IsChoice(w, st, c) ensures Selects(w, st) == Some(c) {
      var i, u, t, m :| IsChoiceFrom(w, st, c, i, u, t, m);
      ChoiceFromIsSelected(w, st, c, i, u, t, m);
    }
    if Selects(w, st).Some? {
      SelectedIsChoice(w, st);
    }
  }

  /** With keys configured a status reads signed exactly when its update had a choice
      and the signature check accepts that choice; without keys it does not ask for
      a signature. */
  lemma SignedIff(w: World, keys: bool, accepts: Oracle, st: Status)
    ensures var st' := Updated(w, keys, accepts, st);
      && st'.shouldBeSigned == keys
      && if keys then st'.signed <==> exists c :: IsChoice(w, st, c) && accepts(c) else st'.signed == st.signed
  {
    forall c | IsChoice(w, st, c) ensures Selects(w, st) == Some(c) {
      var i, u, t, m :| IsChoiceFrom(w, st, c, i, u, t, m);
      ChoiceFromIsSelected(w, st, c, i, u, t, m);
    }
    if Selects(w, st).Some? {
      SelectedIsChoice(w, st);
    }
  }

  // ------------------------------------------------------------------ fetches

  /** Step i is the last one to fetch the remote. */
  ghost predicate IsLastFetch(steps: seq<Step>, name: string, i: int) {
    && 0 <= i < |steps| && FetchesAt(steps, name, i)
    && forall j :: i < j < |steps| ==> !FetchesAt(steps, name, j)
  }

  ghost predicate FetchesAt(steps: seq<Step>, name: string, i: int) {
    0 <= i < |steps| && steps[i].Fetch? && name in steps[i].requested
  }

  ghost predicate IsFirstOfItsName(remotes: seq<Remote>, k: nat)
    requires k < |remotes|
  {
    forall j :: 0 <= j < k ==> remotes[j].name != remotes[k].name
  }

  /** The remote is marked as failing when its last fetch failed; one that was never
      fetched, or that bears the name of an earlier one, keeps its mark. */
  ghost predicate MarkIsThatOfLastFetch(remotes: seq<Remote>, steps: seq<Step>, k: nat, mark: bool)
    requires k < |remotes|
  {
    var r := remotes[k];
    if IsFirstOfItsName(remotes, k) && exists i :: FetchesAt(steps, r.name, i) then
      exists i :: IsLastFetch(steps, r.name, i) && mark == (r.name in steps[i].failing)
    else mark == r.fetchError
  }

  /** Over every run of fetches and updates, the mark of each remote tells how its
      last fetch went. */
  lemma {:induction false} FetchErrorIsThatOfLastFetch(keys: bool, st: Status, steps: seq<Step>, k: nat)
    requires k < |st.remotes|
    ensures var end := Final(keys, st, steps).remotes;
      && |end| == |st.remotes| && SameNames(st.remotes, end)
      && MarkIsThatOfLastFetch(st.remotes, steps, k, end[k].fetchError)
  {
    if steps != [] {
      var front, s := steps[..|steps| - 1], steps[|steps| - 1];
      assert steps == front + [s];
      FetchErrorIsThatOfLastFetch(keys, st, front, k);
      var mid := Final(keys, st, front);
      if s.Update? {
        UpdateKeepsBranches(s.world, keys, s.accepts, mid);
        MarkStays(st.remotes, front, s, k, mid.remotes[k].fetchError);
      } else {
        AfterFetch(s.requested, s.failing, mid, k);
        FetchKeepsNames(s.requested, s.failing, mid);
        MarkAfterFetch(st.remotes, front, s, k, mid.remotes[k].fetchError);
      }
    }
  }

  ghost predicate SameNames(rs: seq<Remote>, rs': seq<Remote>) {
    |rs| == |rs'| && forall j :: 0 <= j < |rs| ==> rs[j].name == rs'[j].name
  }

  lemma FetchKeepsNames(requested: set<string>, failing: set<string>, st: Status)
    ensures SameNames(st.remotes, Fetched(requested, failing, st).remotes)
  {
    forall j | 0 <= j < |st.remotes|
      ensures Fetched(requested, failing, st).remotes[j].name == st.remotes[j].name
    {
      AfterFetch(requested, failing, st, j);
    }
  }

  lemma MarkStays(remotes: seq<Remote>, front: seq<Step>, s: Step, k: nat, mark: bool)
    requires k < |remotes| && MarkIsThatOfLastFetch(remotes, front, k, mark)
    requires s.Update? || remotes[k].name !in s.requested || !IsFirstOfItsName(remotes, k)
    ensures MarkIsThatOfLastFetch(remotes, front + [s], k, mark)
  {
    var n, steps := remotes[k].name, front + [s];
    if IsFirstOfItsName(remotes, k) {
      assert forall i :: FetchesAt(steps, n, i) <==> FetchesAt(front, n, i);
      if exists i :: FetchesAt(front, n, i) {
        var i :| IsLastFetch(front, n, i) && mark == (n in front[i].failing);
        assert IsLastFetch(steps, n, i) && steps[i] == front[i];
      }
    }
  }

  lemma MarkAfterFetch(remotes: seq<Remote>, front: seq<Step>, s: Step, k: nat, before: bool)
    requires k < |remotes| && MarkIsThatOfLastFetch(remotes, front, k, before) && s.Fetch?
    ensures var n := remotes[k].name;
      MarkIsThatOfLastFetch(remotes, front + [s], k,
        if n in s.requested && IsFirstOfItsName(remotes, k) then n in s.failing else before)
  {
    var n, steps := remotes[k].name, front + [s];
    if n in s.requested && IsFirstOfItsName(remotes, k) {
      assert FetchesAt(steps, n, |front|) && IsLastFetch(steps, n, |front|);
    } else {
      MarkStays(remotes, front, s, k, before);
    }
  }
}
