/** Which commit to deploy, from the branches of several remotes. */
module Repository {
  import opened Common
  import opened CommitGraph

  /** The status of a branch: the head last accepted, the main commit it was
      compared with, and whether the last look at it failed. */
  datatype Branch = Branch(name: string, commit: Option<Commit>, onTopOf: Option<Commit>, error: bool)

  datatype Remote = Remote(name: string, fetchError: bool, main: Branch, testing: Branch)

  datatype Selection = Selection(remote: string, branch: string, testing: bool)

  datatype Status = Status(
    remotes: seq<Remote>,
    main: Option<Commit>,
    mainRemote: string,
    mainBranch: string,
    selected: Option<Commit>,
    selection: Option<Selection>,
    shouldBeSigned: bool,
    signed: bool)

  /** The local repository at the time of an update. */
  datatype World = World(graph: Graph, refs: map<(string, string), Commit>)

  // ------------------------------------------------------------ specification

  /** A head can be used unless it is missing or the branch was hard reset: it
      has to be the current main commit or on top of it. */
  ghost function HeadOf(w: World, remote: string, branch: string, main: Option<Commit>): Option<Commit> {
    if (remote, branch) !in w.refs then None
    else
      var head := w.refs[(remote, branch)];
      if head in w.graph && (main.None? || Reaches(w.graph, head, main.value)) then Some(head) else None
  }

  ghost function MainHead(w: World, r: Remote, main: Option<Commit>): Option<Commit> {
    if r.fetchError then None else HeadOf(w, r.name, r.main.name, main)
  }

  ghost function TestingHead(w: World, r: Remote, main: Option<Commit>): Option<Commit> {
    if r.fetchError || r.testing.name == "" then None else HeadOf(w, r.name, r.testing.name, main)
  }

  /** The remote has a usable main head other than the current main commit. */
  ghost predicate MovesMain(w: World, r: Remote, main: Option<Commit>) {
    MainHead(w, r, main).Some? && MainHead(w, r, main) != main
  }

  ghost predicate OffersTesting(w: World, r: Remote, main: Option<Commit>) {
    TestingHead(w, r, main).Some? && TestingHead(w, r, main) != main
  }

  /** The first remote on top of main, or none: the number of remotes. */
  ghost function FirstMoving(w: World, remotes: seq<Remote>, main: Option<Commit>): (i: nat)
    ensures i <= |remotes|
    ensures i < |remotes| ==> MovesMain(w, remotes[i], main)
    ensures forall k :: 0 <= k < i ==> !MovesMain(w, remotes[k], main)
  {
    if remotes == [] then 0
    else if MovesMain(w, remotes[0], main) then 0
    else 1 + FirstMoving(w, remotes[1..], main)
  }

  ghost function FirstUsable(w: World, remotes: seq<Remote>, main: Option<Commit>): (i: nat)
    ensures i <= |remotes|
    ensures i < |remotes| ==> MainHead(w, remotes[i], main).Some?
    ensures forall k :: 0 <= k < i ==> MainHead(w, remotes[k], main).None?
  {
    if remotes == [] then 0
    else if MainHead(w, remotes[0], main).Some? then 0
    else 1 + FirstUsable(w, remotes[1..], main)
  }

  ghost function FirstTesting(w: World, remotes: seq<Remote>, main: Option<Commit>): (i: nat)
    ensures i <= |remotes|
    ensures i < |remotes| ==> OffersTesting(w, remotes[i], main)
    ensures forall k :: 0 <= k < i ==> !OffersTesting(w, remotes[k], main)
  {
    if remotes == [] then 0
    else if OffersTesting(w, remotes[0], main) then 0
    else 1 + FirstTesting(w, remotes[1..], main)
  }

  /** The first commit on top of main, else the first one equal to it. */
  ghost function ChosenRemote(w: World, st: Status): nat {
    var i := FirstMoving(w, st.remotes, st.main);
    if i < |st.remotes| then i else FirstUsable(w, st.remotes, st.main)
  }

  ghost function MovedMain(w: World, remotes: seq<Remote>, main: Option<Commit>): Option<Commit> {
    var i := FirstMoving(w, remotes, main);
    if i < |remotes| then MainHead(w, remotes[i], main) else main
  }

  ghost function NextMain(w: World, st: Status): Option<Commit> {
    MovedMain(w, st.remotes, st.main)
  }

  /** The commit an update selects, if it selects one. */
  ghost function Selects(w: World, st: Status): Option<Commit> {
    var t := FirstTesting(w, st.remotes, NextMain(w, st));
    if t < |st.remotes| then TestingHead(w, st.remotes[t], NextMain(w, st))
    else if ChosenRemote(w, st) < |st.remotes| then NextMain(w, st)
    else None
  }

  ghost function NextSelection(w: World, st: Status): Option<Selection> {
    var t := FirstTesting(w, st.remotes, NextMain(w, st));
    var m := ChosenRemote(w, st);
    if t < |st.remotes| then Some(Selection(st.remotes[t].name, st.remotes[t].testing.name, true))
    else if m < |st.remotes| then Some(Selection(st.remotes[m].name, st.remotes[m].main.name, false))
    else st.selection
  }

  function Looked(b: Branch, head: Option<Commit>, main: Option<Commit>): Branch {
    if head.None? then b.(error := true) else b.(commit := head, onTopOf := main, error := false)
  }

  /** What an update records about remote i: only remotes up to the one that
      ends a loop are looked at. */
  ghost function LookedAt(w: World, st: Status, i: nat): Remote
    requires i < |st.remotes|
  {
    var r := st.remotes[i];
    if r.fetchError then r
    else
      var main := if i <= FirstMoving(w, st.remotes, st.main) then Looked(r.main, MainHead(w, r, st.main), st.main)
        else r.main;
      var testing := if r.testing.name != "" && i <= FirstTesting(w, st.remotes, NextMain(w, st))
                     then Looked(r.testing, TestingHead(w, r, NextMain(w, st)), NextMain(w, st)) else r.testing;
      r.(main := main, testing := testing)
  }

  ghost function AllLookedAt(w: World, st: Status): (rs: seq<Remote>)
    ensures |rs| == |st.remotes|
  {
    seq(|st.remotes|, k requires 0 <= k < |st.remotes| => LookedAt(w, st, k))
  }

  /** The documented selection algorithm. */
  ghost function Updated(w: World, keys: bool, accepts: Commit -> bool, st: Status): (st': Status)
    ensures |st'.remotes| == |st.remotes|
  {
    var i := FirstMoving(w, st.remotes, st.main);
    var s := Selects(w, st);
    Status(
      AllLookedAt(w, st),
      NextMain(w, st),
      if i < |st.remotes| then st.remotes[i].name else st.mainRemote,
      if i < |st.remotes| then st.remotes[i].main.name else st.mainBranch,
      if s.Some? then s else st.selected,
      NextSelection(w, st),
      keys,
      if keys then s.Some? && accepts(s.value) else st.signed)
  }

  // -------------------------------------------------------------- the program

  method GetHeadFromRemoteAndBranch(w: World, remote: string, branch: string, main: Option<Commit>)
    returns (head: Option<Commit>)
    requires Closed(w.graph)
    ensures head == HeadOf(w, remote, branch, main)
  {
    if (remote, branch) !in w.refs {
      return None;
    }
    var h := w.refs[(remote, branch)];
    if main.Some? && main.value != h {
      var a := IsAncestor(w.graph, main.value, h);
      if a.Missing? || !a.found {
        return None;
      }
    }
    if h !in w.graph {
      return None;
    }
    ReachesSelf(w.graph, h);
    return Some(h);
  }

  class Repository {
    const keys: bool
    var remotes: seq<Remote>
    var main: Option<Commit>
    var mainRemote: string
    var mainBranch: string
    var selected: Option<Commit>
    var selection: Option<Selection>
    var shouldBeSigned: bool
    var signed: bool

    function Snapshot(): Status
      reads this
    {
      Status(remotes, main, mainRemote, mainBranch, selected, selection, shouldBeSigned, signed)
    }

    constructor (configured: seq<(string, string, string)>, main: Option<Commit>, keys: bool)
      ensures this.main == main && selected == None && |remotes| == |configured|
      ensures forall i :: 0 <= i < |remotes| ==>
        remotes[i].name == configured[i].0 && remotes[i].main.name == configured[i].1
          && remotes[i].testing.name == configured[i].2
      ensures forall i :: 0 <= i < |remotes| ==> !remotes[i].fetchError
    {
      this.keys, this.main, mainRemote, mainBranch := keys, main, "", "";
      selected, selection, shouldBeSigned, signed := None, None, false, false;
      remotes := seq(|configured|, i requires 0 <= i < |configured| =>
        Remote(configured[i].0, false, Branch(configured[i].1, None, None, false),
          Branch(configured[i].2, None, None, false)));
    }

    method GetRemote(name: string) returns (j: nat)
      ensures j <= |remotes| && (j < |remotes| ==> remotes[j].name == name)
      ensures forall k :: 0 <= k < j ==> remotes[k].name != name
    {
      j := 0;
      while j < |remotes| && remotes[j].name != name
        invariant j <= |remotes| && forall k :: 0 <= k < j ==> remotes[k].name != name
      {
        j := j + 1;
      }
    }

    /** Records for each requested remote whether its fetch failed. */
    method Fetch(requested: set<string>, failing: set<string>)
      modifies this`remotes
      ensures Snapshot() == Fetched(requested, failing, old(Snapshot()))
    {
      ghost var before := remotes;
      for i := 0 to |remotes|
        invariant |remotes| == |before|
        invariant forall k :: 0 <= k < |before| ==>
          remotes[k] == if k < i && IsFirstNamed(before, k) then FetchedRemote(requested, failing, before[k])
            else before[k]
      {
        var name := remotes[i].name;
        var j := GetRemote(name);
        if name !in requested {
          continue;
        }
        remotes := remotes[j := remotes[j].(fetchError := name in failing)];
      }
      assert remotes == Fetched(requested, failing, old(Snapshot())).remotes;
    }

    /** Walks the main branches, then the testing branches. */
    method Update(w: World, accepts: Commit -> bool)
      requires Closed(w.graph)
      modifies this
      ensures Snapshot() == Updated(w, keys, accepts, old(Snapshot()))
    {
      ghost var st := Snapshot();
      var chosen := WalkMain(w);
      chosen := WalkTesting(w, st, chosen);
      WalksLookAt(w, st);
      if chosen.Some? {
        selected := chosen;
      }
      if keys {
        shouldBeSigned := true;
        signed := chosen.Some? && accepts(chosen.value);
      } else {
        shouldBeSigned := false;
      }
    }

    /** Looks at the main branch of remote i, unless its fetch failed. */
    method LookAtMain(w: World, i: nat) returns (head: Option<Commit>)
      requires Closed(w.graph) && i < |remotes|
      modifies this`remotes
      ensures head == MainHead(w, old(remotes)[i], main)
      ensures remotes == old(remotes)[i := MainLooked(w, old(remotes)[i], main)]
    {
      var r := remotes[i];
      if r.fetchError {
        return None;
      }
      head := GetHeadFromRemoteAndBranch(w, r.name, r.main.name, main);
      if head.None? {
        remotes := remotes[i := r.(main := r.main.(error := true))];
      } else {
        remotes := remotes[i := r.(main := r.main.(commit := head, onTopOf := main, error := false))];
      }
    }

    method LookAtTesting(w: World, i: nat) returns (head: Option<Commit>)
      requires Closed(w.graph) && i < |remotes|
      modifies this`remotes
      ensures head == TestingHead(w, old(remotes)[i], main)
      ensures remotes == old(remotes)[i := TestingLooked(w, old(remotes)[i], main)]
    {
      var r := remotes[i];
      if r.fetchError || r.testing.name == "" {
        return None;
      }
      head := GetHeadFromRemoteAndBranch(w, r.name, r.testing.name, main);
      if head.None? {
        remotes := remotes[i := r.(testing := r.testing.(error := true))];
      } else {
        remotes := remotes[i := r.(testing := r.testing.(commit := head, onTopOf := main, error := false))];
      }
    }

    method WalkMain(w: World) returns (chosen: Option<Commit>)
      requires Closed(w.graph)
      modifies this`remotes, this`main, this`mainRemote, this`mainBranch, this`selection
      ensures Snapshot() == AfterMain(w, old(Snapshot()))
      ensures chosen == ChosenMain(w, old(Snapshot()))
    {
      ghost var st := Snapshot();
      chosen := None;
      MainSoFarStarts(w, st);
      for i := 0 to |remotes|
        invariant i <= FirstMoving(w, st.remotes, st.main)
        invariant Snapshot() == MainSoFar(w, st, i) && chosen == ChosenSoFar(w, st, i)
      {
        MainSoFarNext(w, st, i);
        var r := remotes[i];
        var head := LookAtMain(w, i);
        if head.None? {
          continue;
        }
        if chosen.None? {
          chosen := head;
          selection := Some(Selection(r.name, r.main.name, false));
        }
        if head != main {
          chosen := head;
          selection := Some(Selection(r.name, r.main.name, false));
          main, mainBranch, mainRemote := head, r.main.name, r.name;
          AfterMainMoved(w, st, i);
          return;
        }
      }
      AfterMainSame(w, st);
    }

    method WalkTesting(w: World, ghost st: Status, chosenMain: Option<Commit>) returns (chosen: Option<Commit>)
      requires Closed(w.graph) && Snapshot() == AfterMain(w, st) && chosenMain == ChosenMain(w, st)
      modifies this`remotes, this`selection
      ensures remotes == TestingWalked(w, st, AfterTesting(w, st))
      ensures selection == NextSelection(w, st)
      ensures chosen == Selects(w, st)
    {
      chosen := chosenMain;
      ghost var next := NextMain(w, st);
      for i := 0 to |remotes|
        invariant i <= FirstTesting(w, st.remotes, next)
        invariant remotes == TestingWalked(w, st, i) && chosen == chosenMain
        invariant selection == AfterMain(w, st).selection
      {
        TestingWalkedNext(w, st, i);
        var r := remotes[i];
        var head := LookAtTesting(w, i);
        if head.None? {
          continue;
        }
        if head != chosen && head != main {
          chosen := head;
          selection := Some(Selection(r.name, r.testing.name, true));
          break;
        }
      }
    }
  }

  ghost predicate IsFirstNamed(remotes: seq<Remote>, k: nat)
    requires k < |remotes|
  {
    forall j :: 0 <= j < k ==> remotes[j].name != remotes[k].name
  }

  function FetchedRemote(requested: set<string>, failing: set<string>, r: Remote): Remote {
    if r.name in requested then r.(fetchError := r.name in failing) else r
  }

  /** A fetch changes the fetch errors of the requested remotes and nothing else. */
  ghost function Fetched(requested: set<string>, failing: set<string>, st: Status): (st': Status)
    ensures |st'.remotes| == |st.remotes|
  {
    st.(remotes := seq(|st.remotes|, k requires 0 <= k < |st.remotes| =>
      if IsFirstNamed(st.remotes, k) then FetchedRemote(requested, failing, st.remotes[k]) else st.remotes[k]))
  }

  // ------------------------------------------------- the status within an update

  ghost function MainLooked(w: World, r: Remote, main: Option<Commit>): Remote {
    if r.fetchError then r else r.(main := Looked(r.main, MainHead(w, r, main), main))
  }

  ghost function TestingLooked(w: World, r: Remote, main: Option<Commit>): Remote {
    if r.fetchError || r.testing.name == "" then r else r.(testing := Looked(r.testing, TestingHead(w, r, main), main))
  }

  function MainSelection(st: Status, i: nat): Option<Selection>
    requires i < |st.remotes|
  {
    Some(Selection(st.remotes[i].name, st.remotes[i].main.name, false))
  }

  ghost function MainWalked(w: World, st: Status, i: nat): (r: seq<Remote>)
    ensures |r| == |st.remotes|
  {
    seq(|st.remotes|, k requires 0 <= k < |st.remotes| =>
      if k < i then MainLooked(w, st.remotes[k], st.main) else st.remotes[k])
  }

  /** The walk over the main branches has looked at i of them without finding one
      that moves the main commit. */
  ghost function MainSoFar(w: World, st: Status, i: nat): Status {
    var u := FirstUsable(w, st.remotes, st.main);
    st.(remotes := MainWalked(w, st, i),
        selection := if u < i && u < |st.remotes| then MainSelection(st, u) else st.selection)
  }

  ghost function ChosenSoFar(w: World, st: Status, i: nat): Option<Commit> {
    if FirstUsable(w, st.remotes, st.main) < i then st.main else None
  }

  lemma MainSoFarStarts(w: World, st: Status)
    ensures MainSoFar(w, st, 0) == st && ChosenSoFar(w, st, 0) == None
  {
    assert MainWalked(w, st, 0) == st.remotes;
  }

  /** One iteration. The first usable head is chosen; one that moves the main
      commit ends the walk. */
  lemma MainSoFarNext(w: World, st: Status, i: nat)
    requires i < |st.remotes| && i <= FirstMoving(w, st.remotes, st.main)
    ensures var head, now := MainHead(w, st.remotes[i], st.main), MainSoFar(w, st, i);
      && now.remotes[i] == st.remotes[i]
      && MainWalked(w, st, i + 1) == now.remotes[i := MainLooked(w, st.remotes[i], st.main)]
      && (head.None? || head == st.main ==> (
            && i < FirstMoving(w, st.remotes, st.main)
            && ChosenSoFar(w, st, i + 1) == (if head.None? then ChosenSoFar(w, st, i) else head)
            && MainSoFar(w, st, i + 1) == now.(remotes := MainWalked(w, st, i + 1),
                 selection := if head.Some? && ChosenSoFar(w, st, i).None? then MainSelection(st, i)
                   else now.selection)))
  {
    MainWalkedNext(w, st, i);
    var u := FirstUsable(w, st.remotes, st.main);
    if u < i {
      assert MainHead(w, st.remotes[u], st.main).Some? && !MovesMain(w, st.remotes[u], st.main);
    }
  }

  lemma MainWalkedNext(w: World, st: Status, i: nat)
    requires i < |st.remotes|
    ensures MainWalked(w, st, i + 1) == MainWalked(w, st, i)[i := MainLooked(w, st.remotes[i], st.main)]
  {
  }

  ghost function AfterMoving(w: World, st: Status): nat {
    var i := FirstMoving(w, st.remotes, st.main);
    if i < |st.remotes| then i + 1 else i
  }

  ghost function AfterTesting(w: World, st: Status): nat {
    var i := FirstTesting(w, st.remotes, NextMain(w, st));
    if i < |st.remotes| then i + 1 else i
  }

  ghost function TestingWalked(w: World, st: Status, i: nat): (r: seq<Remote>)
    ensures |r| == |st.remotes|
  {
    var before := MainWalked(w, st, AfterMoving(w, st));
    seq(|before|, k requires 0 <= k < |before| =>
      if k < i then TestingLooked(w, before[k], NextMain(w, st)) else before[k])
  }

  lemma TestingWalkedNext(w: World, st: Status, i: nat)
    requires i < |st.remotes|
    ensures var r := TestingWalked(w, st, i);
      && TestingWalked(w, st, i + 1) == r[i := TestingLooked(w, r[i], NextMain(w, st))]
      && TestingHead(w, r[i], NextMain(w, st)) == TestingHead(w, st.remotes[i], NextMain(w, st))
  {
  }

  lemma AfterMainMoved(w: World, st: Status, i: nat)
    requires i < |st.remotes| && MovesMain(w, st.remotes[i], st.main) && i <= FirstMoving(w, st.remotes, st.main)
    ensures var head := MainHead(w, st.remotes[i], st.main);
      && AfterMain(w, st) == st.(remotes := MainWalked(w, st, i + 1), main := head, mainRemote := st.remotes[i].name,
                                 mainBranch := st.remotes[i].main.name, selection := MainSelection(st, i))
      && ChosenMain(w, st) == head
  {
    assert FirstMoving(w, st.remotes, st.main) == i;
  }

  lemma AfterMainSame(w: World, st: Status)
    requires FirstMoving(w, st.remotes, st.main) == |st.remotes|
    ensures var u := FirstUsable(w, st.remotes, st.main);
      && AfterMain(w, st) == st.(remotes := MainWalked(w, st, |st.remotes|),
                                 selection := if u < |st.remotes| then MainSelection(st, u) else st.selection)
      && ChosenMain(w, st) == if u < |st.remotes| then st.main else None
  {
  }

  lemma WalksLookAt(w: World, st: Status)
    ensures TestingWalked(w, st, AfterTesting(w, st)) == AllLookedAt(w, st)
  {
  }

  ghost function ChosenMain(w: World, st: Status): Option<Commit> {
    if ChosenRemote(w, st) < |st.remotes| then NextMain(w, st) else None
  }

  /** The status between the two walks. */
  ghost function AfterMain(w: World, st: Status): Status {
    var i := FirstMoving(w, st.remotes, st.main);
    var c := ChosenRemote(w, st);
    st.(remotes := MainWalked(w, st, AfterMoving(w, st)),
        main := NextMain(w, st),
        mainRemote := if i < |st.remotes| then st.remotes[i].name else st.mainRemote,
        mainBranch := if i < |st.remotes| then st.remotes[i].main.name else st.mainBranch,
        selection := if c < |st.remotes| then MainSelection(st, c) else st.selection)
  }
}
