/** The retention pass: which deployments a store keeps, and why. */
module Retention {
  import opened Common
  import opened Deployments

  datatype Capacities = Capacities(bootEntry: int, successful: int, any: int)

  /** The two running systems, the capacities, and the identifiers to give to
      the dummy deployments if some have to be minted. */
  datatype Request = Request(
    bootedPath: Path,
    switchedPath: Path,
    caps: Capacities,
    bootedDummy: Uuid,
    switchedDummy: Uuid)

  datatype Outcome = Outcome(
    kept: seq<Deployment>,
    switched: Deployment,
    booted: Deployment,
    bootEntries: seq<Deployment>,
    successful: seq<Deployment>,
    any: seq<Deployment>)

  // ---------------------------------------------------------------- selection

  /** The deployment describes the booted system. */
  predicate BootedFrom(d: Deployment, path: Path) {
    IsBootEntry(d) && d.status == Done && d.storepath == path
  }

  /** The deployment describes the running system. */
  predicate SwitchedTo(d: Deployment, path: Path) {
    d.status == Done && d.storepath == path
  }

  function Storepaths(s: seq<Deployment>): set<Path> {
    set d | d in s :: d.storepath
  }

  type Rule = (seq<Deployment>, Deployment) -> bool

  /** What a selection loop has picked once it has visited `order`: a deployment
      is picked when the rule accepts it on top of the earlier picks. */
  function Pick(order: seq<Deployment>, rule: Rule): (picked: seq<Deployment>)
    ensures |picked| <= |order|
  {
    if order == [] then []
    else
      var before := Pick(order[..|order| - 1], rule);
      var d := order[|order| - 1];
      if rule(before, d) then before + [d] else before
  }

  function BootEntryRule(n: int): Rule {
    (before: seq<Deployment>, d: Deployment) =>
      |before| < n && IsBootEntry(d) && d.status == Done && d.storepath !in Storepaths(before)
  }

  function SuccessfulRule(n: int): Rule {
    (before: seq<Deployment>, d: Deployment) => |before| < n && d.status == Done
  }

  function AnyRule(n: int): Rule {
    (before: seq<Deployment>, d: Deployment) => |before| < n
  }

  /** A pick of n deployments at most. */
  ghost predicate Bounded(rule: Rule, n: int) {
    forall before, d :: rule(before, d) ==> |before| < n
  }

  lemma {:induction false} PickFull(order: seq<Deployment>, i: nat, rule: Rule, n: int)
    requires Bounded(rule, n) && i <= |order| && n <= |Pick(order[..i], rule)|
    ensures Pick(order, rule) == Pick(order[..i], rule)
    decreases |order|
  {
    if i == |order| {
      assert order[..i] == order;
    } else {
      assert order[..|order| - 1][..i] == order[..i];
      PickFull(order[..|order| - 1], i, rule, n);
    }
  }

  /** One more iteration of a selection loop. */
  lemma PickNext(order: seq<Deployment>, i: nat, rule: Rule)
    requires i < |order|
    ensures var before := Pick(order[..i], rule);
      Pick(order[..i + 1], rule) == if rule(before, order[i]) then before + [order[i]] else before
  {
    assert order[..i + 1][..i] == order[..i];
  }

  // ------------------------------------------------------------ accumulation

  function AddUnique(s: seq<Deployment>, d: Deployment): seq<Deployment> {
    if d.uuid in Uuids(s) then s else s + [d]
  }

  function Merge(s: seq<Deployment>, ds: seq<Deployment>): (r: seq<Deployment>)
    ensures |r| <= |s| + |ds|
  {
    if ds == [] then s else AddUnique(Merge(s, ds[..|ds| - 1]), ds[|ds| - 1])
  }

  lemma MergeNext(s: seq<Deployment>, ds: seq<Deployment>, d: Deployment)
    ensures Merge(s, ds + [d]) == AddUnique(Merge(s, ds), d)
  {
    assert (ds + [d])[..|ds|] == ds;
  }

  lemma StorepathsNext(ds: seq<Deployment>, d: Deployment)
    ensures Storepaths(ds + [d]) == Storepaths(ds) + {d.storepath}
  {
    assert forall e :: e in ds + [d] <==> e in ds || e == d;
    assert d in ds + [d];
  }

  /** Everything a retention pass keeps, before the final sort. */
  function Gathered(order: seq<Deployment>, booted: Deployment, switched: Deployment,
                    caps: Capacities): seq<Deployment> {
    var two := AddUnique([booted], switched);
    var withBoot := Merge(two, Pick(order, BootEntryRule(caps.bootEntry)));
    var withSuccessful := Merge(withBoot, Pick(order, SuccessfulRule(caps.successful)));
    Merge(withSuccessful, Pick(order, AnyRule(caps.any)))
  }

  // ------------------------------------------------------------------ dummies

  function BootedDummy(q: Request): Deployment {
    Deployment(q.bootedDummy, q.bootedPath, Boot, Done, 0, false, "")
  }

  function SwitchedDummy(q: Request): Deployment {
    Deployment(q.switchedDummy, q.switchedPath, Switch, Done, 0, false, "")
  }

  ghost function BootedMint(input: seq<Deployment>, q: Request): seq<Deployment> {
    if exists d :: d in input && BootedFrom(d, q.bootedPath) then [] else [BootedDummy(q)]
  }

  ghost function SwitchedMint(input: seq<Deployment>, q: Request): seq<Deployment> {
    if exists d :: d in input && SwitchedTo(d, q.switchedPath) then [] else [SwitchedDummy(q)]
  }

  /** The dummies a pass has to mint: one for each running system that no
      deployment describes. */
  ghost function Minted(input: seq<Deployment>, q: Request): seq<Deployment> {
    BootedMint(input, q) + SwitchedMint(input + BootedMint(input, q), q)
  }

  /** Two identifiers that dummies may be given: different and not in use. */
  predicate FreshDummies(input: seq<Deployment>, a: Uuid, b: Uuid) {
    a != b && a !in Uuids(input) && b !in Uuids(input)
  }

  predicate Fresh(input: seq<Deployment>, q: Request) {
    FreshDummies(input, q.bootedDummy, q.switchedDummy)
  }

  // ------------------------------------------------------------ specification

  ghost predicate NewestBooted(s: seq<Deployment>, path: Path, d: Deployment) {
    && d in s && BootedFrom(d, path)
    && forall e :: e in s && BootedFrom(e, path) ==> e.createdAt <= d.createdAt
  }

  ghost predicate NewestSwitched(s: seq<Deployment>, path: Path, d: Deployment) {
    && d in s && SwitchedTo(d, path)
    && forall e :: e in s && SwitchedTo(e, path) ==> e.createdAt <= d.createdAt
  }

  /** `out` is a retention of `input`: there are ties between creation times, so
      there can be several, one for each `order` the sort may produce. */
  ghost predicate Retains(input: seq<Deployment>, q: Request, out: Outcome, order: seq<Deployment>) {
    && NewestFirst(order)
    && multiset(order) == multiset(input + Minted(input, q))
    && NewestBooted(order, q.bootedPath, out.booted)
    && NewestSwitched(order, q.switchedPath, out.switched)
    && out.bootEntries == Merge([], Pick(order, BootEntryRule(q.caps.bootEntry)))
    && out.successful == Merge([], Pick(order, SuccessfulRule(q.caps.successful)))
    && out.any == Merge([], Pick(order, AnyRule(q.caps.any)))
    && NewestFirst(out.kept)
    && multiset(out.kept) == multiset(Gathered(order, out.booted, out.switched, q.caps))
  }

  ghost predicate IsRetained(input: seq<Deployment>, q: Request, out: Outcome) {
    exists order :: Retains(input, q, out, order)
  }

  // ------------------------------------------------------------ the algorithm

  /** First phase: the newest deployment of the booted system, or a dummy. */
  method FindBooted(sorted: seq<Deployment>, q: Request) returns (order: seq<Deployment>, booted: Deployment)
    requires NewestFirst(sorted)
    ensures NewestFirst(order) && NewestBooted(order, q.bootedPath, booted)
    ensures multiset(order) == multiset(sorted + BootedMint(sorted, q))
  {
    for i := 0 to |sorted|
      invariant forall k :: 0 <= k < i ==> !BootedFrom(sorted[k], q.bootedPath)
    {
      if BootedFrom(sorted[i], q.bootedPath) {
        assert sorted + [] == sorted;
        return sorted, sorted[i];
      }
    }
    booted := BootedDummy(q);
    order := SortNewestFirst(sorted + [booted]);
    SameMembers(order, sorted + [booted]);
  }

  /** Second phase: the newest deployment of the running system, or a dummy. */
  method FindSwitched(sorted: seq<Deployment>, q: Request) returns (order: seq<Deployment>, switched: Deployment)
    requires NewestFirst(sorted)
    ensures NewestFirst(order) && NewestSwitched(order, q.switchedPath, switched)
    ensures multiset(order) == multiset(sorted + SwitchedMint(sorted, q))
  {
    for i := 0 to |sorted|
      invariant forall k :: 0 <= k < i ==> !SwitchedTo(sorted[k], q.switchedPath)
    {
      if SwitchedTo(sorted[i], q.switchedPath) {
        assert sorted + [] == sorted;
        return sorted, sorted[i];
      }
    }
    switched := SwitchedDummy(q);
    order := SortNewestFirst(sorted + [switched]);
    SameMembers(order, sorted + [switched]);
  }

  /** A selection loop that has visited the first i deployments: what it picked
      is merged into the result and into its own list. */
  ghost predicate Selecting(order: seq<Deployment>, i: nat, rule: Rule, start: seq<Deployment>,
                            picked: seq<Deployment>, result: seq<Deployment>, list: seq<Deployment>)
  {
    i <= |order| && picked == Pick(order[..i], rule) && result == Merge(start, picked) && list == Merge([], picked)
  }

  lemma SelectingTakes(order: seq<Deployment>, i: nat, rule: Rule, start: seq<Deployment>,
                       picked: seq<Deployment>, result: seq<Deployment>, list: seq<Deployment>)
    requires Selecting(order, i, rule, start, picked, result, list) && i < |order| && rule(picked, order[i])
    ensures var d := order[i];
      Selecting(order, i + 1, rule, start, picked + [d], AddUnique(result, d), AddUnique(list, d))
  {
    PickNext(order, i, rule);
    MergeNext(start, picked, order[i]);
    MergeNext([], picked, order[i]);
  }

  lemma SelectingSkips(order: seq<Deployment>, i: nat, rule: Rule, start: seq<Deployment>,
                       picked: seq<Deployment>, result: seq<Deployment>, list: seq<Deployment>)
    requires Selecting(order, i, rule, start, picked, result, list) && i < |order| && !rule(picked, order[i])
    ensures Selecting(order, i + 1, rule, start, picked, result, list)
  {
    PickNext(order, i, rule);
  }

  /** The loop is over when the capacity is used up or everything is visited. */
  lemma SelectingEnds(order: seq<Deployment>, i: nat, rule: Rule, n: int, start: seq<Deployment>,
                      picked: seq<Deployment>, result: seq<Deployment>, list: seq<Deployment>)
    requires Selecting(order, i, rule, start, picked, result, list)
    requires i == |order| || (Bounded(rule, n) && n <= |picked|)
    ensures list == Merge([], Pick(order, rule)) && result == Merge(start, Pick(order, rule))
  {
    if i == |order| {
      assert order[..i] == order;
    } else {
      PickFull(order, i, rule, n);
    }
  }

  /** The storepaths of the picked boot entries, which all differ. */
  ghost predicate PathsOf(picked: seq<Deployment>, storepaths: set<Path>) {
    storepaths == Storepaths(picked) && |storepaths| == |picked|
  }

  lemma PathsOfNext(picked: seq<Deployment>, storepaths: set<Path>, d: Deployment)
    requires PathsOf(picked, storepaths) && d.storepath !in storepaths
    ensures PathsOf(picked + [d], storepaths + {d.storepath})
  {
    StorepathsNext(picked, d);
  }

  /** The tests of the loop over boot entries decide what the rule decides. */
  lemma BootEntryTests(picked: seq<Deployment>, storepaths: set<Path>, d: Deployment, n: int)
    requires PathsOf(picked, storepaths)
    ensures BootEntryRule(n)(picked, d) <==>
      |storepaths| < n && IsBootEntry(d) && d.status == Done && d.storepath !in storepaths
    ensures |storepaths| >= n ==> Bounded(BootEntryRule(n), n) && n <= |picked|
  {
  }

  method SelectBootEntries(order: seq<Deployment>, start: seq<Deployment>, capacity: int)
    returns (result: seq<Deployment>, entries: seq<Deployment>)
    ensures entries == Merge([], Pick(order, BootEntryRule(capacity)))
    ensures result == Merge(start, Pick(order, BootEntryRule(capacity)))
  {
    result, entries := start, [];
    var storepaths: set<Path> := {};
    ghost var rule := BootEntryRule(capacity);
    ghost var picked: seq<Deployment> := [];
    for i := 0 to |order|
      invariant Selecting(order, i, rule, start, picked, result, entries)
      invariant PathsOf(picked, storepaths)
    {
      var d := order[i];
      BootEntryTests(picked, storepaths, d, capacity);
      if |storepaths| >= capacity {
        SelectingEnds(order, i, rule, capacity, start, picked, result, entries);
        return;
      }
      if !IsBootEntry(d) || d.status != Done || d.storepath in storepaths {
        SelectingSkips(order, i, rule, start, picked, result, entries);
        continue;
      }
      SelectingTakes(order, i, rule, start, picked, result, entries);
      PathsOfNext(picked, storepaths, d);
      storepaths := storepaths + {d.storepath};
      result, entries := AddUnique(result, d), AddUnique(entries, d);
      picked := picked + [d];
    }
    SelectingEnds(order, |order|, rule, capacity, start, picked, result, entries);
  }

  method SelectSuccessful(order: seq<Deployment>, start: seq<Deployment>, capacity: int)
    returns (result: seq<Deployment>, successful: seq<Deployment>)
    ensures successful == Merge([], Pick(order, SuccessfulRule(capacity)))
    ensures result == Merge(start, Pick(order, SuccessfulRule(capacity)))
  {
    result, successful := start, [];
    var counter := 0;
    ghost var rule := SuccessfulRule(capacity);
    ghost var picked: seq<Deployment> := [];
    for i := 0 to |order|
      invariant Selecting(order, i, rule, start, picked, result, successful) && counter == |picked|
    {
      var d := order[i];
      if d.status != Done {
        SelectingSkips(order, i, rule, start, picked, result, successful);
        continue;
      }
      if counter >= capacity {
        SelectingEnds(order, i, rule, capacity, start, picked, result, successful);
        return;
      }
      SelectingTakes(order, i, rule, start, picked, result, successful);
      counter := counter + 1;
      result, successful := AddUnique(result, d), AddUnique(successful, d);
      picked := picked + [d];
    }
    SelectingEnds(order, |order|, rule, capacity, start, picked, result, successful);
  }

  method SelectAny(order: seq<Deployment>, start: seq<Deployment>, capacity: int)
    returns (result: seq<Deployment>, any: seq<Deployment>)
    ensures any == Merge([], Pick(order, AnyRule(capacity)))
    ensures result == Merge(start, Pick(order, AnyRule(capacity)))
  {
    result, any := start, [];
    var counter := 0;
    ghost var rule := AnyRule(capacity);
    ghost var picked: seq<Deployment> := [];
    for i := 0 to |order|
      invariant Selecting(order, i, rule, start, picked, result, any) && counter == |picked|
    {
      var d := order[i];
      if counter >= capacity {
        SelectingEnds(order, i, rule, capacity, start, picked, result, any);
        return;
      }
      SelectingTakes(order, i, rule, start, picked, result, any);
      counter := counter + 1;
      result, any := AddUnique(result, d), AddUnique(any, d);
      picked := picked + [d];
    }
    SelectingEnds(order, |order|, rule, capacity, start, picked, result, any);
  }

  lemma BootedMintOfPermutation(s: seq<Deployment>, t: seq<Deployment>, q: Request)
    requires multiset(s) == multiset(t)
    ensures BootedMint(s, q) == BootedMint(t, q) && SwitchedMint(s, q) == SwitchedMint(t, q)
  {
    SameMembers(s, t);
  }

  /** The two searches leave the input and the minted dummies. */
  lemma OrderIsInputAndMinted(input: seq<Deployment>, q: Request, sorted: seq<Deployment>,
                              withBooted: seq<Deployment>, all: seq<Deployment>)
    requires multiset(sorted) == multiset(input)
    requires multiset(withBooted) == multiset(sorted + BootedMint(sorted, q))
    requires multiset(all) == multiset(withBooted + SwitchedMint(withBooted, q))
    ensures multiset(all) == multiset(input + Minted(input, q))
  {
    BootedMintOfPermutation(sorted, input, q);
    var m := BootedMint(input, q);
    assert multiset(withBooted) == multiset(input + m);
    BootedMintOfPermutation(withBooted, input + m, q);
    var n := SwitchedMint(input + m, q);
    assert Minted(input, q) == m + n;
    assert multiset(all) == multiset(input) + multiset(m) + multiset(n);
    assert multiset(input + (m + n)) == multiset(input) + multiset(m) + multiset(n);
  }

  /** A dummy for the running system is not another deployment of the booted one. */
  lemma BootedStaysNewest(withBooted: seq<Deployment>, q: Request, booted: Deployment, all: seq<Deployment>)
    requires multiset(all) == multiset(withBooted + SwitchedMint(withBooted, q))
    requires NewestBooted(withBooted, q.bootedPath, booted)
    ensures NewestBooted(all, q.bootedPath, booted)
  {
    var n := SwitchedMint(withBooted, q);
    SameMembers(all, withBooted + n);
    assert n != [] ==> !SwitchedTo(booted, q.switchedPath);
  }

  /** The five phases. Any list is accepted, with any capacities. */
  method Retain(input: seq<Deployment>, q: Request) returns (out: Outcome)
    requires Fresh(input, q)
    ensures IsRetained(input, q, out)
  {
    var sorted := SortNewestFirst(input);
    var withBooted, booted := FindBooted(sorted, q);
    var all, switched := FindSwitched(withBooted, q);
    OrderIsInputAndMinted(input, q, sorted, withBooted, all);
    BootedStaysNewest(withBooted, q, booted, all);
    var result := AddUnique([booted], switched);
    var bootEntries, successful, any;
    result, bootEntries := SelectBootEntries(all, result, q.caps.bootEntry);
    result, successful := SelectSuccessful(all, result, q.caps.successful);
    result, any := SelectAny(all, result, q.caps.any);
    var kept := SortNewestFirst(result);
    out := Outcome(kept, switched, booted, bootEntries, successful, any);
    assert Retains(input, q, out, all);
  }
}
