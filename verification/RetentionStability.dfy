/** Retention over repeated passes: what a second pass changes. */
module RetentionStability {
  import opened Common
  import opened Deployments
  import opened Retention
  import opened RetentionLaws

  // ------------------------------------------------------------- idempotence

  function Restrict(order: seq<Deployment>, keep: set<Uuid>): seq<Deployment> {
    if order == [] then []
    else
      var front, d := Restrict(order[..|order| - 1], keep), order[|order| - 1];
      if d.uuid in keep then front + [d] else front
  }

  lemma {:induction false} RestrictMembers(order: seq<Deployment>, keep: set<Uuid>)
    ensures forall d :: d in Restrict(order, keep) <==> d in order && d.uuid in keep
  {
    if order != [] {
      var front, d := order[..|order| - 1], order[|order| - 1];
      RestrictMembers(front, keep);
      assert forall e :: e in order <==> e in front || e == d;
    }
  }

  lemma {:induction false} RestrictOrder(order: seq<Deployment>, keep: set<Uuid>)
    requires NewestFirst(order) && DistinctUuids(order)
    ensures NewestFirst(Restrict(order, keep)) && DistinctUuids(Restrict(order, keep))
  {
    if order != [] {
      var front, d := order[..|order| - 1], order[|order| - 1];
      RestrictOrder(front, keep);
      RestrictMembers(front, keep);
      var r := Restrict(front, keep);
      forall i | 0 <= i < |r| ensures r[i].uuid != d.uuid && d.createdAt <= r[i].createdAt {
        assert r[i] in front;
      }
    }
  }

  /** Dropping deployments that a loop does not pick does not change its picks. */
  lemma {:induction false} PickRestricted(order: seq<Deployment>, keep: set<Uuid>, rule: Rule)
    requires forall d :: d in Pick(order, rule) ==> d.uuid in keep
    ensures Pick(Restrict(order, keep), rule) == Pick(order, rule)
  {
    if order != [] {
      var front, d := order[..|order| - 1], order[|order| - 1];
      var before := Pick(front, rule);
      assert forall e :: e in before ==> e in Pick(order, rule);
      PickRestricted(front, keep, rule);
      var r := Restrict(front, keep);
      assert rule(before, d) ==> d in Pick(order, rule);
      assert (r + [d])[..|r|] == r;
    }
  }

  lemma {:induction false} StrictOrderIsUnique(s: seq<Deployment>, t: seq<Deployment>)
    requires StrictlyNewestFirst(s) && NewestFirst(t) && multiset(s) == multiset(t)
    ensures s == t
  {
    SameMembers(s, t);
    if s != [] {
      assert s[0] in t && t[0] in s;
      assert s[0] == t[0];
      TailMultiset(s);
      TailMultiset(t);
      StrictOrderIsUnique(s[1..], t[1..]);
    }
  }

  lemma TailMultiset(s: seq<Deployment>)
    requires s != []
    ensures multiset(s[1..]) == multiset(s) - multiset{s[0]}
  {
    assert s == [s[0]] + s[1..];
  }

  lemma SameMembersSameMultiset(s: seq<Deployment>, t: seq<Deployment>)
    requires DistinctUuids(s) && DistinctUuids(t)
    requires forall d :: d in s <==> d in t
    ensures multiset(s) == multiset(t)
  {
    forall d ensures multiset(s)[d] == multiset(t)[d] {
      if d in s {
        OnceInMultiset(s, d);
        OnceInMultiset(t, d);
      }
    }
  }

  ghost predicate SameRequest(q: Request, q': Request) {
    q.bootedPath == q'.bootedPath && q.switchedPath == q'.switchedPath && q.caps == q'.caps
  }

  ghost predicate WithCapacities(q: Request) {
    q.caps.bootEntry >= 0 && q.caps.successful >= 0 && q.caps.any >= 0
  }

  lemma MintsNothing(s: seq<Deployment>, q: Request, booted: Deployment, switched: Deployment)
    requires booted in s && switched in s && BootedFrom(booted, q.bootedPath) && SwitchedTo(switched, q.switchedPath)
    ensures Minted(s, q) == [] && s + Minted(s, q) == s
  {
    assert s + [] == s;
  }

  /** A pass over the result of a pass mints nothing: both running systems are
      described by what was kept. */
  lemma SecondPassMintsNothing(input: seq<Deployment>, q: Request, out: Outcome, order: seq<Deployment>, q': Request)
    requires Fresh(input, q) && ConsistentUuids(input) && Retains(input, q, out, order)
    requires SameRequest(q, q')
    ensures Minted(out.kept, q') == []
  {
    KeptMembers(input, q, out, order);
    MintsNothing(out.kept, q', out.booted, out.switched);
  }

  /** What is kept is the visited order without what is dropped. */
  lemma KeptIsRestriction(input: seq<Deployment>, q: Request, out: Outcome, order: seq<Deployment>)
    requires Fresh(input, q) && DistinctUuids(input) && WithCapacities(q)
    requires Retains(input, q, out, order) && StrictlyNewestFirst(out.kept)
    ensures out.kept == Restrict(order, Uuids(out.kept))
  {
    var keep := Uuids(out.kept);
    MintedAreFresh(input, q);
    DistinctIsPermutable(input + Minted(input, q), order);
    KeptIsWellFormed(input, q, out, order);
    RestrictMembers(order, keep);
    RestrictOrder(order, keep);
    forall d ensures d in out.kept <==> d in Restrict(order, keep) {
      if d in order && d.uuid in keep {
        var e :| e in out.kept && e.uuid == d.uuid;
        assert e in order;
      }
    }
    SameMembersSameMultiset(out.kept, Restrict(order, keep));
    StrictOrderIsUnique(out.kept, Restrict(order, keep));
  }

  lemma SamePicks(input: seq<Deployment>, q: Request, out: Outcome, order: seq<Deployment>)
    requires Fresh(input, q) && DistinctUuids(input) && WithCapacities(q)
    requires Retains(input, q, out, order) && StrictlyNewestFirst(out.kept)
    ensures Pick(out.kept, BootEntryRule(q.caps.bootEntry)) == Pick(order, BootEntryRule(q.caps.bootEntry))
    ensures Pick(out.kept, SuccessfulRule(q.caps.successful)) == Pick(order, SuccessfulRule(q.caps.successful))
    ensures Pick(out.kept, AnyRule(q.caps.any)) == Pick(order, AnyRule(q.caps.any))
  {
    KeptIsRestriction(input, q, out, order);
    KeptMembers(input, q, out, order);
    PickRestricted(order, Uuids(out.kept), BootEntryRule(q.caps.bootEntry));
    PickRestricted(order, Uuids(out.kept), SuccessfulRule(q.caps.successful));
    PickRestricted(order, Uuids(out.kept), AnyRule(q.caps.any));
  }

  lemma SameRunningSystems(input: seq<Deployment>, q: Request, out: Outcome, order: seq<Deployment>,
                           q': Request, out': Outcome)
    requires Fresh(input, q) && ConsistentUuids(input) && WithCapacities(q) && Retains(input, q, out, order)
      && SameRequest(q, q')
    requires StrictlyNewestFirst(out.kept)
    requires NewestBooted(out.kept, q'.bootedPath, out'.booted)
      && NewestSwitched(out.kept, q'.switchedPath, out'.switched)
    ensures out'.booted == out.booted && out'.switched == out.switched
  {
    KeptMembers(input, q, out, order);
    KeptIsWellFormed(input, q, out, order);
    SameNewest(out.kept, order, q, out.booted, out.switched, out'.booted, out'.switched);
  }

  lemma SameNewest(kept: seq<Deployment>, order: seq<Deployment>, q: Request,
                   booted: Deployment, switched: Deployment, booted': Deployment, switched': Deployment)
    requires StrictlyNewestFirst(kept) && forall d :: d in kept ==> d in order
    requires booted in kept && switched in kept
    requires NewestBooted(order, q.bootedPath, booted) && NewestSwitched(order, q.switchedPath, switched)
    requires NewestBooted(kept, q.bootedPath, booted') && NewestSwitched(kept, q.switchedPath, switched')
    ensures booted' == booted && switched' == switched
  {
    SameTimeSameDeployment(kept, booted, booted');
    SameTimeSameDeployment(kept, switched, switched');
  }

  lemma SameTimeSameDeployment(s: seq<Deployment>, d: Deployment, e: Deployment)
    requires StrictlyNewestFirst(s) && d in s && e in s && d.createdAt == e.createdAt
    ensures d == e
  {
  }

  /** Retention is idempotent: a pass over what a pass kept keeps it all and
      fills the same lists, provided no two kept deployments share a creation
      time and the first list had no UUID twice. */
  lemma RetentionIsIdempotent(input: seq<Deployment>, q: Request, out: Outcome, order: seq<Deployment>,
                              q': Request, out': Outcome, order': seq<Deployment>)
    requires Fresh(input, q) && DistinctUuids(input) && WithCapacities(q)
    requires Retains(input, q, out, order) && StrictlyNewestFirst(out.kept)
    requires SameRequest(q, q') && Retains(out.kept, q', out', order')
    ensures out' == out
  {
    SecondPassMintsNothing(input, q, out, order, q');
    assert out.kept + [] == out.kept;
    StrictOrderIsUnique(out.kept, order');
    SamePicks(input, q, out, order);
    SameRunningSystems(input, q, out, order, q', out');
    StrictOrderIsUnique(out.kept, out'.kept);
  }

  // ------------------------------------------------------- two passes, with ties

  /** Choosing again, from what was kept of the first choice and more. */
  lemma ChosenAgain(all: seq<Deployment>, kept: seq<Deployment>, p: Deployment -> bool, n: nat,
                    chosen: seq<Deployment>, again: seq<Deployment>)
    requires IsNewest(all, p, n, chosen) && IsNewest(kept, p, n, again)
    requires DistinctUuids(chosen) && DistinctUuids(again)
    requires (forall d :: d in chosen ==> d in kept) && forall d :: d in kept ==> d in all
    ensures |again| == |chosen|
  {
    NewestCount(all, p, n, chosen);
    NewestCount(kept, p, n, again);
    assert chosen[..|chosen|] == chosen;
    PrefixCardinality(chosen, |chosen|);
    SubsetCardinality(Members(chosen), Eligible(kept, p));
    SubsetCardinality(Eligible(kept, p), Eligible(all, p));
  }

  lemma PathsChosenAgain(all: seq<Deployment>, kept: seq<Deployment>, p: Deployment -> bool, n: nat,
                         chosen: seq<Deployment>, again: seq<Deployment>)
    requires IsNewestPerStorepath(all, p, n, chosen) && IsNewestPerStorepath(kept, p, n, again)
    requires (forall d :: d in chosen ==> d in kept) && forall d :: d in kept ==> d in all
    ensures |again| == |chosen|
  {
    NewestPathCount(all, p, n, chosen);
    NewestPathCount(kept, p, n, again);
    StorepathCardinality(chosen);
    SubsetCardinality(Storepaths(chosen), EligiblePaths(kept, p));
    SubsetCardinality(EligiblePaths(kept, p), EligiblePaths(all, p));
  }

  /** The three lists have as many entries as before. */
  ghost predicate SameLengths(out: Outcome, out': Outcome) {
    && |out'.bootEntries| == |out.bootEntries| && |out'.successful| == |out.successful| && |out'.any| == |out.any|
  }

  lemma SecondListsAreAsLong(all: seq<Deployment>, q: Request, out: Outcome, q': Request, out': Outcome)
    requires IsRetention(all, q, out) && IsRetention(out.kept, q', out') && SameRequest(q, q') && WithCapacities(q)
    requires forall d :: d in out.kept ==> d in all
    ensures SameLengths(out, out')
  {
    PathsChosenAgain(all, out.kept, SucceededBootEntry, q.caps.bootEntry, out.bootEntries, out'.bootEntries);
    ChosenAgain(all, out.kept, Succeeded, q.caps.successful, out.successful, out'.successful);
    ChosenAgain(all, out.kept, Anything, q.caps.any, out.any, out'.any);
  }

  /** What the second pass keeps was kept by the first; nothing is lost while the
      "any" list is not full. */
  lemma SecondKeeps(all: seq<Deployment>, q: Request, out: Outcome, q': Request, out': Outcome)
    requires IsRetention(all, q, out) && IsRetention(out.kept, q', out') && SameRequest(q, q')
    requires SameLengths(out, out')
    ensures forall d :: d in out'.kept ==> d in out.kept
    ensures |out.any| < q.caps.any ==> multiset(out'.kept) == multiset(out.kept)
  {
    if |out.any| < q.caps.any {
      assert forall d :: d in out.kept ==> d in out'.any;
      SameMembersSameMultiset(out'.kept, out.kept);
    }
  }

  lemma FirstPass(input: seq<Deployment>, q: Request, out: Outcome, order: seq<Deployment>)
    requires Fresh(input, q) && DistinctUuids(input) && WithCapacities(q) && Retains(input, q, out, order)
    ensures IsRetention(input + Minted(input, q), q, out)
    ensures forall d :: d in out.kept ==> d in input + Minted(input, q)
  {
    RetentionIsDeclarative(input, q, out, order);
    KeptIsWellFormed(input, q, out, order);
    SameMembers(order, input + Minted(input, q));
  }

  lemma PassOverKept(input: seq<Deployment>, q: Request, out: Outcome, order: seq<Deployment>,
                     q': Request, out': Outcome, order': seq<Deployment>)
    requires Fresh(input, q) && DistinctUuids(input) && WithCapacities(q) && Retains(input, q, out, order)
    requires SameRequest(q, q') && Fresh(out.kept, q') && Retains(out.kept, q', out', order')
    ensures IsRetention(out.kept, q', out')
  {
    SecondPassMintsNothing(input, q, out, order, q');
    KeptIsWellFormed(input, q, out, order);
    RetentionIsDeclarative(out.kept, q', out', order');
    assert out.kept + [] == out.kept;
  }

  /** Two passes over any list without repeated UUIDs, with any ties: the second
      mints nothing and fills lists of the same lengths from what the first kept. */
  lemma SecondPass(input: seq<Deployment>, q: Request, out: Outcome, order: seq<Deployment>,
                   q': Request, out': Outcome, order': seq<Deployment>)
    requires Fresh(input, q) && DistinctUuids(input) && WithCapacities(q) && Retains(input, q, out, order)
    requires SameRequest(q, q') && Fresh(out.kept, q') && Retains(out.kept, q', out', order')
    ensures SameLengths(out, out') && forall d :: d in out'.kept ==> d in out.kept
    ensures |out.any| < q.caps.any ==> multiset(out'.kept) == multiset(out.kept)
  {
    var all := input + Minted(input, q);
    FirstPass(input, q, out, order);
    PassOverKept(input, q, out, order, q', out', order');
    SecondListsAreAsLong(all, q, out, q', out');
    SecondKeeps(all, q, out, q', out');
  }

  /** Two passes in a row. The second mints nothing, and its lists are as long as
      those of the first. It keeps nothing new; it keeps everything while the "any"
      list is not full, and returns the same outcome when the kept creation times
      are distinct. A full list may change among deployments of the same age. */
  method RetainTwice(input: seq<Deployment>, q: Request, q': Request) returns (first: Outcome, second: Outcome)
    requires DistinctUuids(input) && WithCapacities(q) && SameRequest(q, q') && Fresh(input, q)
    requires Fresh(input, q') && {q.bootedDummy, q.switchedDummy} !! {q'.bootedDummy, q'.switchedDummy}
    ensures IsRetained(input, q, first) && IsRetained(first.kept, q', second)
    ensures Minted(first.kept, q') == [] && SameLengths(first, second)
    ensures forall d :: d in second.kept ==> d in first.kept
    ensures |first.any| < q.caps.any ==> multiset(second.kept) == multiset(first.kept)
    ensures StrictlyNewestFirst(first.kept) ==> second == first
  {
    first := Retain(input, q);
    ghost var order :| Retains(input, q, first, order);
    KeptUuids(input, q, first, order);
    second := Retain(first.kept, q');
    ghost var order' :| Retains(first.kept, q', second, order');
    SecondPassMintsNothing(input, q, first, order, q');
    SecondPass(input, q, first, order, q', second, order');
    if StrictlyNewestFirst(first.kept) {
      RetentionIsIdempotent(input, q, first, order, q', second, order');
    }
  }

  lemma KeptUuids(input: seq<Deployment>, q: Request, out: Outcome, order: seq<Deployment>)
    requires WithCapacities(q) && Retains(input, q, out, order)
    ensures Uuids(out.kept) <= Uuids(input) + {q.bootedDummy, q.switchedDummy}
  {
    KeptIsWellFormed(input, q, out, order);
    OrderUuids(input, q, order);
  }

  lemma OrderUuids(input: seq<Deployment>, q: Request, order: seq<Deployment>)
    requires multiset(order) == multiset(input + Minted(input, q))
    ensures forall d :: d in order ==> d.uuid in Uuids(input) + {q.bootedDummy, q.switchedDummy}
  {
    SameMembers(order, input + Minted(input, q));
    MintedAre(input, q);
    assert forall d :: d in Minted(input, q) ==> d == BootedDummy(q) || d == SwitchedDummy(q);
  }
}
