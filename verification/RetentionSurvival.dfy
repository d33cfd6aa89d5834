/** Which deployments survive a retention pass. */
module RetentionSurvival {
  import opened Deployments
  import opened Retention
  import opened RetentionLaws
  import opened RetentionStability

  /** d is the newest deployment of s, without a rival, and owns its UUID. */
  ghost predicate Leads(s: seq<Deployment>, d: Deployment) {
    d in s && forall e :: e in s ==> e == d || (e.createdAt < d.createdAt && e.uuid != d.uuid)
  }

  /** The newest deployment survives a pass and stays the newest. */
  lemma NewestSurvives(input: seq<Deployment>, q: Request, out: Outcome, order: seq<Deployment>, d: Deployment)
    requires Fresh(input, q) && Retains(input, q, out, order) && WithCapacities(q) && q.caps.any >= 1
    requires Leads(input, d) && d.createdAt > 0
    ensures Leads(out.kept, d) && out.kept[0] == d
  {
    LeadsTheOrder(input, q, order, d);
    LeaderIsFirst(order, d);
    PickAnyIsPrefix(order, q.caps.any);
    var any := Pick(order, AnyRule(q.caps.any));
    assert d in any;
    MergeUuids([], any);
    KeptIsWellFormed(input, q, out, order);
    assert d.uuid in Uuids(out.any);
    LeadsTheKept(order, out.kept, d);
    LeaderIsFirst(out.kept, d);
  }

  lemma LeadsTheOrder(input: seq<Deployment>, q: Request, order: seq<Deployment>, d: Deployment)
    requires Fresh(input, q) && multiset(order) == multiset(input + Minted(input, q))
    requires Leads(input, d) && d.createdAt > 0
    ensures Leads(order, d)
  {
    SameMembers(order, input + Minted(input, q));
    assert d.uuid in Uuids(input);
    assert forall e :: e in Minted(input, q) ==> e == BootedDummy(q) || e == SwitchedDummy(q);
  }

  lemma LeadsTheKept(order: seq<Deployment>, kept: seq<Deployment>, d: Deployment)
    requires Leads(order, d) && d.uuid in Uuids(kept) && forall e :: e in kept ==> e in order
    ensures Leads(kept, d)
  {
  }

  lemma LeaderIsFirst(s: seq<Deployment>, d: Deployment)
    requires NewestFirst(s) && Leads(s, d)
    ensures s[0] == d
  {
    var i :| 0 <= i < |s| && s[i] == d;
    assert s[0] in s;
  }

  /** The deployments created after d. */
  ghost function NewerThan(s: seq<Deployment>, d: Deployment): set<Deployment> {
    set e | e in s && e.createdAt > d.createdAt
  }

  /** Only d may be visited more than once. */
  ghost predicate DistinctBut(s: seq<Deployment>, d: Deployment) {
    forall i, j :: 0 <= i < j < |s| && s[i].uuid == s[j].uuid ==> s[i] == d && s[j] == d
  }

  /** No other deployment was created at the same time as d. */
  ghost predicate NoRival(s: seq<Deployment>, d: Deployment) {
    forall e :: e in s ==> e == d || e.createdAt != d.createdAt
  }

  /** An unfinished deployment is kept exactly while fewer deployments than the
      "any" capacity are newer: nothing else protects it, so a clock that went
      backwards can cost the deployment in progress its place. This holds also
      for the passes that follow an update of d, which visit it twice. */
  lemma UnfinishedSurvivesIff(input: seq<Deployment>, q: Request, out: Outcome, order: seq<Deployment>, d: Deployment)
    requires Fresh(input, q) && DistinctBut(input, d) && Retains(input, q, out, order)
    requires d in input && d.status != Done && d.createdAt >= 0 && NoRival(input + Minted(input, q), d)
    ensures d in out.kept <==> |NewerThan(input, d)| < q.caps.any
    ensures d in out.kept ==> NewerThan(out.kept, d) == NewerThan(input, d)
  {
    OrderHasOneMore(input, q, order, d);
    DistinctButIsConsistent(input, d);
    var i := FirstOf(order, d);
    OnlyAnyKeepsUnfinished(input, q, out, order, d);
    FirstInPrefix(order, i, d, q.caps.any);
    NewerAreBefore(order, i, d);
    BeforeIsDistinct(order, i, d);
    PrefixCardinality(order, i);
    if i < q.caps.any {
      NewerAreKept(input, q, out, order, i, d);
    }
  }

  lemma DistinctButIsConsistent(s: seq<Deployment>, d: Deployment)
    requires DistinctBut(s, d)
    ensures ConsistentUuids(s)
  {
    forall a, b | a in s && b in s && a.uuid == b.uuid ensures a == b {
      var i :| 0 <= i < |s| && s[i] == a;
      var j :| 0 <= j < |s| && s[j] == b;
    }
  }

  /** The visited order: the input, and dummies older than d. */
  lemma OrderHasOneMore(input: seq<Deployment>, q: Request, order: seq<Deployment>, d: Deployment)
    requires Fresh(input, q) && DistinctBut(input, d) && d in input && d.createdAt >= 0
    requires multiset(order) == multiset(input + Minted(input, q)) && NoRival(input + Minted(input, q), d)
    ensures d in order && DistinctBut(order, d) && NoRival(order, d)
    ensures NewerThan(input, d) == NewerThan(order, d)
  {
    var m := Minted(input, q);
    MintedAre(input, q);
    SameMembers(order, input + m);
    MintedKeepDistinct(input, q, order, d);
    OldAreNotNewer(input, m, order, d);
  }

  lemma MintedKeepDistinct(input: seq<Deployment>, q: Request, order: seq<Deployment>, d: Deployment)
    requires Fresh(input, q) && DistinctBut(input, d) && multiset(order) == multiset(input + Minted(input, q))
    ensures DistinctBut(order, d)
  {
    MintedAre(input, q);
    DistinctButAppended(input, Minted(input, q), d);
    DistinctButIsPermutable(input + Minted(input, q), order, d);
  }

  lemma OldAreNotNewer(s: seq<Deployment>, m: seq<Deployment>, order: seq<Deployment>, d: Deployment)
    requires forall e :: e in order <==> e in s + m
    requires d.createdAt >= 0 && forall e :: e in m ==> e.createdAt == 0
    ensures NewerThan(s, d) == NewerThan(order, d)
  {
  }

  lemma DistinctButAppended(s: seq<Deployment>, m: seq<Deployment>, d: Deployment)
    requires DistinctBut(s, d) && DistinctUuids(m)
    requires forall e :: e in m ==> e.uuid !in Uuids(s)
    ensures DistinctBut(s + m, d)
  {
    assert forall i :: 0 <= i < |s| ==> s[i].uuid in Uuids(s);
    assert forall i :: 0 <= i < |m| ==> m[i] in m;
  }

  lemma DistinctButIsPermutable(s: seq<Deployment>, t: seq<Deployment>, d: Deployment)
    requires DistinctBut(s, d) && multiset(s) == multiset(t)
    ensures DistinctBut(t, d)
  {
    SameMembers(s, t);
    DistinctButIsConsistent(s, d);
    forall i, j | 0 <= i < j < |t| && t[i].uuid == t[j].uuid ensures t[i] == d && t[j] == d {
      assert t[i] in s && t[j] in s;
      if t[i] != d {
        TwiceInMultiset(t, i, j);
        OthersOccurOnce(s, d, t[i]);
      }
    }
  }

  lemma OthersOccurOnce(s: seq<Deployment>, d: Deployment, e: Deployment)
    requires DistinctBut(s, d) && e in s && e != d
    ensures multiset(s)[e] == 1
  {
    var i :| 0 <= i < |s| && s[i] == e;
    assert s == s[..i] + [e] + s[i + 1..];
    assert e !in s[..i] && e !in s[i + 1..];
  }

  function FirstOf(s: seq<Deployment>, d: Deployment): (i: nat)
    requires d in s
    ensures i < |s| && s[i] == d && forall k :: 0 <= k < i ==> s[k] != d
  {
    if s[0] == d then 0 else 1 + FirstOf(s[1..], d)
  }

  lemma NewerAreBefore(order: seq<Deployment>, i: nat, d: Deployment)
    requires NewestFirst(order) && NoRival(order, d)
    requires i < |order| && order[i] == d && forall k :: 0 <= k < i ==> order[k] != d
    ensures NewerThan(order, d) == Members(order[..i])
  {
    assert forall j :: 0 <= j < i ==> order[..i][j] == order[j];
    forall j | 0 <= j < |order| ensures order[j].createdAt > d.createdAt <==> j < i {
      assert order[j] in order;
    }
  }

  lemma BeforeIsDistinct(order: seq<Deployment>, i: nat, d: Deployment)
    requires DistinctBut(order, d) && i <= |order| && forall k :: 0 <= k < i ==> order[k] != d
    ensures DistinctUuids(order[..i])
  {
  }

  lemma FirstInPrefix(order: seq<Deployment>, i: nat, d: Deployment, n: int)
    requires i < |order| && order[i] == d && forall k :: 0 <= k < i ==> order[k] != d
    ensures d in Pick(order, AnyRule(n)) <==> i < n
  {
    PickAnyIsPrefix(order, n);
    var any := Pick(order, AnyRule(n));
    assert forall j :: 0 <= j < |any| ==> any[j] == order[j];
    assert i < n ==> any[i] == order[i];
  }

  /** With d, everything newer than d is kept. */
  lemma NewerAreKept(input: seq<Deployment>, q: Request, out: Outcome, order: seq<Deployment>, i: nat, d: Deployment)
    requires Fresh(input, q) && ConsistentUuids(input) && Retains(input, q, out, order)
    requires i < |order| && order[i] == d && i < q.caps.any
    requires NewerThan(order, d) == Members(order[..i])
    ensures NewerThan(out.kept, d) == NewerThan(order, d)
  {
    KeptMembers(input, q, out, order);
    KeptIsVisited(input, q, out, order);
    PickAnyIsPrefix(order, q.caps.any);
    var any := Pick(order, AnyRule(q.caps.any));
    assert forall e :: e in order[..i] ==> e in any;
  }

  lemma KeptIsVisited(input: seq<Deployment>, q: Request, out: Outcome, order: seq<Deployment>)
    requires Retains(input, q, out, order)
    ensures forall e :: e in out.kept ==> e in order
  {
    GatheredOrigin(order, out.booted, out.switched, q.caps);
    SameMembers(out.kept, Gathered(order, out.booted, out.switched, q.caps));
  }

  lemma OnlyAnyKeepsUnfinished(input: seq<Deployment>, q: Request, out: Outcome, order: seq<Deployment>, d: Deployment)
    requires Fresh(input, q) && ConsistentUuids(input) && Retains(input, q, out, order)
    requires d.status != Done
    ensures d in out.kept <==> d in Pick(order, AnyRule(q.caps.any))
  {
    KeptMembers(input, q, out, order);
    PickSuccessfulIsNewest(order, q.caps.successful);
    PickBootEntryIsNewest(order, q.caps.bootEntry);
  }

  /** Between two deployments of the same age the sort decides: with a successful y
      and room for two, an unfinished x is kept by a pass that visits it first and
      dropped by one that does not. */
  lemma TiedPassDrops(b: Deployment, x: Deployment, y: Deployment, q: Request, out: Outcome, order: seq<Deployment>)
    requires DistinctUuids([b, x, y]) && Fresh([b, x, y], q) && Retains([b, x, y], q, out, order)
    requires BootedFrom(b, q.bootedPath) && SwitchedTo(b, q.switchedPath) && x.status != Done && y.status == Done
    requires b.createdAt > x.createdAt == y.createdAt && WithCapacities(q) && q.caps.any == 2 && q.caps.successful >= 2
    ensures order == [b, x, y] || order == [b, y, x]
    ensures b in out.kept && y in out.kept && (x in out.kept <==> order == [b, x, y])
  {
    MintsNothing([b, x, y], q, b, b);
    OrdersOfThree(b, x, y, order);
    TiedPicks(b, x, y, q, out, order);
    RetentionIsDeclarative([b, x, y], q, out, order);
    SuccessfulOfThree(b, x, y, q.caps.successful, out.successful);
  }

  lemma TiedPicks(b: Deployment, x: Deployment, y: Deployment, q: Request, out: Outcome, order: seq<Deployment>)
    requires DistinctUuids([b, x, y]) && Fresh([b, x, y], q) && Retains([b, x, y], q, out, order)
    requires x.status != Done && q.caps.any == 2 && (order == [b, x, y] || order == [b, y, x])
    ensures x in out.kept <==> order == [b, x, y]
  {
    TiedPrefix(b, x, y, order);
    OnlyAnyKeepsUnfinished([b, x, y], q, out, order, x);
  }

  lemma TiedPrefix(b: Deployment, x: Deployment, y: Deployment, order: seq<Deployment>)
    requires DistinctUuids([b, x, y]) && (order == [b, x, y] || order == [b, y, x])
    ensures ConsistentUuids([b, x, y]) && (x in Pick(order, AnyRule(2)) <==> order == [b, x, y])
  {
    var s := [b, x, y];
    assert s[0].uuid != s[1].uuid && s[0].uuid != s[2].uuid && s[1].uuid != s[2].uuid;
    PickAnyIsPrefix(order, 2);
    assert order[..2] == [order[0], order[1]];
  }

  lemma OrdersOfThree(b: Deployment, x: Deployment, y: Deployment, order: seq<Deployment>)
    requires NewestFirst(order) && multiset(order) == multiset([b, x, y])
    requires DistinctUuids([b, x, y]) && b.createdAt > x.createdAt == y.createdAt
    ensures order == [b, x, y] || order == [b, y, x]
  {
    SameMembers(order, [b, x, y]);
    DistinctIsPermutable([b, x, y], order);
    assert order[0] in order && order[1] in order && order[2] in order;
    assert b in [b, x, y] && x in [b, x, y] && y in [b, x, y];
  }

  lemma SuccessfulOfThree(b: Deployment, x: Deployment, y: Deployment, n: int, chosen: seq<Deployment>)
    requires IsNewest([b, x, y], Succeeded, n, chosen) && DistinctUuids(chosen) && n >= 2
    requires b.status == Done && x.status != Done && y.status == Done
    ensures b in chosen && y in chosen
  {
    assert b in [b, x, y] && y in [b, x, y];
    assert |chosen| >= 2 ==> chosen[0] in chosen && chosen[1] in chosen && chosen[0].uuid != chosen[1].uuid;
  }

  /** The survival of a new deployment does depend on the clock: dated before
      the only other deployment, it is dropped by the very pass it enters when
      the "any" capacity is one. */
  lemma ClockBackwardsDropsNew(input: seq<Deployment>, q: Request, out: Outcome, order: seq<Deployment>)
    requires |input| == 2 && DistinctUuids(input) && Fresh(input, q)
    requires BootedFrom(input[0], q.bootedPath) && SwitchedTo(input[0], q.switchedPath)
    requires input[1].status == Init && 0 <= input[1].createdAt < input[0].createdAt
    requires WithCapacities(q) && q.caps.any == 1 && Retains(input, q, out, order)
    ensures input[1] !in out.kept
  {
    MintsNothing(input, q, input[0], input[0]);
    NewerOfTwo(input);
    UnfinishedSurvivesIff(input, q, out, order, input[1]);
  }

  lemma NewerOfTwo(s: seq<Deployment>)
    requires |s| == 2 && s[1].createdAt < s[0].createdAt
    ensures s[1] in s && |NewerThan(s, s[1])| == 1 && NoRival(s, s[1])
  {
    assert s == [s[0], s[1]];
    assert NewerThan(s, s[1]) == {s[0]};
  }

  lemma ClockBackwardsExample(out: Outcome, order: seq<Deployment>)
    requires Retains([Deployment("a", "p", Switch, Done, 10, true, ""), Deployment("b", "q", Test, Init, 5, false, "")],
                     Request("p", "p", Capacities(1, 1, 1), "x", "y"), out, order)
    ensures Deployment("b", "q", Test, Init, 5, false, "") !in out.kept
  {
    var a, b := Deployment("a", "p", Switch, Done, 10, true, ""), Deployment("b", "q", Test, Init, 5, false, "");
    assert a.uuid[0] == 'a' && b.uuid[0] == 'b' && "x"[0] == 'x' && "y"[0] == 'y';
    ClockBackwardsDropsNew([a, b], Request("p", "p", Capacities(1, 1, 1), "x", "y"), out, order);
  }
}
