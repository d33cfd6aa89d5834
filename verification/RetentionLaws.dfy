/** What a retention pass guarantees, stated without its loops. */
module RetentionLaws {
  import opened Common
  import opened Deployments
  import opened Retention

  // --------------------------------------------------------- accumulated lists

  lemma AddUniqueUuids(s: seq<Deployment>, d: Deployment)
    ensures Uuids(AddUnique(s, d)) == Uuids(s) + {d.uuid}
    ensures DistinctUuids(s) ==> DistinctUuids(AddUnique(s, d))
  {
    if d.uuid !in Uuids(s) {
      assert forall e :: e in s + [d] <==> e in s || e == d;
      assert forall i :: 0 <= i < |s| ==> s[i].uuid in Uuids(s);
    }
  }

  lemma {:induction false} MergeUuids(s: seq<Deployment>, ds: seq<Deployment>)
    ensures Uuids(Merge(s, ds)) == Uuids(s) + Uuids(ds)
    ensures DistinctUuids(s) ==> DistinctUuids(Merge(s, ds))
  {
    if ds != [] {
      var front, d := ds[..|ds| - 1], ds[|ds| - 1];
      MergeUuids(s, front);
      AddUniqueUuids(Merge(s, front), d);
      assert Uuids(ds) == Uuids(front) + {d.uuid} by {
        assert forall e :: e in ds <==> e in front || e == d;
      }
    }
  }

  lemma {:induction false} MergeOrigin(s: seq<Deployment>, ds: seq<Deployment>)
    ensures forall d :: d in Merge(s, ds) ==> d in s || d in ds
    ensures forall d :: d in s ==> d in Merge(s, ds)
  {
    if ds != [] {
      MergeOrigin(s, ds[..|ds| - 1]);
    }
  }

  /** Where a UUID determines its deployment, merging is a union. */
  lemma MergeMembers(all: seq<Deployment>, s: seq<Deployment>, ds: seq<Deployment>)
    requires ConsistentUuids(all)
    requires forall d :: d in s || d in ds ==> d in all
    ensures forall d :: d in Merge(s, ds) <==> d in s || d in ds
  {
    MergeUuids(s, ds);
    MergeOrigin(s, ds);
    forall d | d in ds ensures d in Merge(s, ds) {
      assert d.uuid in Uuids(Merge(s, ds));
      var e :| e in Merge(s, ds) && e.uuid == d.uuid;
      assert e in all && d in all;
    }
  }

  lemma DistinctFront(s: seq<Deployment>, d: Deployment)
    requires DistinctUuids(s + [d])
    ensures DistinctUuids(s) && d.uuid !in Uuids(s)
  {
    var t := s + [d];
    assert forall i :: 0 <= i < |s| ==> s[i] == t[i] && t[i].uuid != t[|s|].uuid;
  }

  lemma {:induction false} MergeDistinct(s: seq<Deployment>, ds: seq<Deployment>)
    requires DistinctUuids(s + ds)
    ensures Merge(s, ds) == s + ds
  {
    if ds != [] {
      var front, d := ds[..|ds| - 1], ds[|ds| - 1];
      assert s + ds == (s + front) + [d];
      DistinctFront(s + front, d);
      MergeDistinct(s, front);
    } else {
      assert s + ds == s;
    }
  }

  // ------------------------------------------------------------------ picks

  lemma {:induction false} PickMembers(order: seq<Deployment>, rule: Rule)
    ensures forall d :: d in Pick(order, rule) ==> d in order
  {
    if order != [] {
      PickMembers(order[..|order| - 1], rule);
    }
  }

  lemma {:induction false} PickDistinct(order: seq<Deployment>, rule: Rule)
    requires DistinctUuids(order)
    ensures DistinctUuids(Pick(order, rule))
  {
    if order != [] {
      var front, d := order[..|order| - 1], order[|order| - 1];
      PickDistinct(front, rule);
      PickMembers(front, rule);
      var before := Pick(front, rule);
      assert forall i :: 0 <= i < |before| ==> before[i] in front;
      assert forall e :: e in front ==> e.uuid != d.uuid;
    }
  }

  lemma {:induction false} PickNewestFirst(order: seq<Deployment>, rule: Rule)
    requires NewestFirst(order)
    ensures NewestFirst(Pick(order, rule))
  {
    if order != [] {
      var front, d := order[..|order| - 1], order[|order| - 1];
      PickNewestFirst(front, rule);
      PickMembers(front, rule);
      var before := Pick(front, rule);
      assert forall i :: 0 <= i < |before| ==> before[i] in front;
      assert forall e :: e in front ==> d.createdAt <= e.createdAt;
    }
  }

  lemma {:induction false} PickBound(order: seq<Deployment>, rule: Rule, n: int)
    requires Bounded(rule, n)
    ensures |Pick(order, rule)| <= if n < 0 then 0 else n
  {
    if order != [] {
      PickBound(order[..|order| - 1], rule, n);
    }
  }

  /** `chosen` is a choice of the newest n deployments satisfying p: nothing
      eligible is left out unless n are chosen already, none of them older. */
  ghost predicate IsNewest(all: seq<Deployment>, p: Deployment -> bool, n: int, chosen: seq<Deployment>) {
    && |chosen| <= (if n < 0 then 0 else n)
    && (forall d :: d in chosen ==> d in all && p(d))
    && (forall d :: d in all && p(d) && d !in chosen ==>
          n <= |chosen| && forall c :: c in chosen ==> d.createdAt <= c.createdAt)
  }

  /** `chosen` holds the newest deployment of each of the newest n storepaths:
      one deployment per storepath, none of that storepath newer, and a storepath
      is left out only when n are chosen already, none of them older. */
  ghost predicate IsNewestPerStorepath(all: seq<Deployment>, p: Deployment -> bool, n: int, chosen: seq<Deployment>) {
    && |chosen| <= (if n < 0 then 0 else n)
    && (forall d :: d in chosen ==> d in all && p(d))
    && (forall i, j :: 0 <= i < j < |chosen| ==> chosen[i].storepath != chosen[j].storepath)
    && (forall c, d :: c in chosen && d in all && p(d) && d.storepath == c.storepath ==> d.createdAt <= c.createdAt)
    && (forall d :: d in all && p(d) && d.storepath !in Storepaths(chosen) ==>
          n <= |chosen| && forall c :: c in chosen ==> d.createdAt <= c.createdAt)
  }

  predicate Succeeded(d: Deployment) {
    d.status == Done
  }

  predicate SucceededBootEntry(d: Deployment) {
    IsBootEntry(d) && d.status == Done
  }

  predicate Anything(d: Deployment) {
    true
  }

  lemma {:induction false} PickSuccessfulIsNewest(order: seq<Deployment>, n: int)
    requires NewestFirst(order)
    ensures IsNewest(order, Succeeded, n, Pick(order, SuccessfulRule(n)))
  {
    if order != [] {
      var front, d := order[..|order| - 1], order[|order| - 1];
      PickSuccessfulIsNewest(front, n);
      assert forall e :: e in front ==> d.createdAt <= e.createdAt;
      assert order == front + [d];
      NewestNext(front, Succeeded, n, Pick(front, SuccessfulRule(n)), d);
    }
  }

  /** Visiting one more deployment, none newer. */
  lemma NewestNext(all: seq<Deployment>, p: Deployment -> bool, n: int, chosen: seq<Deployment>, d: Deployment)
    requires IsNewest(all, p, n, chosen)
    requires forall e :: e in all ==> d.createdAt <= e.createdAt
    ensures IsNewest(all + [d], p, n, if |chosen| < n && p(d) then chosen + [d] else chosen)
  {
    assert forall e :: e in all + [d] <==> e in all || e == d;
    assert forall e :: e in chosen + [d] <==> e in chosen || e == d;
  }

  lemma {:induction false} PickAnyIsPrefix(order: seq<Deployment>, n: int)
    ensures Pick(order, AnyRule(n)) == if n < 0 then [] else if n < |order| then order[..n] else order
  {
    if order != [] {
      PickAnyIsPrefix(order[..|order| - 1], n);
    }
  }

  lemma PickAnyIsNewest(order: seq<Deployment>, n: int)
    requires NewestFirst(order)
    ensures IsNewest(order, Anything, n, Pick(order, AnyRule(n)))
  {
    PickAnyIsPrefix(order, n);
    var chosen := Pick(order, AnyRule(n));
    assert forall j :: 0 <= j < |chosen| ==> chosen[j] == order[j];
    forall d | d in order && d !in chosen
      ensures n <= |chosen| && forall c :: c in chosen ==> d.createdAt <= c.createdAt
    {
      var j :| 0 <= j < |order| && order[j] == d;
    }
  }

  lemma {:induction false} PickBootEntryIsNewest(order: seq<Deployment>, n: int)
    requires NewestFirst(order)
    ensures IsNewestPerStorepath(order, SucceededBootEntry, n, Pick(order, BootEntryRule(n)))
  {
    if order != [] {
      var front, d := order[..|order| - 1], order[|order| - 1];
      PickBootEntryIsNewest(front, n);
      var before := Pick(front, BootEntryRule(n));
      assert forall c :: c in before ==> d.createdAt <= c.createdAt;
      assert order == front + [d];
      if BootEntryRule(n)(before, d) {
        NewestPerStorepathTake(front, SucceededBootEntry, n, before, d);
      } else {
        NewestPerStorepathSkip(front, SucceededBootEntry, n, before, d);
      }
    }
  }

  /** Visiting one more deployment, none newer, that is not taken. */
  lemma NewestPerStorepathSkip(all: seq<Deployment>, p: Deployment -> bool, n: int, chosen: seq<Deployment>,
                               d: Deployment)
    requires IsNewestPerStorepath(all, p, n, chosen)
    requires forall c :: c in chosen ==> d.createdAt <= c.createdAt
    requires !(|chosen| < n && p(d) && d.storepath !in Storepaths(chosen))
    ensures IsNewestPerStorepath(all + [d], p, n, chosen)
  {
    assert forall e :: e in all + [d] <==> e in all || e == d;
  }

  /** The same, for one that is taken. */
  lemma NewestPerStorepathTake(all: seq<Deployment>, p: Deployment -> bool, n: int, chosen: seq<Deployment>,
                               d: Deployment)
    requires IsNewestPerStorepath(all, p, n, chosen)
    requires forall c :: c in chosen ==> d.createdAt <= c.createdAt
    requires |chosen| < n && p(d) && d.storepath !in Storepaths(chosen)
    ensures IsNewestPerStorepath(all + [d], p, n, chosen + [d])
  {
    var more := chosen + [d];
    assert forall i :: 0 <= i < |chosen| ==> chosen[i].storepath in Storepaths(chosen);
    StorepathsNext(chosen, d);
    assert forall e :: e in more <==> e in chosen || e == d;
    assert forall e :: e in all + [d] <==> e in all || e == d;
    forall e | e in all && p(e) ensures e.storepath in Storepaths(chosen) {
      assert e.storepath !in Storepaths(chosen) ==> n <= |chosen|;
    }
  }

  // ------------------------------------------------------- lengths of choices

  ghost function Members(s: seq<Deployment>): set<Deployment> {
    set e | e in s
  }

  lemma {:induction false} PrefixCardinality(s: seq<Deployment>, i: nat)
    requires i <= |s| && DistinctUuids(s[..i])
    ensures |Members(s[..i])| == i
  {
    if i == 0 {
      assert Members(s[..0]) == {};
    } else {
      var front, d := s[..i - 1], s[i - 1];
      assert front == s[..i][..i - 1];
      PrefixCardinality(s, i - 1);
      MembersNext(s, i);
      assert d !in front by {
        assert forall k :: 0 <= k < i - 1 ==> s[..i][k].uuid != s[..i][i - 1].uuid;
      }
    }
  }

  lemma MembersNext(s: seq<Deployment>, i: nat)
    requires 0 < i <= |s|
    ensures Members(s[..i]) == Members(s[..i - 1]) + {s[i - 1]}
  {
    assert s[..i] == s[..i - 1] + [s[i - 1]];
    assert forall e :: e in s[..i] <==> e in s[..i - 1] || e == s[i - 1];
  }

  lemma SubsetCardinality<T>(a: set<T>, b: set<T>)
    requires a <= b
    ensures |a| <= |b| && (|a| == |b| ==> a == b)
  {
    assert b == a + (b - a);
  }

  ghost function Eligible(all: seq<Deployment>, p: Deployment -> bool): set<Deployment> {
    set e | e in all && p(e)
  }

  /** A choice of the newest n has n members, or all there are. */
  lemma NewestCount(all: seq<Deployment>, p: Deployment -> bool, n: nat, chosen: seq<Deployment>)
    requires IsNewest(all, p, n, chosen) && DistinctUuids(chosen)
    ensures |chosen| == if n < |Eligible(all, p)| then n else |Eligible(all, p)|
  {
    assert chosen[..|chosen|] == chosen;
    PrefixCardinality(chosen, |chosen|);
    SubsetCardinality(Members(chosen), Eligible(all, p));
    if Members(chosen) != Eligible(all, p) {
      var d :| d in Eligible(all, p) && d !in Members(chosen);
      assert n <= |chosen|;
    }
  }

  ghost function EligiblePaths(all: seq<Deployment>, p: Deployment -> bool): set<Path> {
    set e | e in all && p(e) :: e.storepath
  }

  lemma {:induction false} StorepathCardinality(s: seq<Deployment>)
    requires forall i, j :: 0 <= i < j < |s| ==> s[i].storepath != s[j].storepath
    ensures |Storepaths(s)| == |s|
  {
    if s != [] {
      var front, d := s[..|s| - 1], s[|s| - 1];
      assert s == front + [d];
      StorepathCardinality(front);
      StorepathsNext(front, d);
      assert forall i :: 0 <= i < |front| ==> front[i].storepath != d.storepath;
    }
  }

  /** The same for one deployment per storepath. */
  lemma NewestPathCount(all: seq<Deployment>, p: Deployment -> bool, n: nat, chosen: seq<Deployment>)
    requires IsNewestPerStorepath(all, p, n, chosen)
    ensures |chosen| == if n < |EligiblePaths(all, p)| then n else |EligiblePaths(all, p)|
  {
    StorepathCardinality(chosen);
    SubsetCardinality(Storepaths(chosen), EligiblePaths(all, p));
    if Storepaths(chosen) != EligiblePaths(all, p) {
      var path :| path in EligiblePaths(all, p) && path !in Storepaths(chosen);
      assert n <= |chosen|;
    }
  }

  // ----------------------------------------------------------- what is kept

  lemma PicksAreBounded(order: seq<Deployment>, caps: Capacities)
    requires caps.bootEntry >= 0 && caps.successful >= 0 && caps.any >= 0
    ensures |Pick(order, BootEntryRule(caps.bootEntry))| <= caps.bootEntry
    ensures |Pick(order, SuccessfulRule(caps.successful))| <= caps.successful
    ensures |Pick(order, AnyRule(caps.any))| <= caps.any
  {
    PickBound(order, BootEntryRule(caps.bootEntry), caps.bootEntry);
    PickBound(order, SuccessfulRule(caps.successful), caps.successful);
    PickBound(order, AnyRule(caps.any), caps.any);
  }

  lemma GatheredUuids(order: seq<Deployment>, booted: Deployment, switched: Deployment, caps: Capacities)
    ensures var g := Gathered(order, booted, switched, caps);
      && DistinctUuids(g)
      && Uuids(g) == {booted.uuid, switched.uuid} + Uuids(Pick(order, BootEntryRule(caps.bootEntry)))
           + Uuids(Pick(order, SuccessfulRule(caps.successful))) + Uuids(Pick(order, AnyRule(caps.any)))
  {
    var two := AddUnique([booted], switched);
    AddUniqueUuids([booted], switched);
    assert Uuids([booted]) == {booted.uuid};
    var three := Merge(two, Pick(order, BootEntryRule(caps.bootEntry)));
    MergeUuids(two, Pick(order, BootEntryRule(caps.bootEntry)));
    MergeUuids(three, Pick(order, SuccessfulRule(caps.successful)));
    MergeUuids(Merge(three, Pick(order, SuccessfulRule(caps.successful))), Pick(order, AnyRule(caps.any)));
  }

  lemma GatheredOrigin(order: seq<Deployment>, booted: Deployment, switched: Deployment, caps: Capacities)
    requires booted in order && switched in order
    ensures var g := Gathered(order, booted, switched, caps); booted in g && forall d :: d in g ==> d in order
  {
    PickMembers(order, BootEntryRule(caps.bootEntry));
    PickMembers(order, SuccessfulRule(caps.successful));
    PickMembers(order, AnyRule(caps.any));
    var two := AddUnique([booted], switched);
    assert booted in two;
    MergeThreeOrigin(order, two, Pick(order, BootEntryRule(caps.bootEntry)),
                     Pick(order, SuccessfulRule(caps.successful)), Pick(order, AnyRule(caps.any)));
  }

  lemma MergeThreeOrigin(all: seq<Deployment>, s: seq<Deployment>, a: seq<Deployment>, b: seq<Deployment>,
                         c: seq<Deployment>)
    requires forall d :: d in s || d in a || d in b || d in c ==> d in all
    ensures forall d :: d in Merge(Merge(Merge(s, a), b), c) ==> d in all
    ensures forall d :: d in s ==> d in Merge(Merge(Merge(s, a), b), c)
  {
    MergeOrigin(s, a);
    MergeOrigin(Merge(s, a), b);
    MergeOrigin(Merge(Merge(s, a), b), c);
  }

  lemma GatheredMembers(order: seq<Deployment>, booted: Deployment, switched: Deployment, caps: Capacities)
    requires booted in order && switched in order && ConsistentUuids(order)
    ensures forall d :: d in Gathered(order, booted, switched, caps) <==>
      || d == booted || d == switched || d in Pick(order, BootEntryRule(caps.bootEntry))
      || d in Pick(order, SuccessfulRule(caps.successful)) || d in Pick(order, AnyRule(caps.any))
  {
    var boot, successful, any :=
      Pick(order, BootEntryRule(caps.bootEntry)), Pick(order, SuccessfulRule(caps.successful)),
      Pick(order, AnyRule(caps.any));
    PickMembers(order, BootEntryRule(caps.bootEntry));
    PickMembers(order, SuccessfulRule(caps.successful));
    PickMembers(order, AnyRule(caps.any));
    var two := AddUnique([booted], switched);
    assert forall d :: d in two <==> d == booted || d == switched by {
      assert booted in order && switched in order;
    }
    MergeThree(order, two, boot, successful, any);
  }

  lemma MergeThree(all: seq<Deployment>, s: seq<Deployment>, a: seq<Deployment>, b: seq<Deployment>, c: seq<Deployment>)
    requires ConsistentUuids(all)
    requires forall d :: d in s || d in a || d in b || d in c ==> d in all
    ensures forall d :: d in Merge(Merge(Merge(s, a), b), c) <==> d in s || d in a || d in b || d in c
  {
    MergeMembers(all, s, a);
    MergeMembers(all, Merge(s, a), b);
    MergeMembers(all, Merge(Merge(s, a), b), c);
  }

  lemma ListsAreWellFormed(order: seq<Deployment>, rule: Rule, n: nat)
    requires Bounded(rule, n)
    ensures var list := Merge([], Pick(order, rule));
      DistinctUuids(list) && |list| <= n && Uuids(list) == Uuids(Pick(order, rule))
  {
    PickBound(order, rule, n);
    MergeUuids([], Pick(order, rule));
    assert Uuids([]) == {};
  }

  lemma GatheredBound(order: seq<Deployment>, booted: Deployment, switched: Deployment, caps: Capacities)
    requires caps.bootEntry >= 0 && caps.successful >= 0 && caps.any >= 0
    ensures |Gathered(order, booted, switched, caps)| <= 2 + caps.bootEntry + caps.successful + caps.any
  {
    PicksAreBounded(order, caps);
  }

  /** In every pass: identifiers are unique, the list is sorted and bounded, and
      every identifier the pass hands out resolves in the list. */
  lemma KeptIsWellFormed(input: seq<Deployment>, q: Request, out: Outcome, order: seq<Deployment>)
    requires Retains(input, q, out, order)
    requires q.caps.bootEntry >= 0 && q.caps.successful >= 0 && q.caps.any >= 0
    ensures DistinctUuids(out.kept) && NewestFirst(out.kept)
    ensures |out.kept| <= 2 + q.caps.bootEntry + q.caps.successful + q.caps.any
    ensures out.booted in out.kept && out.switched.uuid in Uuids(out.kept)
    ensures Uuids(out.bootEntries) + Uuids(out.successful) + Uuids(out.any) <= Uuids(out.kept)
    ensures forall d :: d in out.kept ==> d in order
    ensures DistinctUuids(out.bootEntries) && DistinctUuids(out.successful) && DistinctUuids(out.any)
    ensures |out.bootEntries| <= q.caps.bootEntry && |out.successful| <= q.caps.successful && |out.any| <= q.caps.any
  {
    ListsAreWellFormed(order, BootEntryRule(q.caps.bootEntry), q.caps.bootEntry);
    ListsAreWellFormed(order, SuccessfulRule(q.caps.successful), q.caps.successful);
    ListsAreWellFormed(order, AnyRule(q.caps.any), q.caps.any);
    KeptIsGathered(out.kept, order, out.booted, out.switched, q.caps);
  }

  lemma KeptIsGathered(kept: seq<Deployment>, order: seq<Deployment>, booted: Deployment, switched: Deployment,
                       caps: Capacities)
    requires caps.bootEntry >= 0 && caps.successful >= 0 && caps.any >= 0
    requires booted in order && switched in order
    requires multiset(kept) == multiset(Gathered(order, booted, switched, caps))
    ensures DistinctUuids(kept) && |kept| <= 2 + caps.bootEntry + caps.successful + caps.any
    ensures booted in kept && forall d :: d in kept ==> d in order
    ensures Uuids(kept) == {booted.uuid, switched.uuid} + Uuids(Pick(order, BootEntryRule(caps.bootEntry)))
           + Uuids(Pick(order, SuccessfulRule(caps.successful))) + Uuids(Pick(order, AnyRule(caps.any)))
  {
    var g := Gathered(order, booted, switched, caps);
    GatheredUuids(order, booted, switched, caps);
    GatheredOrigin(order, booted, switched, caps);
    GatheredBound(order, booted, switched, caps);
    SameMembers(kept, g);
    DistinctIsPermutable(g, kept);
  }

  lemma DistinctIsPermutable(s: seq<Deployment>, t: seq<Deployment>)
    requires DistinctUuids(s) && multiset(s) == multiset(t)
    ensures DistinctUuids(t)
  {
    SameMembers(s, t);
    forall i, j | 0 <= i < j < |t| ensures t[i].uuid != t[j].uuid {
      if t[i].uuid == t[j].uuid {
        assert t[i] in s && t[j] in s;
        assert t[i] == t[j];
        TwiceInMultiset(t, i, j);
        OnceInMultiset(s, t[i]);
      }
    }
  }

  lemma TwiceInMultiset(t: seq<Deployment>, i: nat, j: nat)
    requires i < j < |t| && t[i] == t[j]
    ensures multiset(t)[t[i]] >= 2
  {
    assert t == t[..i] + [t[i]] + t[i + 1..j] + [t[j]] + t[j + 1..];
  }

  lemma OnceInMultiset(s: seq<Deployment>, d: Deployment)
    requires DistinctUuids(s) && d in s
    ensures multiset(s)[d] == 1
  {
    var i :| 0 <= i < |s| && s[i] == d;
    assert s == s[..i] + [d] + s[i + 1..];
    assert d !in s[..i] && d !in s[i + 1..];
  }

  ghost predicate IsList(s: seq<Deployment>) {
    DistinctUuids(s) && NewestFirst(s)
  }

  /** The three lists: the newest deployments of each kind, none twice, in order. */
  ghost predicate AreRetentionLists(all: seq<Deployment>, caps: Capacities, out: Outcome) {
    && IsNewestPerStorepath(all, SucceededBootEntry, caps.bootEntry, out.bootEntries)
    && IsNewest(all, Succeeded, caps.successful, out.successful)
    && IsNewest(all, Anything, caps.any, out.any)
    && IsList(out.bootEntries) && IsList(out.successful) && IsList(out.any)
  }

  /** The declarative specification of retention. */
  ghost predicate IsRetention(all: seq<Deployment>, q: Request, out: Outcome) {
    && NewestBooted(all, q.bootedPath, out.booted)
    && NewestSwitched(all, q.switchedPath, out.switched)
    && AreRetentionLists(all, q.caps, out)
    && IsList(out.kept)
    && forall d :: d in out.kept <==>
         d == out.booted || d == out.switched || d in out.bootEntries || d in out.successful || d in out.any
  }

  lemma MintedAre(input: seq<Deployment>, q: Request)
    ensures var m := Minted(input, q);
      || m == [] || m == [BootedDummy(q)] || m == [SwitchedDummy(q)] || m == [BootedDummy(q), SwitchedDummy(q)]
  {
  }

  lemma MintedAreFresh(input: seq<Deployment>, q: Request)
    requires Fresh(input, q)
    ensures DistinctUuids(input) ==> DistinctUuids(input + Minted(input, q))
    ensures ConsistentUuids(input) ==> ConsistentUuids(input + Minted(input, q))
  {
    MintedAre(input, q);
    FreshAreDistinct(input, Minted(input, q));
  }

  lemma FreshAreDistinct(s: seq<Deployment>, m: seq<Deployment>)
    requires |m| <= 2 && DistinctUuids(m)
    requires forall d :: d in m ==> d.uuid !in Uuids(s)
    ensures DistinctUuids(s) ==> DistinctUuids(s + m)
    ensures ConsistentUuids(s) ==> ConsistentUuids(s + m)
  {
    assert forall i :: 0 <= i < |s| ==> s[i].uuid in Uuids(s);
    assert forall i :: 0 <= i < |m| ==> m[i] in m;
    assert forall d :: d in s + m <==> d in s || d in m;
  }

  /** Retention meets its declarative specification on every list in which no
      UUID occurs twice. */
  lemma RetentionIsDeclarative(input: seq<Deployment>, q: Request, out: Outcome, order: seq<Deployment>)
    requires Fresh(input, q) && DistinctUuids(input)
    requires q.caps.bootEntry >= 0 && q.caps.successful >= 0 && q.caps.any >= 0
    requires Retains(input, q, out, order)
    ensures IsRetention(input + Minted(input, q), q, out)
  {
    var all := input + Minted(input, q);
    MintedAreFresh(input, q);
    SameMembers(order, all);
    DistinctIsPermutable(all, order);
    ListsAreNewest(all, q, out, order);
    KeptIsWellFormed(input, q, out, order);
    KeptMembers(input, q, out, order);
  }

  lemma ListsAreNewest(all: seq<Deployment>, q: Request, out: Outcome, order: seq<Deployment>)
    requires DistinctUuids(order) && NewestFirst(order) && forall d :: d in order <==> d in all
    requires out.bootEntries == Merge([], Pick(order, BootEntryRule(q.caps.bootEntry)))
    requires out.successful == Merge([], Pick(order, SuccessfulRule(q.caps.successful)))
    requires out.any == Merge([], Pick(order, AnyRule(q.caps.any)))
    ensures AreRetentionLists(all, q.caps, out)
  {
    ListsAreThePicks(q, out, order);
    PicksAreLists(order, q.caps);
    PickSuccessfulIsNewest(order, q.caps.successful);
    PickAnyIsNewest(order, q.caps.any);
    PickBootEntryIsNewest(order, q.caps.bootEntry);
  }

  lemma PicksAreLists(order: seq<Deployment>, caps: Capacities)
    requires DistinctUuids(order) && NewestFirst(order)
    ensures IsList(Pick(order, BootEntryRule(caps.bootEntry)))
    ensures IsList(Pick(order, SuccessfulRule(caps.successful)))
    ensures IsList(Pick(order, AnyRule(caps.any)))
  {
    PickDistinct(order, BootEntryRule(caps.bootEntry));
    PickDistinct(order, SuccessfulRule(caps.successful));
    PickDistinct(order, AnyRule(caps.any));
    PickNewestFirst(order, BootEntryRule(caps.bootEntry));
    PickNewestFirst(order, SuccessfulRule(caps.successful));
    PickNewestFirst(order, AnyRule(caps.any));
  }

  lemma ListsAreThePicks(q: Request, out: Outcome, order: seq<Deployment>)
    requires DistinctUuids(order)
    requires out.bootEntries == Merge([], Pick(order, BootEntryRule(q.caps.bootEntry)))
    requires out.successful == Merge([], Pick(order, SuccessfulRule(q.caps.successful)))
    requires out.any == Merge([], Pick(order, AnyRule(q.caps.any)))
    ensures out.bootEntries == Pick(order, BootEntryRule(q.caps.bootEntry))
    ensures out.successful == Pick(order, SuccessfulRule(q.caps.successful))
    ensures out.any == Pick(order, AnyRule(q.caps.any))
  {
    PickDistinct(order, BootEntryRule(q.caps.bootEntry));
    PickDistinct(order, SuccessfulRule(q.caps.successful));
    PickDistinct(order, AnyRule(q.caps.any));
    MergeOntoNothing(Pick(order, BootEntryRule(q.caps.bootEntry)));
    MergeOntoNothing(Pick(order, SuccessfulRule(q.caps.successful)));
    MergeOntoNothing(Pick(order, AnyRule(q.caps.any)));
  }

  lemma MergeOntoNothing(ds: seq<Deployment>)
    requires DistinctUuids(ds)
    ensures Merge([], ds) == ds
  {
    assert [] + ds == ds;
    MergeDistinct([], ds);
  }

  /** Also when a deployment occurs twice, as when the store updates one that it
      holds already: what is kept is exactly what one of the rules selects. */
  lemma KeptMembers(input: seq<Deployment>, q: Request, out: Outcome, order: seq<Deployment>)
    requires Fresh(input, q) && ConsistentUuids(input) && Retains(input, q, out, order)
    ensures forall d :: d in out.kept <==>
      d == out.booted || d == out.switched || d in out.bootEntries || d in out.successful || d in out.any
    ensures forall d :: d in out.bootEntries <==> d in Pick(order, BootEntryRule(q.caps.bootEntry))
    ensures forall d :: d in out.successful <==> d in Pick(order, SuccessfulRule(q.caps.successful))
    ensures forall d :: d in out.any <==> d in Pick(order, AnyRule(q.caps.any))
  {
    MintedAreFresh(input, q);
    SameMembers(order, input + Minted(input, q));
    var boot, successful, any :=
      Pick(order, BootEntryRule(q.caps.bootEntry)), Pick(order, SuccessfulRule(q.caps.successful)),
      Pick(order, AnyRule(q.caps.any));
    PickMembers(order, BootEntryRule(q.caps.bootEntry));
    PickMembers(order, SuccessfulRule(q.caps.successful));
    PickMembers(order, AnyRule(q.caps.any));
    MergeMembers(order, [], boot);
    MergeMembers(order, [], successful);
    MergeMembers(order, [], any);
    GatheredMembers(order, out.booted, out.switched, q.caps);
    SameMembers(out.kept, Gathered(order, out.booted, out.switched, q.caps));
  }
}
