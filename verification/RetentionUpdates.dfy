/** The pass that follows an update visits the updated deployment twice: it is a
    plain pass over the updated history, with capacities that may be one lower. */
module RetentionUpdates {
  import opened Deployments
  import opened Retention
  import opened RetentionLaws
  import opened RetentionStability
  import opened RetentionSurvival

  /** The history with entry i replaced, as a retention pass visits it: the pass
      is also handed the updated deployment as if it were a new one. */
  function Updated(s: seq<Deployment>, i: nat, d: Deployment): seq<Deployment>
    requires i < |s|
  {
    s[i := d] + [d]
  }

  // ---------------------------------------------------------- counted picks

  function Take(s: seq<Deployment>, n: int): seq<Deployment> {
    if n <= 0 then [] else if n < |s| then s[..n] else s
  }

  function Filter(s: seq<Deployment>, p: Deployment -> bool): (r: seq<Deployment>)
    ensures |r| <= |s|
  {
    if s == [] then []
    else
      var front, d := Filter(s[..|s| - 1], p), s[|s| - 1];
      if p(d) then front + [d] else front
  }

  /** The rule accepts the first n deployments that satisfy p. */
  ghost predicate Counts(rule: Rule, p: Deployment -> bool, n: int) {
    forall before, d :: rule(before, d) <==> |before| < n && p(d)
  }

  lemma {:induction false} PickIsTake(order: seq<Deployment>, rule: Rule, p: Deployment -> bool, n: int)
    requires Counts(rule, p, n)
    ensures Pick(order, rule) == Take(Filter(order, p), n)
  {
    if order != [] {
      PickIsTake(order[..|order| - 1], rule, p, n);
    }
  }

  lemma {:induction false} FilterConcat(a: seq<Deployment>, b: seq<Deployment>, p: Deployment -> bool)
    ensures Filter(a + b, p) == Filter(a, p) + Filter(b, p)
  {
    if b == [] {
      assert a + b == a;
    } else {
      assert (a + b)[..|a + b| - 1] == a + b[..|b| - 1];
      FilterConcat(a, b[..|b| - 1], p);
    }
  }

  lemma {:induction false} FilterMembers(s: seq<Deployment>, p: Deployment -> bool)
    ensures forall e :: e in Filter(s, p) <==> e in s && p(e)
    ensures DistinctUuids(s) ==> DistinctUuids(Filter(s, p))
  {
    if s != [] {
      var front, d := s[..|s| - 1], s[|s| - 1];
      FilterMembers(front, p);
      assert forall e :: e in s <==> e in front || e == d;
      var r := Filter(front, p);
      assert forall i :: 0 <= i < |r| ==> r[i] in front;
    }
  }

  /** One more deployment in the middle costs the last one its place. */
  lemma TakeWithout(a: seq<Deployment>, d: Deployment, b: seq<Deployment>, n: int)
    ensures n <= |a| ==> Take(a + [d] + b, n) == Take(a + b, n)
    ensures |a| < n ==> Take(a + [d] + b, n) == a + [d] + Take(b, n - 1 - |a|)
    ensures |a| < n ==> Take(a + b, n - 1) == a + Take(b, n - 1 - |a|)
  {
  }

  /** A deployment whose UUID was merged before is not merged again. */
  lemma {:induction false} MergeSkips(s: seq<Deployment>, a: seq<Deployment>, d: Deployment, b: seq<Deployment>)
    requires d.uuid in Uuids(a)
    ensures Merge(s, a + [d] + b) == Merge(s, a + b)
  {
    if b == [] {
      assert a + [d] + b == a + [d] && a + b == a;
      MergeNext(s, a, d);
      MergeUuids(s, a);
    } else {
      var front, e := b[..|b| - 1], b[|b| - 1];
      MergeSkips(s, a, d, front);
      assert a + [d] + b == (a + [d] + front) + [e] && a + b == (a + front) + [e];
      MergeNext(s, a + [d] + front, e);
      MergeNext(s, a + front, e);
    }
  }

  // ---------------------------------------------- a pass without its second visit

  function Without(order: seq<Deployment>, j: nat): seq<Deployment>
    requires j < |order|
  {
    order[..j] + order[j + 1..]
  }

  lemma SplitAt(order: seq<Deployment>, j: nat)
    requires j < |order|
    ensures order == order[..j] + [order[j]] + order[j + 1..]
  {
  }

  /** The deployment at j was visited before. */
  ghost predicate IsRepeat(order: seq<Deployment>, j: nat) {
    j < |order| && order[j] in order[..j]
  }

  /** The capacity left for the others by a repeat that satisfies p. */
  function Left(order: seq<Deployment>, j: nat, p: Deployment -> bool, n: int): int
    requires j < |order|
  {
    if p(order[j]) && |Filter(order[..j], p)| < n then n - 1 else n
  }

  lemma FilterOne(d: Deployment, p: Deployment -> bool)
    ensures Filter([d], p) == if p(d) then [d] else []
  {
    assert [d][..0] == [];
  }

  lemma {:induction false} FilterThree(a: seq<Deployment>, d: Deployment, b: seq<Deployment>, p: Deployment -> bool)
    ensures Filter(a + [d] + b, p) == Filter(a, p) + (if p(d) then [d] else []) + Filter(b, p)
  {
    FilterConcat(a, [d], p);
    FilterConcat(a + [d], b, p);
    FilterOne(d, p);
  }

  lemma {:induction false} FilterSplit(order: seq<Deployment>, j: nat, p: Deployment -> bool)
    requires j < |order|
    ensures Filter(Without(order, j), p) == Filter(order[..j], p) + Filter(order[j + 1..], p)
    ensures Filter(order, p) ==
      Filter(order[..j], p) + (if p(order[j]) then [order[j]] else []) + Filter(order[j + 1..], p)
  {
    FilterConcat(order[..j], order[j + 1..], p);
    FilterThree(order[..j], order[j], order[j + 1..], p);
    SplitAt(order, j);
  }

  lemma {:induction false} TakeMergesWithout(start: seq<Deployment>, a: seq<Deployment>, d: Deployment,
                                             b: seq<Deployment>, n: int)
    requires d in a
    ensures Merge(start, Take(a + [d] + b, n)) == Merge(start, Take(a + b, if |a| < n then n - 1 else n))
  {
    TakeWithout(a, d, b, n);
    if |a| < n {
      MergeSkips(start, a, d, Take(b, n - 1 - |a|));
    }
  }

  lemma {:induction false} MergedTakes(start: seq<Deployment>, a: seq<Deployment>, d: Deployment,
                                       b: seq<Deployment>, counts: bool, n: int)
    requires counts ==> d in a
    ensures Merge(start, Take(a + (if counts then [d] else []) + b, n))
         == Merge(start, Take(a + b, if counts && |a| < n then n - 1 else n))
  {
    if counts {
      TakeMergesWithout(start, a, d, b, n);
    } else {
      assert a + [] + b == a + b;
    }
  }

  lemma {:induction false} CountedPicks(order: seq<Deployment>, j: nat, rule: Rule, left: Rule,
                                        p: Deployment -> bool, n: int)
    requires j < |order| && Counts(rule, p, n) && Counts(left, p, Left(order, j, p, n))
    ensures var a, b := Filter(order[..j], p), Filter(order[j + 1..], p);
      && Pick(order, rule) == Take(a + (if p(order[j]) then [order[j]] else []) + b, n)
      && Pick(Without(order, j), left) == Take(a + b, Left(order, j, p, n))
  {
    PickIsTake(order, rule, p, n);
    PickIsTake(Without(order, j), left, p, Left(order, j, p, n));
    FilterSplit(order, j, p);
  }

  lemma {:induction false} CountedWithout(start: seq<Deployment>, order: seq<Deployment>, j: nat,
                                          rule: Rule, left: Rule, p: Deployment -> bool, n: int)
    requires IsRepeat(order, j) && Counts(rule, p, n) && Counts(left, p, Left(order, j, p, n))
    ensures Merge(start, Pick(order, rule)) == Merge(start, Pick(Without(order, j), left))
  {
    var a, d, b := Filter(order[..j], p), order[j], Filter(order[j + 1..], p);
    CountedPicks(order, j, rule, left, p, n);
    FilterMembers(order[..j], p);
    MergedTakes(start, a, d, b, p(d), n);
  }

  lemma {:induction false} PickAfterSame(a: seq<Deployment>, a': seq<Deployment>, b: seq<Deployment>, rule: Rule)
    requires Pick(a, rule) == Pick(a', rule)
    ensures Pick(a + b, rule) == Pick(a' + b, rule)
  {
    if b == [] {
      assert a + b == a && a' + b == a';
    } else {
      assert (a + b)[..|a + b| - 1] == a + b[..|b| - 1] && (a' + b)[..|a' + b| - 1] == a' + b[..|b| - 1];
      PickAfterSame(a, a', b[..|b| - 1], rule);
    }
  }

  lemma RepeatIsNoBootEntry(front: seq<Deployment>, d: Deployment, n: int)
    requires d in front && NewestFirst(front)
    ensures !BootEntryRule(n)(Pick(front, BootEntryRule(n)), d)
  {
    PickBootEntryIsNewest(front, n);
  }

  /** A storepath is listed once: the repeat is not even picked. */
  lemma BootEntriesWithout(order: seq<Deployment>, j: nat, n: int)
    requires IsRepeat(order, j) && NewestFirst(order)
    ensures Pick(order, BootEntryRule(n)) == Pick(Without(order, j), BootEntryRule(n))
  {
    RepeatIsNoBootEntry(order[..j], order[j], n);
    PickNext(order, j, BootEntryRule(n));
    PickAfterSame(order[..j + 1], order[..j], order[j + 1..], BootEntryRule(n));
    assert order == order[..j + 1] + order[j + 1..];
  }

  /** The capacities that a pass has left when it does not count its repeat. */
  function LeftCapacities(order: seq<Deployment>, j: nat, caps: Capacities): Capacities
    requires j < |order|
  {
    Capacities(caps.bootEntry, Left(order, j, Succeeded, caps.successful), Left(order, j, Anything, caps.any))
  }

  lemma GatheredWithout(order: seq<Deployment>, j: nat, booted: Deployment, switched: Deployment, caps: Capacities)
    requires IsRepeat(order, j) && NewestFirst(order)
    ensures Gathered(order, booted, switched, caps)
         == Gathered(Without(order, j), booted, switched, LeftCapacities(order, j, caps))
  {
    var once, left := Without(order, j), LeftCapacities(order, j, caps);
    BootEntriesWithout(order, j, caps.bootEntry);
    var withBoot := Merge(AddUnique([booted], switched), Pick(order, BootEntryRule(caps.bootEntry)));
    CountedWithout(withBoot, order, j, SuccessfulRule(caps.successful), SuccessfulRule(left.successful),
                   Succeeded, caps.successful);
    var withSuccessful := Merge(withBoot, Pick(order, SuccessfulRule(caps.successful)));
    CountedWithout(withSuccessful, order, j, AnyRule(caps.any), AnyRule(left.any), Anything, caps.any);
  }

  lemma ListsWithout(order: seq<Deployment>, j: nat, caps: Capacities)
    requires IsRepeat(order, j) && NewestFirst(order)
    ensures var once, left := Without(order, j), LeftCapacities(order, j, caps);
      && Pick(order, BootEntryRule(caps.bootEntry)) == Pick(once, BootEntryRule(left.bootEntry))
      && Merge([], Pick(order, SuccessfulRule(caps.successful)))
         == Merge([], Pick(once, SuccessfulRule(left.successful)))
      && Merge([], Pick(order, AnyRule(caps.any))) == Merge([], Pick(once, AnyRule(left.any)))
  {
    var left := LeftCapacities(order, j, caps);
    BootEntriesWithout(order, j, caps.bootEntry);
    CountedWithout([], order, j, SuccessfulRule(caps.successful), SuccessfulRule(left.successful),
                   Succeeded, caps.successful);
    CountedWithout([], order, j, AnyRule(caps.any), AnyRule(left.any), Anything, caps.any);
  }

  lemma WithoutIs(order: seq<Deployment>, j: nat)
    requires IsRepeat(order, j)
    ensures NewestFirst(order) ==> NewestFirst(Without(order, j))
    ensures forall e :: e in Without(order, j) <==> e in order
  {
    assert order == order[..j] + [order[j]] + order[j + 1..];
  }

  lemma MintedOfSame(s: seq<Deployment>, t: seq<Deployment>, q: Request)
    requires forall e :: e in s <==> e in t
    ensures Minted(s, q) == Minted(t, q)
  {
    var b := BootedMint(s, q);
    assert b == BootedMint(t, q);
    assert forall e :: e in s + b <==> e in t + b;
  }

  lemma OneCopyLess(once: seq<Deployment>, d: Deployment, m: seq<Deployment>, order: seq<Deployment>, j: nat)
    requires multiset(order) == multiset(once + [d] + m) && j < |order| && order[j] == d
    ensures multiset(Without(order, j)) == multiset(once + m)
  {
    SplitAt(order, j);
    InsertedMultiset(order[..j], d, order[j + 1..]);
    InsertedMultiset(once, d, m);
    var one := multiset{d};
    assert multiset(Without(order, j)) == (multiset(Without(order, j)) + one) - one;
    assert multiset(once + m) == (multiset(once + m) + one) - one;
  }

  lemma SystemsWithout(order: seq<Deployment>, j: nat, q: Request, out: Outcome)
    requires IsRepeat(order, j)
    requires NewestBooted(order, q.bootedPath, out.booted) && NewestSwitched(order, q.switchedPath, out.switched)
    ensures var once := Without(order, j);
      NewestBooted(once, q.bootedPath, out.booted) && NewestSwitched(once, q.switchedPath, out.switched)
  {
    WithoutIs(order, j);
  }

  /** A pass that visits a deployment of its input twice is a pass over the input
      with that deployment once, with the capacities that the repeat leaves. */
  lemma RepeatIsPlain(once: seq<Deployment>, d: Deployment, q: Request, out: Outcome, order: seq<Deployment>, j: nat)
    requires d in once && Retains(once + [d], q, out, order) && IsRepeat(order, j) && order[j] == d
    ensures Retains(once, q.(caps := LeftCapacities(order, j, q.caps)), out, Without(order, j))
  {
    MintedOfSame(once + [d], once, q);
    MintedIgnoresCapacities(once, q, LeftCapacities(order, j, q.caps));
    WithoutIs(order, j);
    OneCopyLess(once, d, Minted(once, q), order, j);
    SystemsWithout(order, j, q, out);
    ListsWithout(order, j, q.caps);
    GatheredWithout(order, j, out.booted, out.switched, q.caps);
  }

  lemma MintedIgnoresCapacities(s: seq<Deployment>, q: Request, caps: Capacities)
    ensures Minted(s, q.(caps := caps)) == Minted(s, q)
  {
  }

  lemma FindRepeat(once: seq<Deployment>, d: Deployment, m: seq<Deployment>, order: seq<Deployment>)
    requires d in once && multiset(order) == multiset(once + [d] + m)
    ensures exists j: nat :: IsRepeat(order, j) && order[j] == d
  {
    SameMembers(order, once + [d] + m);
    assert d in once + [d] + m;
    var k :| 0 <= k < |order| && order[k] == d;
    OneCopyLess(once, d, m, order, k);
    SameMembers(Without(order, k), once + m);
    if d in order[..k] {
      assert IsRepeat(order, k);
    } else {
      assert d in Without(order, k) by {
        assert d in once + m;
      }
      var l :| 0 <= l < |order[k + 1..]| && order[k + 1..][l] == d;
      assert order[..k + 1 + l][k] == d;
      assert IsRepeat(order, k + 1 + l);
    }
  }

  // --------------------------------------------------- when a capacity is lost

  ghost function Newer(all: seq<Deployment>, d: Deployment, p: Deployment -> bool): set<Deployment> {
    set e | e in all && p(e) && e.createdAt > d.createdAt
  }

  /** d is one of them. */
  ghost function NotOlder(all: seq<Deployment>, d: Deployment, p: Deployment -> bool): set<Deployment> {
    set e | e in all && p(e) && e.createdAt >= d.createdAt
  }

  /** The capacity n' that the other deployments have where n is configured. It is
      n or one less: not less when the two visits of d do not fit behind the newer
      deployments, less when they fit behind all that are not older. Deployments
      created at the same time as d leave a range in which the sort decides. */
  ghost predicate IsLowered(all: seq<Deployment>, d: Deployment, p: Deployment -> bool, n: int, n': int) {
    && (n' == n || (p(d) && n' == n - 1))
    && (n < |Newer(all, d, p)| + 2 ==> n' == n)
    && (p(d) && |NotOlder(all, d, p)| + 1 <= n ==> n' == n - 1)
  }

  ghost predicate AreLowered(all: seq<Deployment>, d: Deployment, caps: Capacities, caps': Capacities) {
    && caps'.bootEntry == caps.bootEntry
    && IsLowered(all, d, Succeeded, caps.successful, caps'.successful)
    && IsLowered(all, d, Anything, caps.any, caps'.any)
  }

  /** Visited before the repeat: everything newer, d itself, and nothing older. */
  lemma {:induction false} VisitedBefore(order: seq<Deployment>, j: nat, all: seq<Deployment>, p: Deployment -> bool)
    requires IsRepeat(order, j) && NewestFirst(order) && DistinctUuids(Without(order, j)) && p(order[j])
    requires forall e :: e in order <==> e in all
    ensures |Newer(all, order[j], p)| + 1 <= |Filter(order[..j], p)| <= |NotOlder(all, order[j], p)|
  {
    var d, a := order[j], Filter(order[..j], p);
    FrontIsDistinct(order, j);
    FilterMembers(order[..j], p);
    assert a[..|a|] == a;
    PrefixCardinality(a, |a|);
    FrontIsNewest(order, j, all, p);
    SubsetCardinality(Newer(all, d, p) + {d}, Members(a));
    SubsetCardinality(Members(a), NotOlder(all, d, p));
  }

  lemma FrontIsDistinct(order: seq<Deployment>, j: nat)
    requires j < |order| && DistinctUuids(Without(order, j))
    ensures DistinctUuids(order[..j])
  {
    assert forall k :: 0 <= k < j ==> Without(order, j)[k] == order[..j][k];
  }

  lemma FrontIsNewest(order: seq<Deployment>, j: nat, all: seq<Deployment>, p: Deployment -> bool)
    requires j < |order| && NewestFirst(order) && forall e :: e in order <==> e in all
    ensures forall e :: e in Newer(all, order[j], p) ==> e in order[..j] && p(e)
    ensures forall e :: e in order[..j] && p(e) ==> e in NotOlder(all, order[j], p)
  {
    forall e | e in Newer(all, order[j], p) ensures e in order[..j] && p(e) {
      var k :| 0 <= k < |order| && order[k] == e;
      assert k < j && order[..j][k] == e;
    }
  }

  lemma LeftIsLowered(order: seq<Deployment>, j: nat, all: seq<Deployment>, p: Deployment -> bool, n: int)
    requires IsRepeat(order, j) && NewestFirst(order) && DistinctUuids(Without(order, j))
    requires forall e :: e in order <==> e in all
    ensures IsLowered(all, order[j], p, n, Left(order, j, p, n))
  {
    if p(order[j]) {
      VisitedBefore(order, j, all, p);
    }
  }

  lemma RepeatLowers(order: seq<Deployment>, j: nat, all: seq<Deployment>, caps: Capacities)
    requires IsRepeat(order, j) && NewestFirst(order) && DistinctUuids(all)
    requires multiset(Without(order, j)) == multiset(all)
    ensures AreLowered(all, order[j], caps, LeftCapacities(order, j, caps))
  {
    SameMembers(Without(order, j), all);
    DistinctIsPermutable(all, Without(order, j));
    WithoutIs(order, j);
    LeftIsLowered(order, j, all, Succeeded, caps.successful);
    LeftIsLowered(order, j, all, Anything, caps.any);
  }

  /** What the store knows when it updates entry i of its history. */
  ghost predicate IsUpdate(s: seq<Deployment>, i: nat, d: Deployment, q: Request) {
    i < |s| && DistinctUuids(s) && d.uuid == s[i].uuid && Fresh(s, q)
  }

  /** The updated history, with the dummies that the pass mints. */
  ghost function AllOf(s: seq<Deployment>, i: nat, d: Deployment, q: Request): seq<Deployment>
    requires i < |s|
  {
    s[i := d] + Minted(s[i := d], q)
  }

  lemma AllAreDistinct(s: seq<Deployment>, i: nat, d: Deployment, q: Request)
    requires IsUpdate(s, i, d, q)
    ensures DistinctUuids(s[i := d]) && Fresh(s[i := d], q) && DistinctUuids(AllOf(s, i, d, q)) && d in s[i := d]
  {
    var once := s[i := d];
    assert once[i] == d;
    assert s[i].uuid in Uuids(s);
    assert forall e :: e in once ==> e == d || e in s;
    MintedAreFresh(once, q);
  }

  /** The pass is a plain pass over the updated history. */
  ghost predicate IsPlainPass(s: seq<Deployment>, i: nat, d: Deployment, q: Request, out: Outcome, caps: Capacities)
    requires i < |s|
  {
    IsRetained(s[i := d], q.(caps := caps), out) && AreLowered(AllOf(s, i, d, q), d, q.caps, caps)
  }

  lemma PassIsLowered(once: seq<Deployment>, d: Deployment, q: Request, out: Outcome, order: seq<Deployment>, j: nat)
    requires d in once && IsRepeat(order, j) && order[j] == d && NewestFirst(order)
    requires DistinctUuids(once + Minted(once, q))
    requires Retains(once, q.(caps := LeftCapacities(order, j, q.caps)), out, Without(order, j))
    ensures AreLowered(once + Minted(once, q), d, q.caps, LeftCapacities(order, j, q.caps))
  {
    MintedIgnoresCapacities(once, q, LeftCapacities(order, j, q.caps));
    RepeatLowers(order, j, once + Minted(once, q), q.caps);
  }

  /** The pass after an update of any deployment, ties included, is a plain pass
      over the updated history with capacities that are one lower at most. */
  lemma UpdatePassIsPlain(s: seq<Deployment>, i: nat, d: Deployment, q: Request, out: Outcome, order: seq<Deployment>)
    requires IsUpdate(s, i, d, q) && Retains(Updated(s, i, d), q, out, order)
    ensures exists caps :: IsPlainPass(s, i, d, q, out, caps)
  {
    var once := s[i := d];
    AllAreDistinct(s, i, d, q);
    MintedOfSame(once + [d], once, q);
    FindRepeat(once, d, Minted(once, q), order);
    var j: nat :| IsRepeat(order, j) && order[j] == d;
    RepeatIsPlain(once, d, q, out, order, j);
    PassIsLowered(once, d, q, out, order, j);
    assert IsPlainPass(s, i, d, q, out, LeftCapacities(order, j, q.caps));
  }

  // ------------------------------------------------- the lengths of the lists

  /** What the capacity becomes where nothing was created at the same time as d. */
  ghost function Lowered(all: seq<Deployment>, d: Deployment, p: Deployment -> bool, n: int): int {
    if p(d) && |Newer(all, d, p)| + 2 <= n then n - 1 else n
  }

  ghost function LoweredCapacities(all: seq<Deployment>, d: Deployment, caps: Capacities): Capacities {
    Capacities(caps.bootEntry, Lowered(all, d, Succeeded, caps.successful), Lowered(all, d, Anything, caps.any))
  }

  lemma UnrivalledIsLowered(all: seq<Deployment>, d: Deployment, p: Deployment -> bool, n: int, n': int)
    requires d in all && NoRival(all, d) && IsLowered(all, d, p, n, n')
    ensures n' == Lowered(all, d, p, n)
  {
    if p(d) {
      assert NotOlder(all, d, p) == Newer(all, d, p) + {d};
    }
  }

  /** Absent ties the capacities are exactly these. */
  lemma UnrivalledUpdateIsPlain(s: seq<Deployment>, i: nat, d: Deployment, q: Request, out: Outcome,
                                order: seq<Deployment>)
    requires IsUpdate(s, i, d, q) && Retains(Updated(s, i, d), q, out, order) && NoRival(AllOf(s, i, d, q), d)
    ensures IsRetained(s[i := d], q.(caps := LoweredCapacities(AllOf(s, i, d, q), d, q.caps)), out)
  {
    var all := AllOf(s, i, d, q);
    UpdatePassIsPlain(s, i, d, q, out, order);
    var caps :| IsPlainPass(s, i, d, q, out, caps);
    AllAreDistinct(s, i, d, q);
    UnrivalledIsLowered(all, d, Succeeded, q.caps.successful, caps.successful);
    UnrivalledIsLowered(all, d, Anything, q.caps.any, caps.any);
  }

  /** The length of a list of capacity n over m deployments. */
  function Full(n: int, m: nat): int {
    if n < m then n else m
  }

  /** The list falls one short: the second visit of d takes a place, behind k newer
      deployments, that one of m deployments would have had. */
  predicate FallsShort(k: nat, n: int, m: nat) {
    k + 2 <= n <= m
  }

  /** The length of the list of p after d was updated, for a capacity of n. */
  ghost predicate IsLength(length: int, all: seq<Deployment>, d: Deployment, p: Deployment -> bool, n: int) {
    var m := |Eligible(all, p)|;
    length == if p(d) && FallsShort(|Newer(all, d, p)|, n, m) then Full(n, m) - 1 else Full(n, m)
  }

  lemma LoweredLength(all: seq<Deployment>, d: Deployment, p: Deployment -> bool, n: nat, list: seq<Deployment>)
    requires d in all && IsNewest(all, p, Lowered(all, d, p, n), list) && DistinctUuids(list)
    ensures IsLength(|list|, all, d, p, n)
  {
    NewestCount(all, p, Lowered(all, d, p, n), list);
    if p(d) {
      SubsetCardinality(Newer(all, d, p) + {d}, Eligible(all, p));
    }
  }

  /** The update of any deployment that shares its creation time with no other.
      The "any" list falls one short of its capacity, or of all deployments if they
      are fewer, exactly when two places behind the newer deployments are within
      the capacity and the capacity is within the number of deployments. For the
      "successful" list the same holds of the successful deployments if the updated
      one is among them, and it is not short otherwise. Boot entries never are. */
  lemma UpdatedListIsOneShort(s: seq<Deployment>, i: nat, d: Deployment, q: Request, out: Outcome,
                              order: seq<Deployment>)
    requires IsUpdate(s, i, d, q) && WithCapacities(q) && Retains(Updated(s, i, d), q, out, order)
    requires NoRival(AllOf(s, i, d, q), d)
    ensures var all := AllOf(s, i, d, q);
      && IsRetention(all, q.(caps := LoweredCapacities(all, d, q.caps)), out)
      && IsLength(|out.any|, all, d, Anything, q.caps.any)
      && IsLength(|out.successful|, all, d, Succeeded, q.caps.successful)
      && |out.bootEntries| == Full(q.caps.bootEntry, |EligiblePaths(all, SucceededBootEntry)|)
  {
    var all := AllOf(s, i, d, q);
    var left := q.(caps := LoweredCapacities(all, d, q.caps));
    UnrivalledUpdateIsPlain(s, i, d, q, out, order);
    AllAreDistinct(s, i, d, q);
    MintedIgnoresCapacities(s[i := d], q, left.caps);
    var once :| Retains(s[i := d], left, out, once);
    RetentionIsDeclarative(s[i := d], left, out, once);
    ListLengths(all, d, q, left.caps, out);
  }

  lemma ListLengths(all: seq<Deployment>, d: Deployment, q: Request, caps: Capacities, out: Outcome)
    requires d in all && WithCapacities(q) && caps == LoweredCapacities(all, d, q.caps)
    requires AreRetentionLists(all, caps, out)
    ensures IsLength(|out.any|, all, d, Anything, q.caps.any)
    ensures IsLength(|out.successful|, all, d, Succeeded, q.caps.successful)
    ensures |out.bootEntries| == Full(q.caps.bootEntry, |EligiblePaths(all, SucceededBootEntry)|)
  {
    LoweredLength(all, d, Anything, q.caps.any, out.any);
    LoweredLength(all, d, Succeeded, q.caps.successful, out.successful);
    NewestPathCount(all, SucceededBootEntry, q.caps.bootEntry, out.bootEntries);
  }

  /** A history of three successful deployments, the newest of which describes both
      running systems. */
  ghost predicate AreThree(n: Deployment, d: Deployment, e: Deployment, q: Request) {
    && n.createdAt > d.createdAt > e.createdAt && n.status == d.status == e.status == Done
    && BootedFrom(n, q.bootedPath) && n.storepath == q.switchedPath && e.storepath != n.storepath && !IsBootEntry(e)
  }

  lemma CountsOfThree(n: Deployment, d: Deployment, e: Deployment, q: Request)
    requires AreThree(n, d, e, q)
    ensures Newer([n, d, e], d, Anything) == {n} && Newer([n, d, e], d, Succeeded) == {n}
    ensures Eligible([n, d, e], Anything) == {n, d, e} && Eligible([n, d, e], Succeeded) == {n, d, e}
    ensures |Newer([n, d, e], d, Anything)| == |Newer([n, d, e], d, Succeeded)| == 1
    ensures |Eligible([n, d, e], Anything)| == |Eligible([n, d, e], Succeeded)| == 3
  {
    assert n != d && d != e && n != e;
  }

  lemma LastOfThreeIsLeftOut(n: Deployment, d: Deployment, e: Deployment, p: Deployment -> bool, list: seq<Deployment>)
    requires n.createdAt > d.createdAt > e.createdAt && p(n) && p(d)
    requires IsNewest([n, d, e], p, 2, list) && DistinctUuids(list)
    ensures e !in list
  {
    var three := {n, d, e};
    assert n in [n, d, e] && d in [n, d, e] && |three| == 3;
    assert list[..|list|] == list;
    PrefixCardinality(list, |list|);
    SubsetCardinality(three * Members(list), Members(list));
    assert e in list ==> three * Members(list) == three;
  }

  lemma AllOfThree(s: seq<Deployment>, d: Deployment, q: Request)
    requires |s| == 3 && AreThree(s[0], d, s[2], q)
    ensures AllOf(s, 1, d, q) == [s[0], d, s[2]] && NoRival([s[0], d, s[2]], d)
  {
    assert s[1 := d] == [s[0], d, s[2]];
    MintsNothing([s[0], d, s[2]], q, s[0], s[0]);
  }

  lemma LoweredOfThree(n: Deployment, d: Deployment, e: Deployment, q: Request)
    requires AreThree(n, d, e, q) && q.caps == Capacities(3, 3, 3)
    ensures LoweredCapacities([n, d, e], d, q.caps) == Capacities(3, 2, 2)
  {
    CountsOfThree(n, d, e, q);
  }

  lemma RetentionOfThree(n: Deployment, d: Deployment, e: Deployment, q: Request, out: Outcome)
    requires AreThree(n, d, e, q) && IsRetention([n, d, e], q.(caps := Capacities(3, 2, 2)), out)
    ensures |out.any| == 2 && |out.successful| == 2 && e !in out.kept
  {
    LastOfThreeIsLeftOut(n, d, e, Anything, out.any);
    LastOfThreeIsLeftOut(n, d, e, Succeeded, out.successful);
    CountsOfThree(n, d, e, q);
    NewestCount([n, d, e], Anything, 2, out.any);
    NewestCount([n, d, e], Succeeded, 2, out.successful);
  }

  /** With capacities of three, an update of the second costs the third its place. */
  lemma UpdateOfThree(s: seq<Deployment>, d: Deployment, q: Request, out: Outcome, order: seq<Deployment>)
    requires |s| == 3 && IsUpdate(s, 1, d, q) && Retains(Updated(s, 1, d), q, out, order)
    requires AreThree(s[0], d, s[2], q) && q.caps == Capacities(3, 3, 3)
    ensures |out.any| == 2 && |out.successful| == 2 && s[2] !in out.kept
  {
    AllOfThree(s, d, q);
    LoweredOfThree(s[0], d, s[2], q);
    UpdatedListIsOneShort(s, 1, d, q, out, order);
    RetentionOfThree(s[0], d, s[2], q, out);
  }

  function ExampleHistory(): seq<Deployment> {
    [Deployment("n", "p", Switch, Done, 30, true, ""),
     Deployment("d", "r", Test, Running, 20, false, ""),
     Deployment("e", "s", Test, Done, 10, true, "")]
  }

  function ExampleUpdate(): Deployment {
    Deployment("d", "r", Test, Done, 20, true, "")
  }

  function ExampleRequest(): Request {
    Request("p", "p", Capacities(3, 3, 3), "x", "y")
  }

  lemma ExampleIsUpdate()
    ensures var s, d := ExampleHistory(), ExampleUpdate();
      IsUpdate(s, 1, d, ExampleRequest()) && AreThree(s[0], d, s[2], ExampleRequest())
  {
    assert "n"[0] == 'n' && "d"[0] == 'd' && "e"[0] == 'e' && "x"[0] == 'x' && "y"[0] == 'y';
    assert "p"[0] == 'p' && "s"[0] == 's';
  }

  /** Three deployments, the one in the middle just finished: the lists name two of
      them, and the third is dropped from the history. */
  lemma UpdatedListExample(out: Outcome, order: seq<Deployment>)
    requires Retains(Updated(ExampleHistory(), 1, ExampleUpdate()), ExampleRequest(), out, order)
    ensures |out.any| == 2 && |out.successful| == 2 && ExampleHistory()[2] !in out.kept
  {
    ExampleIsUpdate();
    UpdateOfThree(ExampleHistory(), ExampleUpdate(), ExampleRequest(), out, order);
  }
}
