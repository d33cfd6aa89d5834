/** Deployments as the store keeps them, and the order "newest first" in which
    retention visits them. */
module Deployments {
  import opened Common

  datatype Status = Init | Running | Done | Failed

  datatype Operation = Test | Switch | Boot | Null | Other(name: string)

  /** Only the fields read by the store. A deployment without a creation time is
      dated at the epoch, 0, as an absent protobuf timestamp is. */
  datatype Deployment = Deployment(
    uuid: Uuid,
    storepath: Path,
    operation: Operation,
    status: Status,
    createdAt: int,
    ended: bool,
    profilePath: Path)

  predicate IsBootEntry(d: Deployment) {
    d.operation == Boot || d.operation == Switch
  }

  ghost predicate NewestFirst(s: seq<Deployment>) {
    forall i, j :: 0 <= i < j < |s| ==> s[j].createdAt <= s[i].createdAt
  }

  ghost predicate StrictlyNewestFirst(s: seq<Deployment>) {
    forall i, j :: 0 <= i < j < |s| ==> s[j].createdAt < s[i].createdAt
  }

  function Uuids(s: seq<Deployment>): set<Uuid> {
    set d | d in s :: d.uuid
  }

  ghost predicate DistinctUuids(s: seq<Deployment>) {
    forall i, j :: 0 <= i < j < |s| ==> s[i].uuid != s[j].uuid
  }

  /** A UUID may occur more than once, always on the same deployment. */
  ghost predicate ConsistentUuids(s: seq<Deployment>) {
    forall d, e :: d in s && e in s && d.uuid == e.uuid ==> d == e
  }

  lemma SameMembers(s: seq<Deployment>, t: seq<Deployment>)
    requires multiset(s) == multiset(t)
    ensures |s| == |t|
    ensures forall d :: d in s <==> d in t
    ensures Uuids(s) == Uuids(t)
  {
    assert |multiset(s)| == |multiset(t)|;
    forall d ensures d in s <==> d in t {
      assert d in s <==> d in multiset(s);
      assert d in t <==> d in multiset(t);
    }
  }

  method Insert(s: seq<Deployment>, d: Deployment) returns (r: seq<Deployment>)
    requires NewestFirst(s)
    ensures NewestFirst(r)
    ensures multiset(r) == multiset(s) + multiset{d}
  {
    var i := 0;
    while i < |s| && d.createdAt <= s[i].createdAt
      invariant 0 <= i <= |s|
      invariant forall k :: 0 <= k < i ==> d.createdAt <= s[k].createdAt
    {
      i := i + 1;
    }
    InsertAt(s, i, d);
    r := s[..i] + [d] + s[i..];
  }

  lemma InsertAt(s: seq<Deployment>, i: nat, d: Deployment)
    requires NewestFirst(s) && i <= |s|
    requires forall k :: 0 <= k < i ==> d.createdAt <= s[k].createdAt
    requires i < |s| ==> s[i].createdAt < d.createdAt
    ensures NewestFirst(s[..i] + [d] + s[i..])
    ensures multiset(s[..i] + [d] + s[i..]) == multiset(s) + multiset{d}
  {
    InsertedOrder(s[..i], d, s[i..]);
    InsertedMultiset(s[..i], d, s[i..]);
    assert s == s[..i] + s[i..];
  }

  lemma InsertedOrder(a: seq<Deployment>, d: Deployment, b: seq<Deployment>)
    requires NewestFirst(a) && NewestFirst(b)
    requires forall k :: 0 <= k < |a| ==> d.createdAt <= a[k].createdAt
    requires b != [] ==> b[0].createdAt <= d.createdAt
    ensures NewestFirst(a + [d] + b)
  {
    forall k | 0 <= k < |b| ensures b[k].createdAt <= d.createdAt {
      assert k > 0 ==> b[k].createdAt <= b[0].createdAt;
    }
  }

  lemma InsertedMultiset(a: seq<Deployment>, d: Deployment, b: seq<Deployment>)
    ensures multiset(a + [d] + b) == multiset(a + b) + multiset{d}
  {
  }

  /** Callers know that the result is a permutation and is sorted, and nothing
      about the order of deployments with the same creation time: the sort used
      by the store is not stable. */
  method SortNewestFirst(s: seq<Deployment>) returns (r: seq<Deployment>)
    ensures NewestFirst(r)
    ensures multiset(r) == multiset(s)
  {
    r := [];
    for i := 0 to |s|
      invariant NewestFirst(r)
      invariant multiset(r) == multiset(s[..i])
    {
      assert s[..i + 1] == s[..i] + [s[i]];
      r := Insert(r, s[i]);
    }
    assert s[..|s|] == s;
  }
}
