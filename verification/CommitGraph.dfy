/** The commits of the local repository and the ancestor relation between them. */
module CommitGraph {

  type Commit = string

  /** The parents of each commit object. */
  type Graph = map<Commit, seq<Commit>>

  /** Git stores a commit only together with its ancestors. */
  ghost predicate Closed(g: Graph) {
    forall c, i :: c in g && 0 <= i < |g[c]| ==> g[c][i] in g
  }

  ghost predicate IsPath(g: Graph, p: seq<Commit>) {
    p != [] && forall i :: 0 <= i < |p| - 1 ==> p[i] in g && p[i + 1] in g[p[i]]
  }

  ghost predicate PathFromTo(g: Graph, p: seq<Commit>, top: Commit, base: Commit) {
    IsPath(g, p) && p[0] == top && p[|p| - 1] == base
  }

  /** base is top or an ancestor of top. */
  ghost predicate Reaches(g: Graph, top: Commit, base: Commit) {
    exists p :: PathFromTo(g, p, top, base)
  }

  ghost predicate StrictlyAbove(g: Graph, top: Commit, base: Commit) {
    top != base && Reaches(g, top, base)
  }

  ghost predicate Acyclic(g: Graph) {
    forall a, b :: Reaches(g, a, b) && Reaches(g, b, a) ==> a == b
  }

  /** Fetching only adds commit objects. */
  ghost predicate Extends(g: Graph, h: Graph) {
    forall c :: c in g ==> c in h && h[c] == g[c]
  }

  lemma ReachesSelf(g: Graph, c: Commit)
    ensures Reaches(g, c, c)
  {
    assert PathFromTo(g, [c], c, c);
  }

  lemma ReachesParent(g: Graph, c: Commit, i: nat)
    requires c in g && i < |g[c]|
    ensures Reaches(g, c, g[c][i])
  {
    assert PathFromTo(g, [c, g[c][i]], c, g[c][i]);
  }

  lemma ReachesTransitive(g: Graph, a: Commit, b: Commit, c: Commit)
    requires Reaches(g, a, b) && Reaches(g, b, c)
    ensures Reaches(g, a, c)
  {
    var p :| PathFromTo(g, p, a, b);
    var q :| PathFromTo(g, q, b, c);
    var r := p + q[1..];
    forall i | 0 <= i < |r| - 1 ensures r[i] in g && r[i + 1] in g[r[i]] {
      if i < |p| - 1 {
        assert r[i] == p[i] && r[i + 1] == p[i + 1];
      } else {
        assert r[i] == q[i - |p| + 1] && r[i + 1] == q[i - |p| + 2];
      }
    }
    assert PathFromTo(g, r, a, c);
  }

  lemma ReachesExtends(g: Graph, h: Graph, top: Commit, base: Commit)
    requires Extends(g, h) && Reaches(g, top, base)
    ensures Reaches(h, top, base)
  {
    var p :| PathFromTo(g, p, top, base);
    assert PathFromTo(h, p, top, base);
  }

  /** A set closed under parents holds everything its members reach. */
  lemma {:induction false} PathStays(g: Graph, s: set<Commit>, p: seq<Commit>)
    requires IsPath(g, p) && p[0] in s
    requires forall c, i :: c in s && c in g && 0 <= i < |g[c]| ==> g[c][i] in s
    ensures p[|p| - 1] in s
  {
    if |p| > 1 {
      assert p[1] in s;
      PathStays(g, s, p[1..]);
    }
  }

  datatype Answer = Missing | Answer(found: bool)

  /** The walk over the log of `top`. The first commit of the walk, `top`
      itself, is not considered. */
  method IsAncestor(g: Graph, base: Commit, top: Commit) returns (r: Answer)
    requires Closed(g)
    ensures r.Missing? <==> top !in g
    ensures r.Answer? ==> (r.found <==> StrictlyAbove(g, top, base))
  {
    if top !in g {
      return Missing;
    }
    var seen: set<Commit> := {};
    var stack := [top];
    var isFirst := true;
    ReachesSelf(g, top);
    while stack != []
      invariant isFirst <==> seen == {}
      invariant isFirst ==> stack == [top]
      invariant !isFirst ==> top in seen
      invariant seen <= g.Keys
      invariant forall c :: c in stack ==> c in g && Reaches(g, top, c)
      invariant forall c, i :: c in seen && 0 <= i < |g[c]| ==> g[c][i] in seen || g[c][i] in stack
      invariant base in seen ==> base == top
      decreases g.Keys - seen, |stack|
    {
      var c := stack[|stack| - 1];
      ghost var rest := stack[..|stack| - 1];
      assert stack == rest + [c];
      stack := stack[..|stack| - 1];
      if c in seen {
        continue;
      }
      if !isFirst && c == base {
        return Answer(true);
      }
      isFirst := false;
      seen := seen + {c};
      forall d | d in g[c] ensures d in g && Reaches(g, top, d) {
        var i :| 0 <= i < |g[c]| && g[c][i] == d;
        ReachesParent(g, c, i);
        ReachesTransitive(g, top, c, d);
      }
      stack := stack + g[c];
    }
    if StrictlyAbove(g, top, base) {
      var p :| PathFromTo(g, p, top, base);
      PathStays(g, seen, p);
      assert false;
    }
    return Answer(false);
  }
}
