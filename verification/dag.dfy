/** Paths, acyclicity and reachability over an edge list. The planner leaves
    these checks to a graph library; they are stated here so that they can be
    proved for the graphs the pipeline builders emit. */
module Dag {
  import opened Workflow

  /** `p` walks along edges of `edges`. */
  ghost predicate IsPath(edges: seq<Edge>, p: seq<string>)
  {
    |p| >= 1 && forall k :: 0 <= k < |p| - 1 ==> Edge(p[k], p[k + 1]) in edges
  }

  ghost predicate Reachable(edges: seq<Edge>, a: string, b: string)
  {
    exists p :: IsPath(edges, p) && p[0] == a && p[|p| - 1] == b
  }

  /** No walk of one edge or more returns to where it started. */
  ghost predicate Acyclic(edges: seq<Edge>)
  {
    forall p :: IsPath(edges, p) && |p| >= 2 ==> p[0] != p[|p| - 1]
  }

  /** `id` is the source of no edge. */
  predicate Sink(edges: seq<Edge>, id: string)
  {
    forall k :: 0 <= k < |edges| ==> edges[k].from != id
  }

  predicate Distinct(ids: seq<string>)
  {
    forall i, j :: 0 <= i < j < |ids| ==> ids[i] != ids[j]
  }

  /** The chain ids[0] -> ids[1] -> ... -> ids[n-1]. */
  function ChainEdges(ids: seq<string>): (r: seq<Edge>)
    ensures |r| == if ids == [] then 0 else |ids| - 1
    ensures forall k :: 0 <= k < |r| ==> r[k] == Edge(ids[k], ids[k + 1])
  {
    if |ids| <= 1 then [] else seq(|ids| - 1, k requires 0 <= k < |ids| - 1 => Edge(ids[k], ids[k + 1]))
  }

  /** A chain continued from its last id is the chain of the concatenation. */
  lemma ChainAppend(a: seq<string>, b: seq<string>)
    requires a != []
    ensures ChainEdges(a) + ChainEdges([a[|a| - 1]] + b) == ChainEdges(a + b)
  {
    var l, r := ChainEdges(a), ChainEdges([a[|a| - 1]] + b);
    var ab := a + b;
    forall k | 0 <= k < |l + r|
      ensures (l + r)[k] == ChainEdges(ab)[k]
    {
      if k >= |l| {
        assert r[k - |l|] == Edge(([a[|a| - 1]] + b)[k - |l|], ([a[|a| - 1]] + b)[k - |l| + 1]);
      }
    }
  }

  /** Along a walk of the chain of distinct ids, positions strictly rise. */
  lemma {:induction false} ChainPathRises(ids: seq<string>, p: seq<string>) returns (i: nat, j: nat)
    requires Distinct(ids) && IsPath(ChainEdges(ids), p) && |p| >= 2
    ensures i < j < |ids| && ids[i] == p[0] && ids[j] == p[|p| - 1]
    decreases |p|
  {
    var n := |p|;
    var k := ChainEdgeAt(ids, p[n - 2], p[n - 1]);
    if n == 2 {
      i, j := k, k + 1;
    } else {
      var q := PathPrefix(ChainEdges(ids), p);
      var i0, j0 := ChainPathRises(ids, q);
      assert ids[j0] == ids[k];
      i, j := i0, k + 1;
    }
  }

  /** An edge of the chain joins two neighbouring positions. */
  lemma ChainEdgeAt(ids: seq<string>, a: string, b: string) returns (k: nat)
    requires Edge(a, b) in ChainEdges(ids)
    ensures k + 1 < |ids| && ids[k] == a && ids[k + 1] == b
  {
    var edges := ChainEdges(ids);
    var m :| 0 <= m < |edges| && edges[m] == Edge(a, b);
    k := m;
  }

  /** A walk of two ids or more without its last id is still a walk. */
  lemma PathPrefix(edges: seq<Edge>, p: seq<string>) returns (q: seq<string>)
    requires IsPath(edges, p) && |p| >= 2
    ensures q == p[..|p| - 1] && IsPath(edges, q)
  {
    q := p[..|p| - 1];
    forall m | 0 <= m < |q| - 1 ensures Edge(q[m], q[m + 1]) in edges {
      assert Edge(p[m], p[m + 1]) in edges;
    }
  }

  /** The chain of distinct ids has no cycle. */
  lemma ChainAcyclic(ids: seq<string>)
    requires Distinct(ids)
    ensures Acyclic(ChainEdges(ids))
  {
    forall p | IsPath(ChainEdges(ids), p) && |p| >= 2
      ensures p[0] != p[|p| - 1]
    {
      var i, j := ChainPathRises(ids, p);
    }
  }

  /** Along the chain, every id reaches every later one. */
  lemma ChainReachable(ids: seq<string>, i: nat, k: nat)
    requires i <= k < |ids|
    ensures Reachable(ChainEdges(ids), ids[i], ids[k])
  {
    var p, chain := ids[i..k + 1], ChainEdges(ids);
    assert IsPath(chain, p) by {
      forall m | 0 <= m < |p| - 1 ensures Edge(p[m], p[m + 1]) in chain {
        assert p[m] == ids[i + m] && p[m + 1] == ids[i + m + 1];
        assert chain[i + m] == Edge(ids[i + m], ids[i + m + 1]);
      }
    }
    assert p[0] == ids[i] && p[|p| - 1] == ids[k];
  }

  /** A sink reaches nothing but itself. */
  lemma SinkReachesNothing(edges: seq<Edge>, a: string, b: string)
    requires Sink(edges, a) && a != b
    ensures !Reachable(edges, a, b)
  {
    forall p | IsPath(edges, p) && p[0] == a && |p| >= 2
      ensures Edge(p[0], p[1]) in edges
    {
    }
  }
}
