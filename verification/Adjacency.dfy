/** Adjacency lists from a list of undirected edges that may repeat. */
module Adjacency {
  import opened GraphPaths
  import opened GraphSearch
  import opened Betweenness

  predicate ValidEdge(n: nat, e: (int, int)) {
    0 <= e.0 < n && 0 <= e.1 < n && e.0 != e.1
  }

  /** The list joins u and t, in whichever direction. */
  ghost predicate Joins(edges: seq<(int, int)>, u: int, t: int) {
    (u, t) in edges || (t, u) in edges
  }

  /** Each vertex lists exactly its neighbours, each once. */
  ghost predicate Lists(n: nat, edges: seq<(int, int)>, adj: seq<seq<nat>>) {
    && |adj| == n
    && (forall u :: 0 <= u < n ==> Distinct(adj[u]) && Below(adj[u], n))
    && (forall u: nat, t: nat :: u < n && t < n ==> (t in adj[u] <==> Joins(edges, u, t)))
  }

  lemma {:induction false} JoinsMore(edges: seq<(int, int)>, a: int, b: int, u: int, t: int)
    ensures Joins(edges + [(a, b)], u, t) <==> Joins(edges, u, t) || (u == a && t == b) || (u == b && t == a)
  {
  }

  lemma {:induction false} DistinctMore(s: seq<nat>, x: nat, n: nat)
    requires Distinct(s) && Below(s, n) && x !in s && x < n
    ensures Distinct(s + [x]) && Below(s + [x], n)
  {
  }

  lemma {:induction false} ListsMore(n: nat, edges: seq<(int, int)>, adj: seq<seq<nat>>, e: (int, int), a: nat, b: nat)
    requires Lists(n, edges, adj) && ValidEdge(n, e) && ((a, b) == e || (b, a) == e)
    ensures Joins(edges, a, b) ==> Lists(n, edges + [e], adj)
    ensures !Joins(edges, a, b) ==> Lists(n, edges + [e], adj[a := adj[a] + [b]][b := adj[b] + [a]])
  {
    hide Distinct, Below;
    forall u: nat, t: nat | u < n && t < n
      ensures Joins(edges + [e], u, t) <==> Joins(edges, u, t) || (u == a && t == b) || (u == b && t == a)
    {
      JoinsMore(edges, e.0, e.1, u, t);
    }
    if !Joins(edges, a, b) {
      assert Joins(edges, b, a) <==> Joins(edges, a, b);
      DistinctMore(adj[a], b, n);
      DistinctMore(adj[b], a, n);
    }
  }

  method BuildAdjacency(n: nat, edges: seq<(int, int)>) returns (ok: bool, g: Graph)
    ensures ok <==> n == 0 || forall i :: 0 <= i < |edges| ==> ValidEdge(n, edges[i])
    ensures ok ==> g.Order() == n && g.Ok()
    ensures ok ==> forall u: nat, t: nat :: g.Edge(u, t) <==> u < n && t < n && Joins(edges, u, t)
  {
    hide Distinct, Below, Joins, Lists;
    var adj := new seq<nat>[n](i => []);
    g := Graph(adj[..]);
    if n == 0 {
      return true, g;
    }
    var seen: set<(int, int)> := {};
    assert edges[..0] == [];
    NoLists(n, adj[..]);
    for i := 0 to |edges|
      invariant forall k :: 0 <= k < i ==> ValidEdge(n, edges[k])
      invariant Lists(n, edges[..i], adj[..])
      invariant forall u: nat, t: nat :: u <= t ==> ((u, t) in seen <==> Joins(edges[..i], u, t))
    {
      if !ValidEdge(n, edges[i]) {
        return false, g;
      }
      var a, b := edges[i].0, edges[i].1;
      if a > b {
        a, b := b, a;
      }
      ghost var before := adj[..];
      ListsMore(n, edges[..i], before, edges[i], a, b);
      assert edges[..i + 1] == edges[..i] + [edges[i]];
      forall u: nat, t: nat | u <= t
        ensures Joins(edges[..i + 1], u, t) <==> Joins(edges[..i], u, t) || (u == a && t == b)
      {
        JoinsMore(edges[..i], edges[i].0, edges[i].1, u, t);
      }
      if (a, b) !in seen {
        seen := seen + {(a, b)};
        adj[a] := adj[a] + [b];
        adj[b] := adj[b] + [a];
        assert adj[..] == before[a := before[a] + [b]][b := before[b] + [a]];
      }
    }
    assert edges[..|edges|] == edges;
    g := Graph(adj[..]);
    ListsOk(n, edges, g);
    return true, g;
  }

  lemma {:induction false} NoLists(n: nat, adj: seq<seq<nat>>)
    requires |adj| == n && forall u :: 0 <= u < n ==> adj[u] == []
    ensures Lists(n, [], adj) && forall u: nat, t: nat :: !Joins([], u, t)
  {
  }

  lemma {:induction false} ListsOk(n: nat, edges: seq<(int, int)>, g: Graph)
    requires Lists(n, edges, g.adj)
    ensures g.Order() == n && g.Ok()
    ensures forall u: nat, t: nat :: g.Edge(u, t) <==> u < n && t < n && Joins(edges, u, t)
  {
  }

  /** Betweenness of an edge list: refused exactly for invalid edges, otherwise exact. */
  method EdgeListBetweenness(n: nat, edges: seq<(int, int)>) returns (ok: bool, ghost g: Graph, between: array<real>)
    ensures ok <==> n == 0 || forall i :: 0 <= i < |edges| ==> ValidEdge(n, edges[i])
    ensures ok ==>
      && g.Order() == n && (forall u: nat, t: nat :: g.Edge(u, t) <==> u < n && t < n && Joins(edges, u, t))
      && between.Length == n && forall v :: 0 <= v < n ==> between[v] == Normalised(n, Centrality(g, v))
  {
    hide Centrality, Joins, Graph.Ok;
    var graph;
    ok, graph := BuildAdjacency(n, edges);
    g := graph;
    if !ok {
      between := new real[0];
      return;
    }
    between := AllBetweenness(graph);
  }
}
