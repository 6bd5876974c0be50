/** Walks and shortest paths of a graph given by adjacency lists, and how distance
    labels determine them. */
module GraphPaths {
  import opened Sums

  datatype Graph = Graph(adj: seq<seq<nat>>) {
    function Order(): nat { |adj| }

    ghost predicate Ok() {
      && (forall v, j :: 0 <= v < |adj| && 0 <= j < |adj[v]| ==> adj[v][j] < |adj|)
      && (forall v, i, j :: 0 <= v < |adj| && 0 <= i < j < |adj[v]| ==> adj[v][i] != adj[v][j])
    }

    predicate Edge(u: nat, t: nat) { u < |adj| && t < |adj| && t in adj[u] }
  }

  // ---------- Reference definitions ----------

  ghost predicate IsWalk(g: Graph, s: nat, p: seq<nat>, t: nat) {
    && |p| > 0 && p[0] == s < g.Order() && p[|p| - 1] == t
    && (forall i :: 0 <= i < |p| - 1 ==> g.Edge(p[i], p[i + 1]))
  }

  ghost predicate IsShortestPath(g: Graph, s: nat, p: seq<nat>, t: nat) {
    IsWalk(g, s, p, t) && forall q :: IsWalk(g, s, q, t) ==> |p| <= |q|
  }

  /** The walks of k edges. */
  ghost function Walks(g: Graph, s: nat, t: nat, k: nat): set<seq<nat>>
    decreases k
  {
    if k == 0 then if s == t && s < g.Order() then {[s]} else {}
    else set u: nat, p | 0 <= u < g.Order() && g.Edge(u, t) && p in Walks(g, s, u, k - 1) :: p + [t]
  }

  lemma {:induction false} WalksExact(g: Graph, s: nat, t: nat, k: nat, p: seq<nat>)
    ensures p in Walks(g, s, t, k) <==> IsWalk(g, s, p, t) && |p| == k + 1
    decreases k
  {
    if k == 0 {
      assert IsWalk(g, s, p, t) && |p| == 1 ==> p == [s];
    } else if |p| < 2 {
      if p in Walks(g, s, t, k) {
        var u: nat, q :| u < g.Order() && g.Edge(u, t) && q in Walks(g, s, u, k - 1) && p == q + [t];
        WalksExact(g, s, u, k - 1, q);
      }
    } else {
      var q, u := p[..|p| - 1], p[|p| - 2];
      WalksExact(g, s, u, k - 1, q);
      WalkSnoc(g, s, p, t);
      if p in Walks(g, s, t, k) {
        var u': nat, q' :| u' < g.Order() && g.Edge(u', t) && q' in Walks(g, s, u', k - 1) && p == q' + [t];
        WalksExact(g, s, u', k - 1, q');
        assert q' == q && u' == u;
      }
      if IsWalk(g, s, p, t) && |p| == k + 1 {
        assert p == q + [t];
      }
    }
  }

  /** A walk is a shorter walk and one more edge. */
  lemma {:induction false} WalkSnoc(g: Graph, s: nat, p: seq<nat>, t: nat)
    requires |p| >= 2
    ensures IsWalk(g, s, p, t) <==> p[|p| - 1] == t && IsWalk(g, s, p[..|p| - 1], p[|p| - 2]) && g.Edge(p[|p| - 2], t)
  {
    var q := p[..|p| - 1];
    assert forall i :: 0 <= i < |q| ==> q[i] == p[i];
    if p[|p| - 1] == t && IsWalk(g, s, q, p[|p| - 2]) && g.Edge(p[|p| - 2], t) {
      forall i | 0 <= i < |p| - 1
        ensures g.Edge(p[i], p[i + 1])
      {
        assert i < |q| - 1 ==> g.Edge(q[i], q[i + 1]);
      }
    }
  }

  ghost function ShortestPaths(g: Graph, s: nat, t: nat): (r: set<seq<nat>>)
    ensures forall p :: p in r <==> IsShortestPath(g, s, p, t)
  {
    if exists p :: IsShortestPath(g, s, p, t) then
      var p :| IsShortestPath(g, s, p, t);
      WalksAreShortest(g, s, t, p);
      Walks(g, s, t, |p| - 1)
    else {}
  }

  lemma {:induction false} WalksAreShortest(g: Graph, s: nat, t: nat, p: seq<nat>)
    requires IsShortestPath(g, s, p, t)
    ensures forall q :: q in Walks(g, s, t, |p| - 1) <==> IsShortestPath(g, s, q, t)
  {
    forall q
      ensures q in Walks(g, s, t, |p| - 1) <==> IsShortestPath(g, s, q, t)
    {
      WalksExact(g, s, t, |p| - 1, q);
    }
  }

  /** How many shortest paths there are, and how many of them visit v. */
  ghost function Paths(g: Graph, s: nat, t: nat): nat {
    |ShortestPaths(g, s, t)|
  }

  ghost function PathSetThrough(g: Graph, s: nat, v: nat, t: nat): set<seq<nat>> {
    set p | p in ShortestPaths(g, s, t) && v in p
  }

  ghost function PathsThrough(g: Graph, s: nat, v: nat, t: nat): nat {
    |PathSetThrough(g, s, v, t)|
  }

  // ---------- Distance labels ----------

  ghost predicate HasParent(g: Graph, d: seq<int>, t: nat) {
    exists u: nat :: Parent(g, d, u, t)
  }

  predicate Parent(g: Graph, d: seq<int>, u: nat, t: nat) {
    u < |d| && t < |d| && g.Edge(u, t) && 0 <= d[u] && d[t] == d[u] + 1
  }

  /** Labels that every edge and every vertex find locally consistent. */
  ghost predicate Labels(g: Graph, s: nat, d: seq<int>) {
    && |d| == g.Order() && s < |d| && d[s] == 0
    && (forall t :: 0 <= t < |d| ==> d[t] >= -1 && (d[t] == 0 ==> t == s))
    && (forall t :: 0 <= t < |d| && d[t] > 0 ==> HasParent(g, d, t))
    && (forall u, t :: 0 <= u < |d| && 0 <= t < |d| && g.Edge(u, t) && d[u] >= 0 ==> 0 <= d[t] <= d[u] + 1)
  }

  lemma {:induction false} LabelBound(g: Graph, s: nat, d: seq<int>, p: seq<nat>, t: nat)
    requires Labels(g, s, d) && IsWalk(g, s, p, t)
    ensures t < |d| && 0 <= d[t] < |p|
    decreases |p|
  {
    if |p| > 1 {
      WalkSnoc(g, s, p, t);
      LabelBound(g, s, d, p[..|p| - 1], p[|p| - 2]);
    }
  }

  lemma {:induction false} LabelWalk(g: Graph, s: nat, d: seq<int>, t: nat) returns (p: seq<nat>)
    requires Labels(g, s, d) && t < |d| && d[t] >= 0
    ensures IsWalk(g, s, p, t) && |p| == d[t] + 1
    decreases d[t]
  {
    if d[t] == 0 {
      p := [s];
    } else {
      assert HasParent(g, d, t);
      var u: nat :| Parent(g, d, u, t);
      var q := LabelWalk(g, s, d, u);
      p := q + [t];
      assert p[..|p| - 1] == q;
      WalkSnoc(g, s, p, t);
    }
  }

  /** Consistent labels are exactly the distances. */
  lemma {:induction false} LabelsAreDistances(g: Graph, s: nat, d: seq<int>, t: nat, p: seq<nat>)
    requires Labels(g, s, d) && t < |d|
    ensures IsShortestPath(g, s, p, t) <==> d[t] >= 0 && IsWalk(g, s, p, t) && |p| == d[t] + 1
    ensures d[t] >= 0 <==> exists q :: IsWalk(g, s, q, t)
  {
    if d[t] >= 0 {
      var q := LabelWalk(g, s, d, t);
    }
    forall q | IsWalk(g, s, q, t)
      ensures 0 <= d[t] < |q|
    {
      LabelBound(g, s, d, q, t);
    }
  }

  /** A shortest path is a shortest path to a parent and one more edge. */
  lemma {:induction false} LastStep(g: Graph, s: nat, d: seq<int>, t: nat, p: seq<nat>)
    requires Labels(g, s, d) && t < |d| && d[t] > 0
    ensures p in ShortestPaths(g, s, t) <==>
      |p| >= 2 && p[|p| - 1] == t && Parent(g, d, p[|p| - 2], t) && p[..|p| - 1] in ShortestPaths(g, s, p[|p| - 2])
  {
    hide IsShortestPath, ShortestPaths, IsWalk;
    PathsByLabel(g, s, d, t, p);
    if |p| >= 2 {
      var q, u := p[..|p| - 1], p[|p| - 2];
      WalkSnoc(g, s, p, t);
      if u < |d| {
        PathsByLabel(g, s, d, u, q);
        if IsWalk(g, s, q, u) {
          LabelBound(g, s, d, q, u);
        }
      }
    }
  }

  lemma {:induction false} PathsByLabel(g: Graph, s: nat, d: seq<int>, t: nat, p: seq<nat>)
    requires Labels(g, s, d) && t < |d|
    ensures p in ShortestPaths(g, s, t) <==> d[t] >= 0 && IsWalk(g, s, p, t) && |p| == d[t] + 1
  {
    LabelsAreDistances(g, s, d, t, p);
  }

  /** Labels along a shortest path increase, and reach their maximum only at its end. */
  lemma {:induction false} LabelsOnPath(g: Graph, s: nat, d: seq<int>, t: nat, p: seq<nat>, v: nat)
    requires Labels(g, s, d) && t < |d| && p in ShortestPaths(g, s, t) && v in p
    ensures v < |d| && 0 <= d[v] <= d[t] && (d[v] == d[t] ==> v == t) && s in p
    decreases d[t]
  {
    hide ShortestPaths;
    PathsByLabel(g, s, d, t, p);
    if d[t] == 0 {
      assert p == [s];
    } else {
      LastStep(g, s, d, t, p);
      var q, u := p[..|p| - 1], p[|p| - 2];
      assert p == q + [t];
      if v != t {
        LabelsOnPath(g, s, d, u, q, v);
      }
      assert p[0] == s;
    }
  }

  // ---------- Counting ----------

  lemma {:induction false} SameFront(p: seq<nat>, q: seq<nat>, t: nat)
    requires p + [t] == q + [t]
    ensures p == q
  {
    assert p == (p + [t])[..|p|] && q == (q + [t])[..|q|];
  }

  lemma {:induction false} ExtendCount(a: set<seq<nat>>, t: nat)
    ensures |set p | p in a :: p + [t]| == |a|
  {
    var b := set p | p in a :: p + [t];
    if a != {} {
      var q :| q in a;
      ExtendCount(a - {q}, t);
      var c := set p | p in a - {q} :: p + [t];
      if q + [t] in c {
        var p :| p in a - {q} && p + [t] == q + [t];
        SameFront(p, q, t);
      }
      assert b == c + {q + [t]};
    }
  }

  /** Shortest paths to t that visit v and whose last step starts below m. */
  ghost function Via(g: Graph, s: nat, v: nat, t: nat, m: nat): set<seq<nat>> {
    set p | p in PathSetThrough(g, s, v, t) && |p| >= 2 && p[|p| - 2] < m
  }

  ghost function ParentCounts(g: Graph, s: nat, d: seq<int>, v: nat, t: nat): nat -> real {
    (u: nat) => if Parent(g, d, u, t) then PathsThrough(g, s, v, u) as real else 0.0
  }

  lemma {:induction false} ViaStep(g: Graph, s: nat, d: seq<int>, v: nat, t: nat, m: nat)
    requires Labels(g, s, d) && t < |d| && d[t] > 0 && v != t && m < |d|
    ensures |Via(g, s, v, t, m + 1)| == |Via(g, s, v, t, m)| + if Parent(g, d, m, t) then PathsThrough(g, s, v, m) else 0
  {
    hide ShortestPaths, Labels;
    var last := set p | p in PathSetThrough(g, s, v, t) && |p| >= 2 && p[|p| - 2] == m;
    assert Via(g, s, v, t, m + 1) == Via(g, s, v, t, m) + last;
    if Parent(g, d, m, t) {
      var a := PathSetThrough(g, s, v, m);
      forall p
        ensures p in last <==> p in (set q | q in a :: q + [t])
      {
        LastStep(g, s, d, t, p);
        if p in last {
          assert p == p[..|p| - 1] + [t];
          assert p[..|p| - 1] in a;
        }
        if p in (set q | q in a :: q + [t]) {
          var q :| q in a && p == q + [t];
          PathsByLabel(g, s, d, m, q);
          assert p[..|p| - 1] == q && p[|p| - 2] == m;
        }
      }
      assert last == set q | q in a :: q + [t];
      ExtendCount(a, t);
    } else {
      forall p
        ensures p !in last
      {
        LastStep(g, s, d, t, p);
      }
      assert last == {};
    }
  }

  lemma {:induction false} ViaCount(g: Graph, s: nat, d: seq<int>, v: nat, t: nat, m: nat)
    requires Labels(g, s, d) && t < |d| && d[t] > 0 && v != t && m <= |d|
    ensures |Via(g, s, v, t, m)| as real == Sum(m, ParentCounts(g, s, d, v, t))
  {
    hide ShortestPaths, Labels;
    if m == 0 {
      assert Via(g, s, v, t, 0) == {};
    } else {
      ViaCount(g, s, d, v, t, m - 1);
      ViaStep(g, s, d, v, t, m - 1);
    }
  }

  /** Paths through v are counted by their last step. */
  lemma {:induction false} CountByParents(g: Graph, s: nat, d: seq<int>, v: nat, t: nat)
    requires Labels(g, s, d) && t < |d| && d[t] > 0 && v != t
    ensures PathsThrough(g, s, v, t) as real == Sum(|d|, ParentCounts(g, s, d, v, t))
  {
    hide ShortestPaths, Labels;
    forall p | p in PathSetThrough(g, s, v, t)
      ensures |p| >= 2 && p[|p| - 2] < |d|
    {
      LastStep(g, s, d, t, p);
    }
    assert Via(g, s, v, t, |d|) == PathSetThrough(g, s, v, t);
    ViaCount(g, s, d, v, t, |d|);
  }

  /** Paths only visit reachable vertices that are nearer than their end. */
  lemma {:induction false} NoneBeyond(g: Graph, s: nat, d: seq<int>, v: nat, t: nat)
    requires Labels(g, s, d) && t < |d| && v < |d| && v != t && (d[v] < 0 || d[v] >= d[t])
    ensures PathsThrough(g, s, v, t) == 0
  {
    hide ShortestPaths, Labels;
    forall p | p in ShortestPaths(g, s, t)
      ensures v !in p
    {
      if v in p {
        LabelsOnPath(g, s, d, t, p, v);
      }
    }
    assert PathSetThrough(g, s, v, t) == {};
  }

  /** Every path visits its start and its end. */
  lemma {:induction false} AllVisitEnds(g: Graph, s: nat, t: nat)
    ensures PathsThrough(g, s, s, t) == PathsThrough(g, s, t, t) == Paths(g, s, t)
  {
    assert PathSetThrough(g, s, s, t) == ShortestPaths(g, s, t);
    assert PathSetThrough(g, s, t, t) == ShortestPaths(g, s, t);
  }

  lemma {:induction false} PathsToStart(g: Graph, s: nat, d: seq<int>)
    requires Labels(g, s, d)
    ensures Paths(g, s, s) == 1
  {
    hide ShortestPaths;
    forall p
      ensures p in ShortestPaths(g, s, s) <==> p == [s]
    {
      PathsByLabel(g, s, d, s, p);
    }
    assert ShortestPaths(g, s, s) == {[s]};
  }

  lemma {:induction false} SomePath(g: Graph, s: nat, d: seq<int>, t: nat)
    requires Labels(g, s, d) && t < |d|
    ensures Paths(g, s, t) > 0 <==> d[t] >= 0
  {
    hide ShortestPaths, Labels;
    if d[t] >= 0 {
      var p := LabelWalk(g, s, d, t);
      PathsByLabel(g, s, d, t, p);
    } else {
      forall p
        ensures p !in ShortestPaths(g, s, t)
      {
        PathsByLabel(g, s, d, t, p);
      }
      assert ShortestPaths(g, s, t) == {};
    }
  }
}
