/** Betweenness centrality: one search per source, dependencies accumulated in
    reverse order of distance. */
module Betweenness {
  import opened Sums
  import opened GraphPaths
  import opened Dependency
  import opened GraphSearch

  // ---------- Reference definition ----------

  /** The fraction of shortest paths from s to t with v strictly between them. */
  ghost function PairShare(g: Graph, s: nat, v: nat, t: nat): real {
    if s == t || v == s || v == t || Paths(g, s, t) == 0 then 0.0
    else PathsThrough(g, s, v, t) as real / Paths(g, s, t) as real
  }

  ghost function PairShares(g: Graph, v: nat): (nat, nat) -> real {
    (s: nat, t: nat) => PairShare(g, s, v, t)
  }

  /** The sum over all ordered pairs. */
  ghost function Centrality(g: Graph, v: nat): real {
    Sum(g.Order(), RowSums(g.Order(), PairShares(g, v)))
  }

  lemma {:induction false} NoDetour(g: Graph, s: nat, v: nat)
    requires v != s
    ensures PathsThrough(g, s, v, s) == 0
  {
    forall p | p in ShortestPaths(g, s, s)
      ensures v !in p
    {
      assert IsWalk(g, s, [s], s);
    }
    assert PathSetThrough(g, s, v, s) == {};
  }

  /** Dependencies are the row sums of the pair shares. */
  lemma {:induction false} DependencyIsRow(g: Graph, s: nat, v: nat)
    ensures Sum(g.Order(), Row(PairShares(g, v), s)) == if v == s then 0.0 else DependencyOn(g, s, v)
  {
    hide Paths, PathsThrough;
    if v == s {
      SumZero(g.Order(), Row(PairShares(g, v), s));
    } else {
      NoDetour(g, s, v);
      SumSame(g.Order(), Row(PairShares(g, v), s), Shares(g, s, v));
    }
  }

  // ---------- Accumulation ----------

  /** What v inherits from its children among the vertices `later`. */
  ghost function Partial(g: Graph, s: nat, d: seq<int>, later: seq<nat>, v: nat): nat -> real {
    (w: nat) => if w in later then Inherited(g, s, d, v)(w) else 0.0
  }

  ghost function Gathered(g: Graph, s: nat, d: seq<int>, later: seq<nat>, v: nat): real {
    Sum(|d|, Partial(g, s, d, later, v))
  }

  lemma {:induction false} GatheredNone(g: Graph, s: nat, d: seq<int>, v: nat)
    ensures Gathered(g, s, d, [], v) == 0.0
  {
    SumZero(|d|, Partial(g, s, d, [], v));
  }

  lemma {:induction false} GatheredMore(g: Graph, s: nat, d: seq<int>, later: seq<nat>, w: nat, v: nat)
    requires w < |d| && w !in later
    ensures Gathered(g, s, d, [w] + later, v) == Gathered(g, s, d, later, v) + Inherited(g, s, d, v)(w)
  {
    hide Inherited;
    SumChange(|d|, Partial(g, s, d, later, v), Partial(g, s, d, [w] + later, v), w);
  }

  /** When all vertices behind w have been handled, what w has gathered is complete. */
  lemma {:induction false} GatheredAll(g: Graph, s: nat, b: Bfs, i: nat)
    requires Searched(g, s, b) && i < |b.queue|
    ensures b.queue[i] < |b.d| && Gathered(g, s, b.d, b.queue[i + 1..], b.queue[i]) == DependencyOn(g, s, b.queue[i])
  {
    var w := b.queue[i];
    assert w in b.queue;
    forall x | 0 <= x < |b.d|
      ensures Partial(g, s, b.d, b.queue[i + 1..], w)(x) == Inherited(g, s, b.d, w)(x)
    {
      ChildIsLater(g, s, b, i, x);
      hide DependencyOn, Searched;
    }
    hide Weight, DependencyOn, Searched;
    SumSame(|b.d|, Partial(g, s, b.d, b.queue[i + 1..], w), Inherited(g, s, b.d, w));
    SearchedLabels(g, s, b);
    BrandesRecursion(g, s, b.d, w);
  }

  lemma {:induction false} SearchedLabels(g: Graph, s: nat, b: Bfs)
    requires Searched(g, s, b)
    ensures Labels(g, s, b.d) && |b.d| == |b.sigma| == |b.parents| == g.Order()
  {
  }

  lemma {:induction false} ChildIsLater(g: Graph, s: nat, b: Bfs, i: nat, x: nat)
    requires Searched(g, s, b) && i < |b.queue| && x < |b.d|
    ensures x in b.queue[i + 1..] || Weight(g, s, b.d, b.queue[i], x) == 0.0
  {
    hide Paths, Distinct;
    var w := b.queue[i];
    if Parent(g, b.d, w, x) {
      var k :| 0 <= k < |b.queue| && b.queue[k] == x;
      assert b.d[x] > b.d[w];
      assert k > i;
      assert b.queue[i + 1..][k - i - 1] == x;
    }
  }

  /** The vertex that has just been handled: w, for whose parents in `ps` it is done. */
  ghost predicate Accumulated(g: Graph, s: nat, d: seq<int>, delta: seq<real>, later: seq<nat>, w: nat, ps: seq<nat>) {
    |delta| == |d| && forall v :: 0 <= v < |delta| ==>
      delta[v] == Gathered(g, s, d, later, v) + if v in ps then Inherited(g, s, d, v)(w) else 0.0
  }

  lemma {:induction false} AccumulateParent(g: Graph, s: nat, d: seq<int>, delta: seq<real>, later: seq<nat>, w: nat, ps: seq<nat>, v: nat, x: real)
    requires Accumulated(g, s, d, delta, later, w, ps) && v < |delta| && v !in ps
    requires x == Inherited(g, s, d, v)(w)
    ensures Accumulated(g, s, d, delta[v := delta[v] + x], later, w, ps + [v])
  {
    hide Gathered, Inherited;
  }

  lemma {:induction false} AccumulateNext(g: Graph, s: nat, d: seq<int>, delta: seq<real>, later: seq<nat>, w: nat, ps: seq<nat>, next: nat)
    requires Accumulated(g, s, d, delta, later, w, ps) && w < |d| && w !in later
    requires forall v: nat :: v in ps <==> Parent(g, d, v, w)
    ensures Accumulated(g, s, d, delta, [w] + later, next, [])
  {
    hide Gathered, DependencyOn;
    forall v | 0 <= v < |delta|
      ensures delta[v] == Gathered(g, s, d, [w] + later, v)
    {
      GatheredMore(g, s, d, later, w, v);
    }
  }

  lemma {:induction false} AccumulateStart(g: Graph, s: nat, d: seq<int>, delta: seq<real>, w: nat)
    requires |delta| == |d| && forall v :: 0 <= v < |delta| ==> delta[v] == 0.0
    ensures Accumulated(g, s, d, delta, [], w, [])
  {
    hide Gathered, Inherited;
    forall v | 0 <= v < |delta|
      ensures Gathered(g, s, d, [], v) == 0.0
    {
      GatheredNone(g, s, d, v);
    }
  }

  lemma {:induction false} OtherVertex(g: Graph, s: nat, d: seq<int>, delta: seq<real>, later: seq<nat>, w: nat, x: nat)
    requires Accumulated(g, s, d, delta, later, w, [])
    ensures Accumulated(g, s, d, delta, later, x, [])
  {
    hide Gathered, Inherited;
  }

  /** The facts about vertex i of the queue that its step of the accumulation uses. */
  lemma {:induction false} QueueVertex(g: Graph, s: nat, b: Bfs, i: nat)
    requires Searched(g, s, b) && i < |b.queue|
    ensures var w := b.queue[i];
      && w < |b.d| == |b.sigma| == |b.parents| && w !in b.queue[i + 1..] && b.queue[i..] == [w] + b.queue[i + 1..]
      && w !in b.parents[w] && Distinct(b.parents[w])
      && forall v: nat :: v in b.parents[w] <==> Parent(g, b.d, v, w)
  {
    hide Paths;
    var w := b.queue[i];
    assert w in b.queue;
  }

  lemma {:induction false} SearchedParent(g: Graph, s: nat, b: Bfs, w: nat, v: nat)
    requires Searched(g, s, b) && w < |b.parents| && v in b.parents[w]
    ensures v < |b.d| == |b.sigma| && w < |b.d| && Parent(g, b.d, v, w) && Labels(g, s, b.d) && b.d[w] >= 0
    ensures b.sigma[v] == Paths(g, s, v) as real && b.sigma[w] == Paths(g, s, w) as real
  {
    SearchedLabels(g, s, b);
    hide Paths, Distinct;
  }

  lemma {:induction false} PortionOfParent(g: Graph, s: nat, b: Bfs, w: nat, v: nat)
    requires Searched(g, s, b) && w < |b.parents| && v in b.parents[w]
    ensures v < |b.d| == |b.sigma| && w < |b.d|
    ensures Portion(b.sigma[v], b.sigma[w], DependencyOn(g, s, w)) == Inherited(g, s, b.d, v)(w)
  {
    hide Paths, DependencyOn, Searched, Labels;
    SearchedParent(g, s, b, w, v);
    SomePath(g, s, b.d, w);
  }

  lemma {:induction false} NotBefore(s: seq<nat>, j: nat)
    requires Distinct(s) && j < |s|
    ensures s[j] in s && s[j] !in s[..j]
  {
  }

  /** What a vertex with `paths` paths gets from a child. */
  function Portion(paths: real, childPaths: real, dependency: real): real {
    if childPaths == 0.0 then 0.0 else paths / childPaths * (1.0 + dependency)
  }

  lemma {:induction false} ReadAccumulated(g: Graph, s: nat, d: seq<int>, delta: seq<real>, later: seq<nat>, w: nat, ps: seq<nat>, x: nat)
    requires Accumulated(g, s, d, delta, later, w, ps) && x !in ps && x < |d|
    ensures |delta| == |d| && delta[x] == Gathered(g, s, d, later, x)
  {
    hide Gathered, Inherited;
  }

  /** Hand the dependency of vertex i of the queue on to its parents. */
  method HandOn(g: Graph, s: nat, ghost b: Bfs, sigma: array<real>, parents: array<seq<nat>>, queue: seq<nat>, delta: array<real>, i: nat)
    requires Searched(g, s, b) && sigma[..] == b.sigma && parents[..] == b.parents && queue == b.queue
    requires i < |queue| && delta != sigma && Accumulated(g, s, b.d, delta[..], queue[i + 1..], 0, [])
    modifies delta
    ensures queue[i] < delta.Length && delta[queue[i]] == DependencyOn(g, s, queue[i])
    ensures Accumulated(g, s, b.d, delta[..], queue[i..], 0, [])
  {
    hide Searched, DependencyOn, Gathered, Accumulated, Inherited, Weight, Portion, Parent, Distinct;
    QueueVertex(g, s, b, i);
    GatheredAll(g, s, b, i);
    var w := queue[i];
    ReadAccumulated(g, s, b.d, delta[..], queue[i + 1..], 0, [], w);
    OtherVertex(g, s, b.d, delta[..], queue[i + 1..], 0, w);
    var ps := parents[w];
    ghost var later := queue[i + 1..];
    for j := 0 to |ps|
      invariant delta.Length == |b.d| && Accumulated(g, s, b.d, delta[..], later, w, ps[..j])
      invariant delta[w] == DependencyOn(g, s, w)
    {
      var v := ps[j];
      NotBefore(ps, j);
      PortionOfParent(g, s, b, w, v);
      assert sigma[w] == b.sigma[w] && sigma[v] == b.sigma[v];
      var x := Portion(sigma[v], sigma[w], delta[w]);
      AccumulateParent(g, s, b.d, delta[..], later, w, ps[..j], v, x);
      ghost var before := delta[..];
      delta[v] := delta[v] + x;
      assert delta[..] == before[v := before[v] + x];
      assert ps[..j + 1] == ps[..j] + [v];
    }
    assert ps[..|ps|] == ps;
    AccumulateNext(g, s, b.d, delta[..], later, w, ps, 0);
  }

  lemma {:induction false} NoShare(g: Graph, s: nat, d: seq<int>, x: nat, t: nat)
    requires Labels(g, s, d) && x < |d| && d[x] < 0 && t < |d|
    ensures Share(g, s, x, t) == 0.0
  {
    hide Labels, Paths, PathsThrough;
    if t != x {
      NoneBeyond(g, s, d, x, t);
    }
  }

  lemma {:induction false} Unreachable(g: Graph, s: nat, b: Bfs, x: nat)
    requires Searched(g, s, b) && x < |b.d| && x !in b.queue
    ensures DependencyOn(g, s, x) == 0.0
  {
    SearchedLabels(g, s, b);
    assert b.d[x] < 0;
    hide Searched, Labels, Share;
    forall t | 0 <= t < |b.d|
      ensures Shares(g, s, x)(t) == 0.0
    {
      NoShare(g, s, b.d, x, t);
    }
    SumZero(|b.d|, Shares(g, s, x));
  }

  ghost function From(g: Graph, s: nat, v: nat): real {
    if v == s then 0.0 else DependencyOn(g, s, v)
  }

  /** Add the dependencies of one source to the totals. */
  method AddSource(g: Graph, s: nat, between: array<real>)
    requires g.Ok() && s < g.Order() == between.Length
    modifies between
    ensures forall v :: 0 <= v < between.Length ==> between[v] == old(between[v]) + From(g, s, v)
  {
    hide Searched, DependencyOn, Accumulated, Graph.Ok;
    var d, sigma, parents, queue := Search(g, s);
    ghost var b := State(d, sigma, parents, queue);
    SearchedLabels(g, s, b);
    var delta := new real[between.Length](i => 0.0);
    AccumulateStart(g, s, b.d, delta[..], 0);
    assert queue[|queue|..] == [];
    var i: nat := |queue|;
    while i > 0
      invariant 0 <= i <= |queue| && delta != sigma && State(d, sigma, parents, queue) == b
      invariant Accumulated(g, s, b.d, delta[..], queue[i..], 0, [])
      invariant forall v :: 0 <= v < between.Length ==>
        between[v] == old(between[v]) + if v in queue[i..] then From(g, s, v) else 0.0
    {
      i := i - 1;
      HandOn(g, s, b, sigma, parents, queue, delta, i);
      QueueVertex(g, s, b, i);
      var w := queue[i];
      if w != s {
        between[w] := between[w] + delta[w];
      }
    }
    assert queue[0..] == queue;
    forall v | 0 <= v < between.Length && v !in queue
      ensures DependencyOn(g, s, v) == 0.0
    {
      Unreachable(g, s, b, v);
    }
  }

  ghost function Sources(g: Graph, v: nat): nat -> real {
    (s: nat) => From(g, s, v)
  }

  lemma {:induction false} AllSources(g: Graph, v: nat)
    ensures Sum(g.Order(), Sources(g, v)) == Centrality(g, v)
  {
    hide DependencyOn, PairShare;
    forall s | 0 <= s < g.Order()
      ensures Sources(g, v)(s) == RowSums(g.Order(), PairShares(g, v))(s)
    {
      DependencyIsRow(g, s, v);
    }
    SumSame(g.Order(), Sources(g, v), RowSums(g.Order(), PairShares(g, v)));
  }

  function Normalised(n: nat, x: real): real {
    if n > 2 then x / ((n - 1) * (n - 2)) as real else x
  }

  /** Betweenness of every vertex, normalised by the number of ordered pairs. */
  method AllBetweenness(g: Graph) returns (between: array<real>)
    requires g.Ok()
    ensures fresh(between) && between.Length == g.Order()
    ensures forall v :: 0 <= v < g.Order() ==> between[v] == Normalised(g.Order(), Centrality(g, v))
  {
    hide From, Centrality, Graph.Ok, Normalised;
    var n := |g.adj|;
    between := new real[n](i => 0.0);
    for s := 0 to n
      invariant forall v :: 0 <= v < n ==> between[v] == Sum(s, Sources(g, v))
    {
      AddSource(g, s, between);
    }
    forall v | 0 <= v < n
      ensures between[v] == Centrality(g, v)
    {
      AllSources(g, v);
    }
    hide Sum, Sources;
    for i := 0 to n
      invariant forall v :: 0 <= v < n ==> between[v] == if v < i then Normalised(n, Centrality(g, v)) else Centrality(g, v)
    {
      between[i] := Normalised(n, between[i]);
    }
  }
}
