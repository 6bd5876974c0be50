/** What normalised betweenness means: it lies between 0 and 1, and the centre of a star
    has 1. */
module CentralityBounds {
  import opened Sums
  import opened GraphPaths
  import opened Dependency
  import opened Betweenness
  import SetSums

  /** k times c. */
  function Times(k: int, c: real): real {
    k as real * c
  }

  lemma {:induction false} OnceMore(k: int, c: real)
    ensures Times(k + 1, c) == Times(k, c) + c && Times(0, c) == 0.0
  {
  }

  /** A sum of values up to c of which some are zero. */
  lemma {:induction false} SumSkips(n: nat, f: nat -> real, skip: set<nat>, c: real)
    requires (forall i :: i in skip ==> i < n && f(i) == 0.0) && forall i :: 0 <= i < n ==> 0.0 <= f(i) <= c
    ensures |skip| <= n && 0.0 <= Sum(n, f) <= Times(n - |skip|, c)
    ensures (forall i :: 0 <= i < n && i !in skip ==> f(i) == c) ==> Sum(n, f) == Times(n - |skip|, c)
  {
    hide Times;
    if n == 0 {
      assert skip == {};
      OnceMore(0, c);
    } else if n - 1 in skip {
      var rest := skip - {n - 1};
      SumSkips(n - 1, f, rest, c);
      assert |rest| == |skip| - 1;
    } else {
      SumSkips(n - 1, f, skip, c);
      OnceMore(n - 1 - |skip|, c);
    }
  }

  lemma {:induction false} ShareBounds(g: Graph, s: nat, v: nat, t: nat)
    ensures 0.0 <= PairShare(g, s, v, t) <= 1.0
    ensures s != t && v != s && v != t && Paths(g, s, t) > 0 && (forall p :: IsShortestPath(g, s, p, t) ==> v in p) ==>
      PairShare(g, s, v, t) == 1.0
  {
    hide IsShortestPath;
    var all, through := ShortestPaths(g, s, t), PathSetThrough(g, s, v, t);
    SetSums.Contained(through, all);
    if forall p :: IsShortestPath(g, s, p, t) ==> v in p {
      assert through == all;
    }
    hide ShortestPaths, PathSetThrough;
    if Paths(g, s, t) > 0 {
      Ratio(PathsThrough(g, s, v, t) as real, Paths(g, s, t) as real);
    }
  }

  lemma {:induction false} Ratio(a: real, b: real)
    requires 0.0 <= a <= b && b > 0.0
    ensures 0.0 <= a / b <= 1.0 && (a == b ==> a / b == 1.0)
  {
    assert a / b * b == a;
    Fraction(a / b, b);
  }

  lemma {:induction false} Fraction(q: real, b: real)
    requires b > 0.0
    ensures (q > 1.0 ==> q * b > b) && (q < 0.0 ==> q * b < 0.0) && (q * b == b ==> q == 1.0)
  {
    assert (q - 1.0) * b == q * b - b;
  }

  /** Every vertex other than s, t and v lies where v is passed. */
  ghost predicate AlwaysBetween(g: Graph, v: nat) {
    forall s: nat, t: nat :: s < g.Order() && t < g.Order() && s != t && s != v && t != v ==>
      Paths(g, s, t) > 0 && forall p :: IsShortestPath(g, s, p, t) ==> v in p
  }

  lemma {:induction false} RowBounds(g: Graph, v: nat, s: nat)
    requires v < g.Order() && s < g.Order() && g.Order() >= 2
    ensures 0.0 <= Sum(g.Order(), Row(PairShares(g, v), s)) <= (g.Order() - 2) as real
    ensures s == v ==> Sum(g.Order(), Row(PairShares(g, v), s)) == 0.0
    ensures s != v && AlwaysBetween(g, v) ==> Sum(g.Order(), Row(PairShares(g, v), s)) == (g.Order() - 2) as real
  {
    hide Paths, PathsThrough, IsShortestPath;
    var n, f := g.Order(), Row(PairShares(g, v), s);
    forall t | 0 <= t < n
      ensures 0.0 <= f(t) <= 1.0
      ensures s != v && AlwaysBetween(g, v) && t !in {s, v} ==> f(t) == 1.0
    {
      ShareBounds(g, s, v, t);
    }
    if s == v {
      SumZero(n, f);
    } else {
      assert f(s) == 0.0 && f(v) == 0.0;
      SumSkips(n, f, {s, v}, 1.0);
      assert |{s, v}| == 2 && Times(n - 2, 1.0) == (n - 2) as real;
    }
  }

  lemma {:induction false} CentralityRange(g: Graph, v: nat)
    requires v < g.Order() && g.Order() >= 2
    ensures var n := g.Order();
            && 0.0 <= Centrality(g, v) <= Times(n - 1, (n - 2) as real)
            && (AlwaysBetween(g, v) ==> Centrality(g, v) == Times(n - 1, (n - 2) as real))
  {
    hide PairShare, AlwaysBetween;
    var n, f := g.Order(), RowSums(g.Order(), PairShares(g, v));
    forall s | 0 <= s < n
      ensures 0.0 <= f(s) <= (n - 2) as real && (s == v ==> f(s) == 0.0) && (s != v && AlwaysBetween(g, v) ==> f(s) == (n - 2) as real)
    {
      RowBounds(g, v, s);
    }
    SumSkips(n, f, {v}, (n - 2) as real);
  }

  /** Normalising divides by the number of ordered pairs of other vertices. */
  lemma {:induction false} NormalisedIs(n: nat, x: real)
    ensures n > 2 ==> Normalised(n, x) * ((n - 1) * (n - 2)) as real == x
    ensures n <= 2 ==> Normalised(n, x) == x
  {
    if n > 2 {
      PairCount(n);
    }
  }

  /** Main result: normalised betweenness is a fraction, and 1 for a vertex that every
      shortest path between two others passes. */
  lemma {:induction false} NormalisedRange(g: Graph, v: nat)
    requires v < g.Order() && g.Order() > 2
    ensures 0.0 <= Normalised(g.Order(), Centrality(g, v)) <= 1.0
    ensures AlwaysBetween(g, v) ==> Normalised(g.Order(), Centrality(g, v)) == 1.0
  {
    hide Centrality, AlwaysBetween;
    CentralityRange(g, v);
    var n := g.Order();
    assert ((n - 1) * (n - 2)) as real == Times(n - 1, (n - 2) as real) > 0.0 by { PairCount(n); }
    Ratio(Centrality(g, v), ((n - 1) * (n - 2)) as real);
  }

  lemma {:induction false} PairCount(n: nat)
    requires n > 2
    ensures ((n - 1) * (n - 2)) as real == Times(n - 1, (n - 2) as real) > 0.0
  {
    assert (n - 1) * (n - 2) >= 1 * 1;
  }

  // ---------- A star ----------

  /** Vertex 0 is joined to all others, and these to nothing else. */
  ghost predicate IsStar(g: Graph) {
    forall u: nat, t: nat :: g.Edge(u, t) <==> u < g.Order() && t < g.Order() && u != t && (u == 0 || t == 0)
  }

  lemma {:induction false} StarPath(g: Graph, s: nat, t: nat)
    requires IsStar(g) && s < g.Order() && t < g.Order() && s != t && s != 0 && t != 0
    ensures IsShortestPath(g, s, [s, 0, t], t)
    ensures forall p :: IsShortestPath(g, s, p, t) ==> 0 in p
  {
    var way := [s, 0, t];
    assert IsWalk(g, s, way, t);
    forall p | IsWalk(g, s, p, t)
      ensures |p| >= 3 && (|p| == 3 ==> 0 in p)
    {
      assert |p| == 1 ==> s == t;
      assert |p| >= 2 ==> g.Edge(p[0], p[1]);
      assert |p| >= 2 ==> p[1] == 0;
    }
  }

  /** The centre of a star with three vertices or more has betweenness 1. */
  lemma {:induction false} StarCentre(g: Graph)
    requires IsStar(g) && g.Order() > 2
    ensures Normalised(g.Order(), Centrality(g, 0)) == 1.0
  {
    hide Centrality, IsShortestPath, IsStar;
    forall s: nat, t: nat | s < g.Order() && t < g.Order() && s != t && s != 0 && t != 0
      ensures Paths(g, s, t) > 0 && forall p :: IsShortestPath(g, s, p, t) ==> 0 in p
    {
      StarPath(g, s, t);
      assert [s, 0, t] in ShortestPaths(g, s, t);
    }
    NormalisedRange(g, 0);
  }
}
