/** Brandes' recursion: how the share of shortest paths through a vertex follows from
    the shares through its children. */
module Dependency {
  import opened Sums
  import opened GraphPaths

  ghost function Through(g: Graph, s: nat, v: nat, t: nat): real {
    PathsThrough(g, s, v, t) as real
  }

  /** The fraction of the shortest paths from s to t that visit v on the way. */
  ghost function Share(g: Graph, s: nat, v: nat, t: nat): real {
    if t == v || Paths(g, s, t) == 0 then 0.0 else Through(g, s, v, t) / Paths(g, s, t) as real
  }

  ghost function Shares(g: Graph, s: nat, v: nat): nat -> real {
    (t: nat) => Share(g, s, v, t)
  }

  /** The dependency of source s on v: the sum of its shares over all targets. */
  ghost function DependencyOn(g: Graph, s: nat, v: nat): real {
    Sum(g.Order(), Shares(g, s, v))
  }

  ghost function Weight(g: Graph, s: nat, d: seq<int>, v: nat, w: nat): real {
    if Parent(g, d, v, w) && Paths(g, s, w) > 0 then Paths(g, s, v) as real / Paths(g, s, w) as real else 0.0
  }

  // ---------- Paths by their next step ----------

  ghost function ChildCounts(g: Graph, s: nat, d: seq<int>, v: nat, t: nat): nat -> real {
    (w: nat) => Weight(g, s, d, v, w) * Through(g, s, w, t)
  }

  /** Last step from u, next step after v to w. */
  ghost function BothSteps(g: Graph, s: nat, d: seq<int>, v: nat, t: nat): (nat, nat) -> real {
    (u: nat, w: nat) => if Parent(g, d, u, t) then Weight(g, s, d, v, w) * Through(g, s, w, u) else 0.0
  }

  /** A child of v is on no path to a vertex at the distance of v or nearer. */
  lemma {:induction false} NoChildOnPath(g: Graph, s: nat, d: seq<int>, v: nat, t: nat, w: nat)
    requires Labels(g, s, d) && v < |d| && t < |d| && d[t] <= d[v]
    ensures Weight(g, s, d, v, w) * Through(g, s, w, t) == 0.0
  {
    hide Labels, PathsThrough, Paths;
    if Parent(g, d, v, w) {
      NoneBeyond(g, s, d, w, t);
    }
  }

  lemma {:induction false} NoChildrenOnPath(g: Graph, s: nat, d: seq<int>, v: nat, t: nat)
    requires Labels(g, s, d) && v < |d| && t < |d| && d[t] <= d[v]
    ensures Sum(|d|, ChildCounts(g, s, d, v, t)) == 0.0
  {
    hide Labels, Weight, Through;
    forall w | 0 <= w < |d|
      ensures ChildCounts(g, s, d, v, t)(w) == 0.0
    {
      NoChildOnPath(g, s, d, v, t, w);
    }
    SumZero(|d|, ChildCounts(g, s, d, v, t));
  }

  lemma {:induction false} RowOfBothSteps(g: Graph, s: nat, d: seq<int>, v: nat, t: nat, u: nat)
    ensures Sum(|d|, Row(BothSteps(g, s, d, v, t), u)) ==
      if Parent(g, d, u, t) then Sum(|d|, ChildCounts(g, s, d, v, u)) else 0.0
  {
    hide Weight, Through;
    if Parent(g, d, u, t) {
      SumSame(|d|, Row(BothSteps(g, s, d, v, t), u), ChildCounts(g, s, d, v, u));
    } else {
      SumZero(|d|, Row(BothSteps(g, s, d, v, t), u));
    }
  }

  lemma {:induction false} ColumnOfBothSteps(g: Graph, s: nat, d: seq<int>, v: nat, t: nat, w: nat)
    ensures Sum(|d|, Column(BothSteps(g, s, d, v, t), w)) ==
      Weight(g, s, d, v, w) * Sum(|d|, ParentCounts(g, s, d, w, t))
  {
    hide Weight, PathsThrough, Parent;
    SumTimes(|d|, Weight(g, s, d, v, w), ParentCounts(g, s, d, w, t), Column(BothSteps(g, s, d, v, t), w));
  }

  lemma {:induction false} NoneBefore(g: Graph, s: nat, d: seq<int>, t: nat)
    requires Labels(g, s, d) && t < |d|
    ensures Sum(|d|, ParentCounts(g, s, d, t, t)) == 0.0
  {
    hide Labels, PathsThrough;
    forall u | 0 <= u < |d|
      ensures ParentCounts(g, s, d, t, t)(u) == 0.0
    {
      if Parent(g, d, u, t) {
        NoneBeyond(g, s, d, t, u);
      }
    }
    SumZero(|d|, ParentCounts(g, s, d, t, t));
  }

  /** Summing by last step first: everything but paths on which v is the last stop. */
  lemma {:induction false} ByLastStep(g: Graph, s: nat, d: seq<int>, v: nat, t: nat)
    requires Labels(g, s, d) && v < |d| && t < |d| && v != t && 0 <= d[v] < d[t]
    requires forall u :: 0 <= u < |d| && u != v && Parent(g, d, u, t) ==> Through(g, s, v, u) == Sum(|d|, ChildCounts(g, s, d, v, u))
    ensures Sum(|d|, RowSums(|d|, BothSteps(g, s, d, v, t))) ==
      Through(g, s, v, t) - if Parent(g, d, v, t) then Paths(g, s, v) as real else 0.0
  {
    hide Labels, PathsThrough, Paths;
    var rows, counts := RowSums(|d|, BothSteps(g, s, d, v, t)), ParentCounts(g, s, d, v, t);
    forall u | 0 <= u < |d|
      ensures rows(u) == if u == v then 0.0 else counts(u)
    {
      RowOfBothSteps(g, s, d, v, t, u);
      NoChildrenOnPath(g, s, d, v, v);
    }
    SumChange(|d|, counts, rows, v);
    CountByParents(g, s, d, v, t);
    AllVisitEnds(g, s, v);
  }

  /** Summing by next step first: everything but paths on which t is the next stop. */
  lemma {:induction false} ByNextStep(g: Graph, s: nat, d: seq<int>, v: nat, t: nat)
    requires Labels(g, s, d) && v < |d| && t < |d| && 0 < d[t]
    ensures Sum(|d|, ColumnSums(|d|, BothSteps(g, s, d, v, t))) ==
      Sum(|d|, ChildCounts(g, s, d, v, t)) - Weight(g, s, d, v, t) * Through(g, s, t, t)
  {
    hide Labels, PathsThrough, Weight;
    var columns, counts := ColumnSums(|d|, BothSteps(g, s, d, v, t)), ChildCounts(g, s, d, v, t);
    forall w | 0 <= w < |d|
      ensures columns(w) == if w == t then 0.0 else counts(w)
    {
      ColumnOfBothSteps(g, s, d, v, t, w);
      if w == t {
        NoneBefore(g, s, d, t);
      } else {
        CountByParents(g, s, d, w, t);
      }
    }
    SumChange(|d|, counts, columns, t);
  }

  lemma {:induction false} LastStopIsNextStop(g: Graph, s: nat, d: seq<int>, v: nat, t: nat)
    requires Labels(g, s, d) && v < |d| && t < |d|
    ensures Weight(g, s, d, v, t) * Through(g, s, t, t) == if Parent(g, d, v, t) then Paths(g, s, v) as real else 0.0
  {
    hide Labels, PathsThrough, Paths;
    AllVisitEnds(g, s, t);
    SomePath(g, s, d, t);
  }

  /** A path through v continues to one child of v, and each child's paths come from
      v in the proportion of their counts. */
  lemma {:induction false} CountByChildren(g: Graph, s: nat, d: seq<int>, v: nat, t: nat)
    requires Labels(g, s, d) && v < |d| && t < |d| && v != t
    ensures Through(g, s, v, t) == Sum(|d|, ChildCounts(g, s, d, v, t))
    decreases d[t] + 1
  {
    hide PathsThrough, Paths, Weight;
    if d[v] < 0 {
      NoneBeyond(g, s, d, v, t);
      forall w | 0 <= w < |d|
        ensures ChildCounts(g, s, d, v, t)(w) == 0.0
      {
        NoWeight(g, s, d, v, w);
      }
      SumZero(|d|, ChildCounts(g, s, d, v, t));
    } else if d[t] <= d[v] {
      NoneBeyond(g, s, d, v, t);
      NoChildrenOnPath(g, s, d, v, t);
    } else {
      forall u | 0 <= u < |d| && u != v && Parent(g, d, u, t)
        ensures Through(g, s, v, u) == Sum(|d|, ChildCounts(g, s, d, v, u))
      {
        CountByChildren(g, s, d, v, u);
      }
      ByLastStep(g, s, d, v, t);
      ByNextStep(g, s, d, v, t);
      LastStopIsNextStop(g, s, d, v, t);
      SumSwap(|d|, |d|, BothSteps(g, s, d, v, t));
    }
  }

  lemma {:induction false} NoWeight(g: Graph, s: nat, d: seq<int>, v: nat, w: nat)
    requires v < |d| && d[v] < 0
    ensures Weight(g, s, d, v, w) == 0.0
  {
  }

  // ---------- Dependencies by the next step ----------

  /** The share of target t in v that comes through child w. */
  ghost function SharesVia(g: Graph, s: nat, d: seq<int>, v: nat): (nat, nat) -> real {
    (t: nat, w: nat) =>
      if t == v || Paths(g, s, t) == 0 then 0.0
      else Weight(g, s, d, v, w) * (Through(g, s, w, t) / Paths(g, s, t) as real)
  }

  lemma {:induction false} ShareByChildren(g: Graph, s: nat, d: seq<int>, v: nat, t: nat)
    requires Labels(g, s, d) && v < |d| && t < |d|
    ensures Sum(|d|, Row(SharesVia(g, s, d, v), t)) == Share(g, s, v, t)
  {
    hide Labels, Paths, Weight, Through;
    if t == v || Paths(g, s, t) == 0 {
      SumZero(|d|, Row(SharesVia(g, s, d, v), t));
    } else {
      CountByChildren(g, s, d, v, t);
      var c := 1.0 / Paths(g, s, t) as real;
      forall w | 0 <= w < |d|
        ensures Row(SharesVia(g, s, d, v), t)(w) == c * ChildCounts(g, s, d, v, t)(w)
      {
        Reassociate(Weight(g, s, d, v, w), Through(g, s, w, t), Paths(g, s, t) as real);
      }
      SumTimes(|d|, c, ChildCounts(g, s, d, v, t), Row(SharesVia(g, s, d, v), t));
      Reassociate(1.0, Through(g, s, v, t), Paths(g, s, t) as real);
    }
  }

  lemma {:induction false} Reassociate(a: real, b: real, c: real)
    requires c != 0.0
    ensures a * (b / c) == (1.0 / c) * (a * b)
  {
  }

  /** All shares of w, counting w itself as a target. */
  ghost function Targets(g: Graph, s: nat, v: nat, w: nat): nat -> real {
    (t: nat) => if t == v || Paths(g, s, t) == 0 then 0.0 else Through(g, s, w, t) / Paths(g, s, t) as real
  }

  lemma {:induction false} TargetOfChild(g: Graph, s: nat, d: seq<int>, v: nat, w: nat, t: nat)
    requires Labels(g, s, d) && v < |d| && Parent(g, d, v, w)
    ensures Targets(g, s, v, w)(t) == if t == w then 1.0 else Share(g, s, w, t)
  {
    hide Paths, PathsThrough, Labels;
    if t == w {
      SomePath(g, s, d, w);
      AllVisitEnds(g, s, w);
    } else if t == v {
      NoneBeyond(g, s, d, w, v);
    }
  }

  lemma {:induction false} SharesOfChild(g: Graph, s: nat, d: seq<int>, v: nat, w: nat)
    requires Labels(g, s, d) && v < |d| && Parent(g, d, v, w)
    ensures Sum(|d|, Targets(g, s, v, w)) == 1.0 + DependencyOn(g, s, w)
  {
    assert |d| == g.Order();
    assert Share(g, s, w, w) == 0.0;
    hide Paths, Through, Labels, Targets, Share;
    forall t | 0 <= t < |d|
      ensures Targets(g, s, v, w)(t) == if t == w then 1.0 else Share(g, s, w, t)
    {
      TargetOfChild(g, s, d, v, w, t);
    }
    SumChange(|d|, Shares(g, s, w), Targets(g, s, v, w), w);
  }

  lemma {:induction false} ChildShares(g: Graph, s: nat, d: seq<int>, v: nat, w: nat)
    requires Labels(g, s, d) && v < |d|
    ensures Sum(|d|, Column(SharesVia(g, s, d, v), w)) == Weight(g, s, d, v, w) * (1.0 + DependencyOn(g, s, w))
  {
    hide Labels, Through, Paths, DependencyOn;
    SumTimes(|d|, Weight(g, s, d, v, w), Targets(g, s, v, w), Column(SharesVia(g, s, d, v), w));
    if Parent(g, d, v, w) {
      SharesOfChild(g, s, d, v, w);
    }
  }

  ghost function Inherited(g: Graph, s: nat, d: seq<int>, v: nat): nat -> real {
    (w: nat) => Weight(g, s, d, v, w) * (1.0 + DependencyOn(g, s, w))
  }

  lemma {:induction false} SumOfShares(g: Graph, s: nat, d: seq<int>, v: nat)
    requires Labels(g, s, d) && v < |d|
    ensures Sum(|d|, RowSums(|d|, SharesVia(g, s, d, v))) == Sum(|d|, Shares(g, s, v))
  {
    hide Labels, SharesVia, Share;
    forall t | 0 <= t < |d|
      ensures RowSums(|d|, SharesVia(g, s, d, v))(t) == Shares(g, s, v)(t)
    {
      ShareByChildren(g, s, d, v, t);
    }
    SumSame(|d|, RowSums(|d|, SharesVia(g, s, d, v)), Shares(g, s, v));
  }

  lemma {:induction false} SumOfInherited(g: Graph, s: nat, d: seq<int>, v: nat)
    requires Labels(g, s, d) && v < |d|
    ensures Sum(|d|, ColumnSums(|d|, SharesVia(g, s, d, v))) == Sum(|d|, Inherited(g, s, d, v))
  {
    hide Labels, SharesVia, DependencyOn, Weight;
    forall w | 0 <= w < |d|
      ensures ColumnSums(|d|, SharesVia(g, s, d, v))(w) == Inherited(g, s, d, v)(w)
    {
      ChildShares(g, s, d, v, w);
    }
    SumSame(|d|, ColumnSums(|d|, SharesVia(g, s, d, v)), Inherited(g, s, d, v));
  }

  /** Main result: dependencies can be accumulated from the far end of the graph. */
  lemma {:induction false} BrandesRecursion(g: Graph, s: nat, d: seq<int>, v: nat)
    requires Labels(g, s, d) && v < |d|
    ensures DependencyOn(g, s, v) == Sum(|d|, Inherited(g, s, d, v))
  {
    assert |d| == g.Order();
    SumOfShares(g, s, d, v);
    SumOfInherited(g, s, d, v);
    SumSwap(|d|, |d|, SharesVia(g, s, d, v));
  }
}
