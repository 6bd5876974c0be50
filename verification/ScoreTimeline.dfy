/** The score timeline of one observer group: a bounded sample of the measurements that
    thins itself out, keeps the ends of every component, and remembers every gap. */
module ScoreTimeline {
  import opened Wrappers
  import Buckets

  const COMPONENTS: nat := 10
  const POINT_LIMIT: nat := 720
  const SAMPLE_LIMIT: nat := POINT_LIMIT - 2 * COMPONENTS

  /** One measurement: the number of the observation, the components it measured, its time. */
  datatype Measurement = Measurement(observation: nat, mask: set<nat>, at: int)

  datatype Point = Point(at: int, mask: set<nat>, index: nat, gaps: nat, breakBefore: bool)

  // ---------- What the measurements say ----------

  /** Measurement k does not continue the one before it. */
  predicate Gap(h: seq<Measurement>, k: nat)
    requires k < |h|
  {
    k > 0 && (h[k - 1].observation + 1 != h[k].observation || h[k - 1].mask != h[k].mask)
  }

  function Gaps(h: seq<Measurement>, i: nat): nat
    requires i < |h|
  {
    if i == 0 then 0 else Gaps(h, i - 1) + if Gap(h, i) then 1 else 0
  }

  function PointAt(h: seq<Measurement>, i: nat): Point
    requires i < |h|
  {
    Point(h[i].at, h[i].mask, i, Gaps(h, i), false)
  }

  /** Two measurements are connected iff no gap lies between them. */
  lemma {:induction false} GapsBetween(h: seq<Measurement>, i: nat, j: nat)
    requires i <= j < |h|
    ensures Gaps(h, i) <= Gaps(h, j)
    ensures Gaps(h, i) != Gaps(h, j) <==> exists k :: i < k <= j && Gap(h, k)
    decreases j - i
  {
    if i < j {
      GapsBetween(h, i, j - 1);
      if k :| i < k <= j && Gap(h, k) {
        assert k == j || i < k <= j - 1;
      }
    }
  }

  lemma {:induction false} GapsPrefix(h: seq<Measurement>, m: Measurement, i: nat)
    requires i < |h|
    ensures Gaps(h + [m], i) == Gaps(h, i) && PointAt(h + [m], i) == PointAt(h, i)
  {
    if i > 0 {
      GapsPrefix(h, m, i - 1);
      assert Gap(h + [m], i) == Gap(h, i);
    }
  }

  ghost predicate Unordered(h: seq<Measurement>) {
    exists k :: 0 < k < |h| && h[k].at <= h[k - 1].at
  }

  // ---------- The retained sample ----------

  /** Retained point k is measurement k * stride, and all of these are retained. */
  ghost predicate Retains(points: seq<Point>, h: seq<Measurement>, stride: nat) {
    && stride > 0
    && (h == [] ==> points == [])
    && (h != [] ==> |points| > 0 && (|points| - 1) * stride < |h| <= |points| * stride)
    && (forall k :: 0 <= k < |points| ==> k * stride < |h| && points[k] == PointAt(h, k * stride))
  }

  predicate PowerOfTwo(stride: nat) {
    stride == 1 || (stride > 1 && stride % 2 == 0 && PowerOfTwo(stride / 2))
  }

  /** The stride was reached by doubling, and only because the sample at half of it was full. */
  ghost predicate Needed(h: seq<Measurement>, stride: nat) {
    PowerOfTwo(stride) && (stride > 1 ==> (SAMPLE_LIMIT - 1) * (stride / 2) < |h|)
  }

  lemma {:induction false} NeededMore(h: seq<Measurement>, m: Measurement, stride: nat)
    requires Needed(h, stride)
    ensures Needed(h + [m], stride)
  {
  }

  lemma {:induction false} NeededDoubled(points: seq<Point>, h: seq<Measurement>, stride: nat)
    requires Needed(h, stride) && Retains(points, h, stride) && |points| == SAMPLE_LIMIT
    ensures Needed(h, 2 * stride)
  {
    assert 2 * stride / 2 == stride && 2 * stride % 2 == 0;
    assert (SAMPLE_LIMIT - 1) * stride < |h|;
  }

  ghost predicate IsFirst(h: seq<Measurement>, c: nat, p: Option<Point>) {
    if p.None? then forall i :: 0 <= i < |h| ==> c !in h[i].mask
    else
      && p.value.index < |h| && p.value == PointAt(h, p.value.index) && c in h[p.value.index].mask
      && forall i :: 0 <= i < p.value.index ==> c !in h[i].mask
  }

  ghost predicate IsLast(h: seq<Measurement>, c: nat, p: Option<Point>) {
    if p.None? then forall i :: 0 <= i < |h| ==> c !in h[i].mask
    else
      && p.value.index < |h| && p.value == PointAt(h, p.value.index) && c in h[p.value.index].mask
      && forall i :: p.value.index < i < |h| ==> c !in h[i].mask
  }

  lemma {:induction false} KeepFirst(h: seq<Measurement>, m: Measurement, c: nat, p: Option<Point>)
    requires IsFirst(h, c, p)
    ensures p.Some? || c !in m.mask ==> IsFirst(h + [m], c, p)
    ensures p.None? && c in m.mask ==> IsFirst(h + [m], c, Some(PointAt(h + [m], |h|)))
  {
    if p.Some? {
      GapsPrefix(h, m, p.value.index);
    }
  }

  lemma {:induction false} KeepLast(h: seq<Measurement>, m: Measurement, c: nat, p: Option<Point>)
    requires IsLast(h, c, p)
    ensures c !in m.mask ==> IsLast(h + [m], c, p)
    ensures c in m.mask ==> IsLast(h + [m], c, Some(PointAt(h + [m], |h|)))
  {
    if p.Some? {
      GapsPrefix(h, m, p.value.index);
    }
  }

  lemma {:induction false} RetainsMultiple(points: seq<Point>, h: seq<Measurement>, stride: nat)
    requires Retains(points, h, stride)
    ensures |h| % stride == 0 <==> |h| == |points| * stride
  {
    if |h| % stride == 0 && h != [] {
      var q := |h| / stride;
      assert |h| == q * stride;
    } else if h != [] && |h| == |points| * stride {
      Divides(|points|, stride);
    }
  }

  lemma {:induction false} Divides(a: int, b: int)
    requires b > 0
    ensures (a * b) % b == 0
  {
    assert (a + 1) * b == a * b + b;
    Buckets.Unique(a * b, b, a);
  }

  /** A measurement that is not sampled. */
  lemma {:induction false} RetainsSkip(points: seq<Point>, h: seq<Measurement>, stride: nat, m: Measurement)
    requires Retains(points, h, stride) && |h| % stride != 0
    ensures Retains(points, h + [m], stride)
  {
    RetainsMultiple(points, h, stride);
    forall k | 0 <= k < |points|
      ensures k * stride < |h| + 1 && points[k] == PointAt(h + [m], k * stride)
    {
      GapsPrefix(h, m, k * stride);
    }
    assert h != [];
  }

  /** A measurement that is. */
  lemma {:induction false} RetainsTake(points: seq<Point>, h: seq<Measurement>, stride: nat, m: Measurement)
    requires Retains(points, h, stride) && |h| % stride == 0
    ensures Retains(points + [PointAt(h + [m], |h|)], h + [m], stride)
  {
    RetainsMultiple(points, h, stride);
    var more := points + [PointAt(h + [m], |h|)];
    forall k | 0 <= k < |more|
      ensures k * stride < |h| + 1 && more[k] == PointAt(h + [m], k * stride)
    {
      if k < |points| {
        GapsPrefix(h, m, k * stride);
      }
    }
    assert (|points| + 1) * stride == |points| * stride + stride;
  }

  function Halved(points: seq<Point>): (r: seq<Point>)
    ensures |r| == (|points| + 1) / 2
    ensures forall k :: 0 <= k < |r| ==> r[k] == points[2 * k]
  {
    seq((|points| + 1) / 2, k requires 0 <= k < (|points| + 1) / 2 => points[2 * k])
  }

  lemma {:induction false} HalfPoint(points: seq<Point>, h: seq<Measurement>, stride: nat, k: nat)
    requires Retains(points, h, stride) && k < |Halved(points)|
    ensures k * (2 * stride) < |h| && Halved(points)[k] == PointAt(h, k * (2 * stride))
  {
    hide PointAt;
    assert Halved(points)[k] == points[2 * k];
  }

  lemma {:induction false} RetainsHalf(points: seq<Point>, h: seq<Measurement>, stride: nat)
    requires Retains(points, h, stride)
    ensures Retains(Halved(points), h, 2 * stride)
  {
    hide PointAt, Halved;
    if h != [] {
      HalfBounds(|points|, |Halved(points)|, stride, |h|);
    }
    forall k | 0 <= k < |Halved(points)|
      ensures k * (2 * stride) < |h| && Halved(points)[k] == PointAt(h, k * (2 * stride))
    {
      HalfPoint(points, h, stride, k);
    }
  }

  lemma {:induction false} HalfBounds(n: nat, half: nat, stride: nat, samples: nat)
    requires n > 0 && half == (n + 1) / 2 && (n - 1) * stride < samples <= n * stride
    ensures (half - 1) * (2 * stride) < samples <= half * (2 * stride)
  {
    assert (half - 1) * (2 * stride) == (2 * half - 2) * stride;
    assert half * (2 * stride) == (2 * half) * stride;
    Grow(2 * half - 2, n - 1, stride);
    Grow(n, 2 * half, stride);
  }

  lemma {:induction false} Grow(a: int, b: int, s: nat)
    requires a <= b
    ensures a * s <= b * s
  {
  }

  // ---------- The result ----------

  /** No measurement occurs twice. */
  ghost predicate Distinct(points: seq<Point>) {
    forall i, j :: 0 <= i < j < |points| ==> points[i].index != points[j].index
  }

  ghost predicate Increasing(points: seq<Point>) {
    forall i, j :: 0 <= i < j < |points| ==> points[i].index < points[j].index
  }

  function Insert(points: seq<Point>, p: Point): seq<Point> {
    if points == [] || p.index < points[0].index then [p] + points else [points[0]] + Insert(points[1..], p)
  }

  lemma {:induction false} InsertOk(points: seq<Point>, p: Point)
    requires Increasing(points) && forall i :: 0 <= i < |points| ==> points[i].index != p.index
    ensures Increasing(Insert(points, p)) && |Insert(points, p)| == |points| + 1
    ensures forall q :: q in Insert(points, p) <==> q in points || q == p
  {
    if points != [] && p.index >= points[0].index {
      var rest := points[1..];
      assert forall i :: 0 <= i < |rest| ==> rest[i] == points[i + 1];
      InsertOk(rest, p);
      assert points == [points[0]] + rest;
      var r := Insert(rest, p);
      forall i | 0 <= i < |r|
        ensures points[0].index < r[i].index
      {
        assert r[i] in r;
      }
    }
  }

  /** Everything reported is a measurement, with its own time, mask and gaps. */
  ghost predicate Genuine(points: seq<Point>, h: seq<Measurement>) {
    forall i :: 0 <= i < |points| ==> points[i].index < |h| && points[i] == PointAt(h, points[i].index)
  }

  lemma {:induction false} RetainedIncrease(points: seq<Point>, h: seq<Measurement>, stride: nat)
    requires Retains(points, h, stride)
    ensures Increasing(points) && Genuine(points, h) && forall k :: 0 <= k < |points| ==> points[k].index == k * stride
  {
    forall i, j | 0 <= i < j < |points|
      ensures points[i].index < points[j].index
    {
      Grow(i + 1, j, stride);
      assert (i + 1) * stride == i * stride + stride;
    }
  }

  /** Add the ends of the components unless they are there already. */
  method AddEnds(points: seq<Point>, ends: seq<Option<Point>>, ghost h: seq<Measurement>) returns (r: seq<Point>)
    requires Increasing(points) && Genuine(points, h)
    requires forall c :: 0 <= c < |ends| && ends[c].Some? ==> ends[c].value.index < |h| && ends[c].value == PointAt(h, ends[c].value.index)
    ensures Increasing(r) && Genuine(r, h) && |points| <= |r| <= |points| + |ends|
    ensures forall q :: q in points ==> q in r
    ensures forall c :: 0 <= c < |ends| && ends[c].Some? ==> ends[c].value in r
    ensures forall q :: q in r ==> q in points || Some(q) in ends
  {
    r := points;
    for c := 0 to |ends|
      invariant Increasing(r) && Genuine(r, h) && |points| <= |r| <= |points| + c
      invariant forall q :: q in points ==> q in r
      invariant forall k :: 0 <= k < c && ends[k].Some? ==> ends[k].value in r
      invariant forall q :: q in r ==> q in points || Some(q) in ends
    {
      if ends[c].Some? {
        var p := ends[c].value;
        if forall i :: 0 <= i < |r| ==> r[i].index != p.index {
          InsertOk(r, p);
          InsertGenuine(r, p, h);
          r := Insert(r, p);
        } else {
          var i :| 0 <= i < |r| && r[i].index == p.index;
          assert r[i] == PointAt(h, p.index) == p;
        }
      }
    }
  }

  lemma {:induction false} InsertGenuine(points: seq<Point>, p: Point, h: seq<Measurement>)
    requires Increasing(points) && Genuine(points, h) && p.index < |h| && p == PointAt(h, p.index)
    requires forall i :: 0 <= i < |points| ==> points[i].index != p.index
    ensures Genuine(Insert(points, p), h)
  {
    InsertOk(points, p);
    var r := Insert(points, p);
    forall i | 0 <= i < |r|
      ensures r[i].index < |h| && r[i] == PointAt(h, r[i].index)
    {
      assert r[i] in r;
      if r[i] != p {
        var j :| 0 <= j < |points| && points[j] == r[i];
      }
    }
  }

  /** A point broken off from its predecessor exactly if a gap lies between the two. */
  ghost predicate BrokenAt(points: seq<Point>, h: seq<Measurement>, i: nat)
    requires i < |points| && Increasing(points)
    requires forall k :: 0 <= k < |points| ==> points[k].index < |h|
  {
    points[i].breakBefore <==> i > 0 && exists k :: points[i - 1].index < k <= points[i].index && Gap(h, k)
  }

  function Plain(p: Point): Point { p.(breakBefore := false) }

  function Marked(points: seq<Point>, i: nat): Point
    requires i < |points|
  {
    points[i].(breakBefore := i > 0 && points[i].gaps != points[i - 1].gaps)
  }

  /** Mark the breaks by comparing generations. */
  method MarkBreaks(points: seq<Point>, ghost h: seq<Measurement>) returns (r: seq<Point>)
    requires Increasing(points) && Genuine(points, h)
    ensures |r| == |points| && forall i :: 0 <= i < |r| ==> Plain(r[i]) == points[i]
    ensures Increasing(r) && forall i :: 0 <= i < |r| ==> r[i].index < |h|
    ensures forall i :: 0 <= i < |r| ==> BrokenAt(r, h, i)
  {
    r := [];
    for i := 0 to |points|
      invariant |r| == i && forall k :: 0 <= k < i ==> r[k] == Marked(points, k)
    {
      r := r + [Marked(points, i)];
    }
    assert forall i :: 0 <= i < |r| ==> r[i].index == points[i].index;
    forall i | 0 <= i < |r|
      ensures BrokenAt(r, h, i)
    {
      if i > 0 {
        GapsBetween(h, points[i - 1].index, points[i].index);
      }
    }
  }

  // ---------- Times that do not advance ----------

  predicate Before(p: Point, q: Point) {
    p.at < q.at || (p.at == q.at && p.index < q.index)
  }

  /** In order of time, and where times are equal in order of measurement. */
  ghost predicate ByTime(points: seq<Point>) {
    forall i, j :: 0 <= i < j < |points| ==> Before(points[i], points[j])
  }

  function InsertByTime(points: seq<Point>, p: Point): seq<Point> {
    if points == [] || p.at < points[0].at then [p] + points else [points[0]] + InsertByTime(points[1..], p)
  }

  lemma {:induction false} InsertByTimeSame(points: seq<Point>, p: Point)
    ensures multiset(InsertByTime(points, p)) == multiset(points) + multiset{p}
  {
    if points != [] {
      InsertByTimeSame(points[1..], p);
      assert points == [points[0]] + points[1..];
    }
  }

  lemma {:induction false} InsertByTimeOk(points: seq<Point>, p: Point)
    requires ByTime(points) && forall i :: 0 <= i < |points| ==> points[i].index < p.index
    ensures ByTime(InsertByTime(points, p))
  {
    if points != [] && p.at >= points[0].at {
      var rest := points[1..];
      assert forall i :: 0 <= i < |rest| ==> rest[i] == points[i + 1];
      InsertByTimeOk(rest, p);
      InsertByTimeSame(rest, p);
      var r := InsertByTime(rest, p);
      hide InsertByTime;
      forall i | 0 <= i < |r|
        ensures Before(points[0], r[i])
      {
        assert r[i] in multiset(r);
        assert r[i] == p || r[i] in rest;
      }
    }
  }

  /** Stable insertion by time; every point after the first is broken off. */
  method OrderByTime(points: seq<Point>) returns (r: seq<Point>)
    requires Increasing(points) && forall i :: 0 <= i < |points| ==> !points[i].breakBefore
    ensures ByTime(r) && |r| == |points| && forall i :: 0 <= i < |r| ==> (r[i].breakBefore <==> i > 0)
    ensures multiset(seq(|r|, i requires 0 <= i < |r| => Plain(r[i]))) == multiset(points)
  {
    var sorted: seq<Point> := [];
    assert points[..0] == [];
    for i := 0 to |points|
      invariant ByTime(sorted) && multiset(sorted) == multiset(points[..i])
    {
      forall j | 0 <= j < |sorted|
        ensures sorted[j].index < points[i].index
      {
        assert sorted[j] in multiset(sorted);
        assert sorted[j] in points[..i];
      }
      InsertByTimeOk(sorted, points[i]);
      InsertByTimeSame(sorted, points[i]);
      sorted := InsertByTime(sorted, points[i]);
      assert points[..i + 1] == points[..i] + [points[i]];
    }
    assert points[..|points|] == points;
    assert |multiset(sorted)| == |multiset(points)|;
    r := seq(|sorted|, i requires 0 <= i < |sorted| => sorted[i].(breakBefore := i > 0));
    forall i | 0 <= i < |sorted|
      ensures Plain(r[i]) == sorted[i]
    {
      assert sorted[i] in multiset(sorted);
      assert sorted[i] in points;
    }
    assert seq(|r|, i requires 0 <= i < |r| => Plain(r[i])) == sorted;
  }

  // ---------- The series ----------

  function Firsts(first: seq<Option<Point>>, mask: set<nat>, p: Point): seq<Option<Point>> {
    seq(|first|, c requires 0 <= c < |first| => if c in mask && first[c].None? then Some(p) else first[c])
  }

  function Lasts(last: seq<Option<Point>>, mask: set<nat>, p: Point): seq<Option<Point>> {
    seq(|last|, c requires 0 <= c < |last| => if c in mask then Some(p) else last[c])
  }

  lemma {:induction false} EndCounts(first: seq<Option<Point>>, last: seq<Option<Point>>, mask: set<nat>, p: Point)
    ensures |Firsts(first, mask, p)| == |first| && |Lasts(last, mask, p)| == |last|
  {
  }

  lemma {:induction false} KeepEnds(h: seq<Measurement>, m: Measurement, first: seq<Option<Point>>, last: seq<Option<Point>>)
    requires |first| == |last| == COMPONENTS
    requires forall c :: 0 <= c < COMPONENTS ==> IsFirst(h, c, first[c]) && IsLast(h, c, last[c])
    ensures var p := PointAt(h + [m], |h|);
      forall c :: 0 <= c < COMPONENTS ==> IsFirst(h + [m], c, Firsts(first, m.mask, p)[c]) && IsLast(h + [m], c, Lasts(last, m.mask, p)[c])
  {
    hide IsFirst, IsLast, PointAt;
    var p := PointAt(h + [m], |h|);
    forall c | 0 <= c < COMPONENTS
      ensures IsFirst(h + [m], c, Firsts(first, m.mask, p)[c]) && IsLast(h + [m], c, Lasts(last, m.mask, p)[c])
    {
      KeepFirst(h, m, c, first[c]);
      KeepLast(h, m, c, last[c]);
    }
  }

  class ScoreSeries {
    var points: seq<Point>
    var latestAt: int
    var lastObservation: nat
    var lastMask: set<nat>
    var samples: nat
    var stride: nat
    var gaps: nat
    var unordered: bool
    var first: seq<Option<Point>>
    var last: seq<Option<Point>>
    /** All measurements so far. */
    ghost var history: seq<Measurement>

    ghost predicate Follows()
      reads this
    {
      && samples == |history|
      && (samples > 0 ==>
            && history[samples - 1] == Measurement(lastObservation, lastMask, latestAt)
            && gaps == Gaps(history, samples - 1))
      && (samples == 0 ==> gaps == 0)
      && (unordered <==> Unordered(history))
    }

    ghost predicate Ok()
      reads this
    {
      && Follows() && Retains(points, history, stride) && |points| < SAMPLE_LIMIT && Needed(history, stride)
      && |first| == |last| == COMPONENTS
      && (forall c :: 0 <= c < COMPONENTS ==> IsFirst(history, c, first[c]) && IsLast(history, c, last[c]))
    }

    constructor ()
      ensures Ok() && history == []
    {
      points, latestAt, lastObservation, lastMask, samples, stride, gaps, unordered := [], 0, 0, {}, 0, 1, 0, false;
      first, last := seq(COMPONENTS, c => None), seq(COMPONENTS, c => None);
      history := [];
    }

    /** Keep every other point, in place. */
    method Thin()
      requires |points| > 0
      modifies this`points, this`stride
      ensures points == Halved(old(points)) && stride == 2 * old(stride)
    {
      ghost var all := points;
      var slots := points;
      var kept := 1;
      for i := 1 to |slots|
        invariant stride == old(stride) && |slots| == |all| && kept == (i + 1) / 2
        invariant slots[..kept] == Halved(all[..i]) && slots[i..] == all[i..]
      {
        assert slots[i] == slots[i..][0] == all[i];
        if i % 2 == 0 {
          slots := slots[kept := slots[i]];
          kept := kept + 1;
        }
      }
      assert all[..|all|] == all;
      points := slots[..kept];
      stride := stride * 2;
    }

    /** Sample every stride-th measurement, thinning when the sample is full. */
    method Retain(point: Point, ghost m: Measurement)
      requires Retains(points, history, stride) && |points| < SAMPLE_LIMIT && samples == |history| && Needed(history, stride)
      requires point == PointAt(history + [m], |history|)
      modifies this`points, this`stride
      ensures Retains(points, history + [m], stride) && |points| < SAMPLE_LIMIT && Needed(history + [m], stride)
    {
      hide PointAt, Needed;
      NeededMore(history, m, stride);
      if samples % stride == 0 {
        RetainsTake(points, history, stride, m);
        points := points + [point];
        if |points| == SAMPLE_LIMIT {
          RetainsHalf(points, history + [m], stride);
          NeededDoubled(points, history + [m], stride);
          Thin();
        }
      } else {
        RetainsSkip(points, history, stride, m);
      }
    }

    /** Count a gap and notice a clock that does not advance. */
    method Follow(m: Measurement) returns (point: Point)
      requires Follows()
      modifies this`gaps, this`unordered, this`lastObservation, this`lastMask, this`latestAt
      ensures point == PointAt(history + [m], |history|) && point.gaps == gaps
      ensures lastObservation == m.observation && lastMask == m.mask && latestAt == m.at
      ensures unordered <==> Unordered(history + [m])
    {
      hide Unordered, Gaps, Gap;
      UnorderedNext(history, m);
      GapsNext(history, m);
      if samples > 0 && (lastObservation + 1 != m.observation || lastMask != m.mask) {
        gaps := gaps + 1;
      }
      if samples > 0 && m.at <= latestAt {
        unordered := true;
      }
      lastObservation, lastMask, latestAt := m.observation, m.mask, m.at;
      point := Point(m.at, m.mask, samples, gaps, false);
    }

    /** Take in one measurement. */
    method Observe(m: Measurement)
      requires Ok()
      modifies this
      ensures Ok() && history == old(history) + [m]
    {
      hide Retains, Needed, IsFirst, IsLast, Unordered, Firsts, Lasts, Gaps, Gap;
      ghost var h := history;
      var point := Follow(m);
      KeepEnds(h, m, first, last);
      EndCounts(first, last, m.mask, point);
      first, last := Firsts(first, m.mask, point), Lasts(last, m.mask, point);
      Retain(point, m);
      samples := samples + 1;
      history := h + [m];
    }

    /** The reported points: fewer than the limit, each measurement at most once, the ends of
        every component among them; in order of measurement with breaks exactly at gaps when
        times advance, otherwise in order of time, stably, with every point broken off. */
    method Result() returns (r: seq<Point>)
      requires Ok()
      ensures |r| < POINT_LIMIT
      ensures forall i :: 0 <= i < |r| ==> r[i].index < |history| && Plain(r[i]) == PointAt(history, r[i].index)
      ensures Distinct(r)
      ensures forall k :: 0 <= k < |points| ==> exists i :: 0 <= i < |r| && r[i].index == k * stride
      ensures forall c :: 0 <= c < COMPONENTS && first[c].Some? ==> exists i :: 0 <= i < |r| && Plain(r[i]) == first[c].value
      ensures forall c :: 0 <= c < COMPONENTS && last[c].Some? ==> exists i :: 0 <= i < |r| && Plain(r[i]) == last[c].value
      ensures !Unordered(history) ==> Increasing(r) && forall i :: 0 <= i < |r| ==> BrokenAt(r, history, i)
      ensures Unordered(history) ==> ByTime(r) && forall i :: 0 <= i < |r| ==> (r[i].breakBefore <==> i > 0)
    {
      RetainedIncrease(points, history, stride);
      EndsGenuine(history, first, last);
      var kept := AddEnds(points, first + last, history);
      hide Retains, IsFirst, IsLast, Unordered;
      forall k | 0 <= k < |points|
        ensures points[k] in kept && points[k].index == k * stride
      {
      }
      forall c | 0 <= c < COMPONENTS
        ensures (first[c].Some? ==> first[c].value in kept) && (last[c].Some? ==> last[c].value in kept)
      {
        assert (first + last)[c] == first[c] && (first + last)[COMPONENTS + c] == last[c];
      }
      if unordered {
        r := OrderByTime(kept);
        SameElements(kept, r);
        ReorderedOnce(kept, r);
      } else {
        r := MarkBreaks(kept, history);
        SamePlaces(kept, r);
        IncreasingOnce(r);
      }
    }
  }

  lemma {:induction false} EndsGenuine(h: seq<Measurement>, first: seq<Option<Point>>, last: seq<Option<Point>>)
    requires |first| == |last| == COMPONENTS
    requires forall c :: 0 <= c < COMPONENTS ==> IsFirst(h, c, first[c]) && IsLast(h, c, last[c])
    ensures var ends := first + last;
            forall c :: 0 <= c < |ends| && ends[c].Some? ==> ends[c].value.index < |h| && ends[c].value == PointAt(h, ends[c].value.index)
  {
  }

  lemma {:induction false} SamePlaces(kept: seq<Point>, r: seq<Point>)
    requires |r| == |kept| && forall i :: 0 <= i < |r| ==> Plain(r[i]) == kept[i]
    ensures forall p :: p in kept ==> exists i :: 0 <= i < |r| && Plain(r[i]) == p
  {
    forall p | p in kept
      ensures exists i :: 0 <= i < |r| && Plain(r[i]) == p
    {
      var i :| 0 <= i < |kept| && kept[i] == p;
      assert Plain(r[i]) == p;
    }
  }

  lemma {:induction false} IncreasingOnce(points: seq<Point>)
    requires Increasing(points)
    ensures Distinct(points)
  {
  }

  lemma {:induction false} OnlyOnce(points: seq<Point>, p: Point)
    requires Distinct(points)
    ensures multiset(points)[p] <= 1
  {
    if points != [] {
      var n := |points| - 1;
      OnlyOnce(points[..n], p);
      assert points == points[..n] + [points[n]];
      if p == points[n] {
        assert p !in points[..n];
      }
    }
  }

  lemma {:induction false} AtLeastTwice(points: seq<Point>, i: nat, j: nat)
    requires i < j < |points| && points[i] == points[j]
    ensures multiset(points)[points[i]] >= 2
  {
    assert points == points[..j] + points[j..];
    assert points[..j][i] in multiset(points[..j]) && points[j..][0] in multiset(points[j..]);
  }

  /** Sorting the points by time repeats none of them. */
  lemma {:induction false} ReorderedOnce(kept: seq<Point>, r: seq<Point>)
    requires multiset(seq(|r|, i requires 0 <= i < |r| => Plain(r[i]))) == multiset(kept) && Increasing(kept)
    requires forall i :: 0 <= i < |r| ==> Plain(r[i]) in kept
    ensures Distinct(r)
  {
    IncreasingOnce(kept);
    var plain := seq(|r|, i requires 0 <= i < |r| => Plain(r[i]));
    forall i, j | 0 <= i < j < |r|
      ensures r[i].index != r[j].index
    {
      if r[i].index == r[j].index {
        AtLeastTwice(plain, i, j);
        OnlyOnce(kept, plain[i]);
      }
    }
  }

  lemma {:induction false} SameElements(kept: seq<Point>, r: seq<Point>)
    requires multiset(seq(|r|, i requires 0 <= i < |r| => Plain(r[i]))) == multiset(kept)
    ensures forall p :: p in kept ==> exists i :: 0 <= i < |r| && Plain(r[i]) == p
    ensures forall i :: 0 <= i < |r| ==> Plain(r[i]) in kept
  {
    var plain := seq(|r|, i requires 0 <= i < |r| => Plain(r[i]));
    forall p | p in kept
      ensures exists i :: 0 <= i < |r| && Plain(r[i]) == p
    {
      assert p in multiset(plain);
      var i :| 0 <= i < |plain| && plain[i] == p;
    }
    forall i | 0 <= i < |r|
      ensures Plain(r[i]) in kept
    {
      assert plain[i] in multiset(plain);
    }
  }

  lemma {:induction false} UnorderedNext(h: seq<Measurement>, m: Measurement)
    ensures Unordered(h + [m]) <==> Unordered(h) || (h != [] && m.at <= h[|h| - 1].at)
  {
    var more := h + [m];
    if Unordered(h) {
      var k :| 0 < k < |h| && h[k].at <= h[k - 1].at;
      assert more[k].at <= more[k - 1].at;
    }
    if h != [] && m.at <= h[|h| - 1].at {
      assert more[|h|].at <= more[|h| - 1].at;
    }
  }

  lemma {:induction false} GapsNext(h: seq<Measurement>, m: Measurement)
    ensures Gaps(h + [m], |h|) == if h == [] then 0
            else Gaps(h, |h| - 1) + if h[|h| - 1].observation + 1 != m.observation || h[|h| - 1].mask != m.mask then 1 else 0
  {
    if h != [] {
      GapsPrefix(h, m, |h| - 1);
    }
  }
}
