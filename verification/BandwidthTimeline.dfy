/** The bandwidth timeline: each interval is spread over the bins it overlaps in
    proportion to time. Times are nanoseconds; amounts are real numbers. */
module BandwidthTimeline {
  import opened Wrappers
  import opened SetSums
  import opened Buckets
  import opened Bandwidth

  const NANOS: int := 1_000_000_000
  const BIN_LIMIT: nat := 360
  const FIRST_WIDTH: int := 5

  datatype Share = Share(received: real, sent: real)

  datatype Slot = Slot(received: real, sent: real, seconds: real, protocols: map<nat, Share>)

  const EMPTY: Slot := Slot(0.0, 0.0, 0.0, map[])

  /** What is conserved: every channel, and the time covered. */
  datatype Measure = Of(channel: Channel) | Seconds

  function ShareOf(s: Slot, name: nat): Share {
    if name in s.protocols then s.protocols[name] else Share(0.0, 0.0)
  }

  function Held(s: Slot, m: Measure): real {
    match m
    case Seconds => s.seconds
    case Of(Received) => s.received
    case Of(Sent) => s.sent
    case Of(ReceivedBy(name)) => ShareOf(s, name).received
    case Of(SentBy(name)) => ShareOf(s, name).sent
  }

  function Carried(i: Interval, m: Measure): real {
    match m
    case Seconds => i.duration as real / NANOS as real
    case Of(c) => Part(i, c) as real
  }

  function Merge(a: Slot, b: Slot): Slot {
    Slot(a.received + b.received, a.sent + b.sent, a.seconds + b.seconds,
         map name | name in a.protocols.Keys + b.protocols.Keys ::
           Share(ShareOf(a, name).received + ShareOf(b, name).received, ShareOf(a, name).sent + ShareOf(b, name).sent))
  }

  lemma {:induction false} HeldMerge(a: Slot, b: Slot, m: Measure)
    ensures Held(Merge(a, b), m) == Held(a, m) + Held(b, m)
  {
  }

  // ---------- Totals over bins ----------

  function SlotAt(bins: map<Time, Slot>, k: Time): Slot {
    if k in bins then bins[k] else EMPTY
  }

  function HeldAt(bins: map<Time, Slot>, m: Measure): Time -> real {
    (k: Time) => Held(SlotAt(bins, k), m)
  }

  ghost function Sum(bins: map<Time, Slot>, m: Measure): real {
    SumOf<Time>(bins.Keys, HeldAt(bins, m))
  }

  lemma {:induction false} EmptyHolds(m: Measure)
    ensures Held(EMPTY, m) == 0.0
  {
  }

  lemma {:induction false} SumPutSlot(bins: map<Time, Slot>, k: Time, s: Slot, m: Measure)
    ensures Sum(bins[k := s], m) == Sum(bins, m) + Held(s, m) - Held(SlotAt(bins, k), m)
  {
    EmptyHolds(m);
    hide Held;
    SumPut<Time>(bins.Keys, HeldAt(bins, m), HeldAt(bins[k := s], m), k);
    assert bins[k := s].Keys == bins.Keys + {k};
  }

  // ---------- The range of bins ----------

  ghost predicate Aligned(k: Time, width: int)
    requires width > 0
  {
    Bucket(k, width) == k
  }

  lemma {:induction false} BucketAligned(t: int, width: int)
    requires width > 0
    ensures Aligned(Bucket(t, width), width)
  {
    BucketContains(t, width);
    Unique(Bucket(t, width), width, t / width);
    BucketContains(Bucket(t, width), width);
  }

  lemma {:induction false} QuotientsOrdered(p: int, q: int, w: int, a: int, b: int)
    requires w > 0 && p * w <= a <= b < q * w + w
    ensures p <= q && p * w <= q * w
  {
    if p > q {
      Larger(p, q, w);
    } else {
      Scaled(q - p, w);
      assert q * w == p * w + (q - p) * w;
    }
  }

  lemma {:induction false} BucketMonotone(a: int, b: int, width: int)
    requires width > 0 && a <= b
    ensures Bucket(a, width) <= Bucket(b, width)
  {
    hide Bucket;
    BucketContains(a, width);
    BucketContains(b, width);
    QuotientsOrdered(a / width, b / width, width, a, b);
  }

  lemma {:induction false} AlignedNext(k: Time, width: int)
    requires width > 0 && Aligned(k, width)
    ensures Aligned(k + width, width)
  {
    BucketContains(k, width);
    BucketContains(k + width, width);
    Unique(k + width, width, k / width + 1);
  }

  /** Every bin is a bucket between the first and the last second seen. */
  ghost predicate InRange(bins: map<Time, Slot>, first: int, last: int, width: int)
    requires width > 0
  {
    first <= last && forall k :: k in bins ==> Aligned(k, width) && Bucket(first, width) <= k <= Bucket(last, width)
  }

  lemma {:induction false} StillInRange(bins: map<Time, Slot>, first: int, last: int, width: int, first': int, last': int)
    requires width > 0 && InRange(bins, first, last, width) && first' <= first && last <= last'
    ensures InRange(bins, first', last', width)
  {
    BucketMonotone(first', first, width);
    BucketMonotone(last, last', width);
    hide Bucket;
  }

  lemma {:induction false} FewAligned(keys: set<Time>, lo: int, width: int, n: nat)
    requires width > 0 && forall k :: k in keys ==> exists i :: 0 <= i < n && k == lo + i * width
    ensures |keys| <= n
    decreases n
  {
    if n == 0 && keys != {} {
      var k := Element(keys);
    } else if n > 0 {
      var top := lo + (n - 1) * width;
      forall k | k in keys - {top}
        ensures exists i :: 0 <= i < n - 1 && k == lo + i * width
      {
        var i :| 0 <= i < n && k == lo + i * width;
        assert i != n - 1;
      }
      FewAligned(keys - {top}, lo, width, n - 1);
    }
  }

  lemma {:induction false} StepsBounded(i: int, width: int, span: int, n: nat)
    requires width > 0 && 0 <= i * width <= span && span / width < n
    ensures 0 <= i < n
  {
    QuotientsOrdered(0, i, width, 0, i * width);
    var q := span / width;
    assert span == q * width + span % width;
    QuotientsOrdered(i, q, width, i * width, span);
  }

  lemma {:induction false} AlignedSteps(lo: int, k: Time, hi: int, width: int, n: nat) returns (i: int)
    requires width > 0 && Aligned(lo, width) && Aligned(k, width) && lo <= k <= hi && (hi - lo) / width < n
    ensures 0 <= i < n && k == lo + i * width
  {
    hide Bucket;
    BucketContains(lo, width);
    BucketContains(k, width);
    var p, q := lo / width, k / width;
    i := q - p;
    Distribute(q, p, width);
    StepsBounded(i, width, hi - lo, n);
  }

  lemma {:induction false} Distribute(q: int, p: int, w: int)
    ensures (q - p) * w == q * w - p * w
  {
  }

  /** The widening stops at no more than 360 possible bins. */
  lemma {:induction false} BinsBounded(bins: map<Time, Slot>, first: int, last: int, width: int)
    requires width > 0 && InRange(bins, first, last, width) && (Bucket(last, width) - Bucket(first, width)) / width < BIN_LIMIT
    ensures |bins| <= BIN_LIMIT
  {
    BucketAligned(first, width);
    forall k | k in bins.Keys
      ensures exists i :: 0 <= i < BIN_LIMIT && k == Bucket(first, width) + i * width
    {
      var i := AlignedSteps(Bucket(first, width), k, Bucket(last, width), width, BIN_LIMIT);
    }
    FewAligned(bins.Keys, Bucket(first, width), width, BIN_LIMIT);
    assert |bins| == |bins.Keys|;
  }

  /** A width beyond the range leaves at most two bins. */
  lemma {:induction false} WideEnough(first: int, last: int, width: int)
    requires width > 0 && first <= last && last - first < width
    ensures (Bucket(last, width) - Bucket(first, width)) / width <= 1
  {
    hide Bucket;
    BucketContains(first, width);
    BucketContains(last, width);
    var d := last / width - first / width;
    Distribute(last / width, first / width, width);
    if d >= 2 {
      Larger(d, 1, width);
    }
    Multiple(d, width);
  }

  lemma {:induction false} Multiple(d: int, width: int)
    requires width > 0
    ensures d * width / width == d
  {
    Unique(d * width, width, d);
  }

  // ---------- Widening ----------

  lemma {:induction false} MergeSlot(bins: map<Time, Slot>, merged: map<Time, Slot>, done: set<Time>, at: Time, key: Time, m: Measure)
    requires at in bins && at !in done && Sum(merged, m) == SumOf<Time>(done, HeldAt(bins, m))
    ensures Sum(merged[key := Merge(SlotAt(merged, key), bins[at])], m) == SumOf<Time>(done + {at}, HeldAt(bins, m))
  {
    hide Held, Merge, Sum;
    SumPutSlot(merged, key, Merge(SlotAt(merged, key), bins[at]), m);
    HeldMerge(SlotAt(merged, key), bins[at], m);
    SumPick<Time>(done + {at}, HeldAt(bins, m), at);
    assert done + {at} - {at} == done;
  }

  lemma {:induction false} WideRange(bins: map<Time, Slot>, first: int, last: int, width: int, at: Time)
    requires width > 0 && InRange(bins, first, last, width) && at in bins
    ensures var key := Bucket(at, 2 * width);
            Aligned(key, 2 * width) && Bucket(first, 2 * width) <= key <= Bucket(last, 2 * width)
  {
    BucketAligned(at, 2 * width);
    BucketMonotone(Bucket(first, width), at, 2 * width);
    BucketMonotone(at, Bucket(last, width), 2 * width);
    BucketNests(first, width);
    BucketNests(last, width);
  }

  /** What the two halves of a wider bin hold, as far as they are merged. */
  ghost predicate Paired(bins: map<Time, Slot>, merged: map<Time, Slot>, done: set<Time>, width: int)
    requires width > 0
  {
    forall key, m :: Aligned(key, 2 * width) ==>
      Held(SlotAt(merged, key), m) == HeldIn(bins, done, key, m) + HeldIn(bins, done, key + width, m)
  }

  function HeldIn(bins: map<Time, Slot>, done: set<Time>, k: Time, m: Measure): real {
    if k in done then Held(SlotAt(bins, k), m) else 0.0
  }

  /** A bucket is one of the two halves of exactly one wider bucket. */
  lemma {:induction false} HalfOf(at: Time, width: int, key: Time)
    requires width > 0 && Aligned(at, width) && Aligned(key, 2 * width)
    ensures Bucket(at, 2 * width) == key <==> at == key || at == key + width
  {
    hide Bucket;
    BucketContains(at, width);
    BucketContains(at, 2 * width);
    BucketContains(key, 2 * width);
    var q, h := at / width, key / (2 * width);
    assert at == q * width && key == h * (2 * width);
    Twice(h, width);
    if at == key || at == key + width {
      HalfQuotient(at, width, h);
    } else if Bucket(at, 2 * width) == key {
      assert (2 * h) * width <= q * width < (2 * h + 2) * width by { Twice(h, width); }
      HalfSteps(q, h, width);
      assert false;
    }
  }

  lemma {:induction false} HalfSteps(q: int, h: int, width: int)
    requires width > 0 && (2 * h) * width <= q * width < (2 * h + 2) * width
    ensures q == 2 * h || q == 2 * h + 1
  {
    if q < 2 * h {
      Larger(2 * h, q, width);
    } else if q > 2 * h + 1 {
      Larger(q, 2 * h + 1, width);
    }
  }

  lemma {:induction false} PairedMore(bins: map<Time, Slot>, merged: map<Time, Slot>, done: set<Time>, width: int, at: Time)
    requires width > 0 && at in bins && at !in done && Aligned(at, width) && Paired(bins, merged, done, width)
    ensures var key := Bucket(at, 2 * width);
            Paired(bins, merged[key := Merge(SlotAt(merged, key), bins[at])], done + {at}, width)
  {
    hide Held, Merge, Aligned;
    var wide := Bucket(at, 2 * width);
    var next := merged[wide := Merge(SlotAt(merged, wide), bins[at])];
    forall key, m | Aligned(key, 2 * width)
      ensures Held(SlotAt(next, key), m) == HeldIn(bins, done + {at}, key, m) + HeldIn(bins, done + {at}, key + width, m)
    {
      HalfOf(at, width, key);
      HeldMerge(SlotAt(merged, wide), bins[at], m);
      assert Held(SlotAt(merged, key), m) == HeldIn(bins, done, key, m) + HeldIn(bins, done, key + width, m);
      assert SlotAt(next, key) == if key == wide then Merge(SlotAt(merged, wide), bins[at]) else SlotAt(merged, key);
      assert HeldIn(bins, done + {at}, at, m) == Held(bins[at], m) && HeldIn(bins, done, at, m) == 0.0;
      assert forall k :: k != at ==> HeldIn(bins, done + {at}, k, m) == HeldIn(bins, done, k, m);
    }
  }

  lemma {:induction false} PairedNothing(bins: map<Time, Slot>, width: int)
    requires width > 0
    ensures Paired(bins, map[], {}, width)
  {
  }

  /** Merge bins pairwise; nothing is gained or lost on any measure, in any pair. */
  method Widen(bins: map<Time, Slot>, first: int, last: int, width: int) returns (merged: map<Time, Slot>)
    requires width > 0 && InRange(bins, first, last, width)
    ensures InRange(merged, first, last, 2 * width)
    ensures forall m :: Sum(merged, m) == Sum(bins, m)
    ensures Paired(bins, merged, bins.Keys, width)
  {
    hide Sum, Bucket, Merge, Aligned, SumOf, Paired;
    PairedNothing(bins, width);
    merged := map[];
    var rest := bins.Keys;
    assert bins.Keys - rest == {};
    EmptySums(bins);
    while rest != {}
      invariant rest <= bins.Keys && InRange(merged, first, last, 2 * width)
      invariant forall m :: Sum(merged, m) == SumOf<Time>(bins.Keys - rest, HeldAt(bins, m))
      invariant Paired(bins, merged, bins.Keys - rest, width)
    {
      var at := AnyOf(rest);
      var key := Bucket(at, 2 * width);
      WideRange(bins, first, last, width, at);
      PairedMore(bins, merged, bins.Keys - rest, width, at);
      assert bins.Keys - rest + {at} == bins.Keys - (rest - {at});
      forall m
        ensures Sum(merged[key := Merge(SlotAt(merged, key), bins[at])], m) == SumOf<Time>(bins.Keys - (rest - {at}), HeldAt(bins, m))
      {
        MergeSlot(bins, merged, bins.Keys - rest, at, key, m);
        assert bins.Keys - rest + {at} == bins.Keys - (rest - {at});
      }
      merged := merged[key := Merge(SlotAt(merged, key), bins[at])];
      rest := rest - {at};
    }
    assert bins.Keys - rest == bins.Keys;
    AllSums(bins);
  }

  lemma {:induction false} EmptySums(bins: map<Time, Slot>)
    ensures forall m :: Sum(map[], m) == SumOf<Time>({}, HeldAt(bins, m)) == 0.0
  {
  }

  lemma {:induction false} AllSums(bins: map<Time, Slot>)
    ensures forall m :: Sum(bins, m) == SumOf<Time>(bins.Keys, HeldAt(bins, m))
  {
  }

  // ---------- Spreading an interval ----------

  function Fraction(overlap: int, duration: int): real
    requires duration > 0
  {
    overlap as real / duration as real
  }

  function Scale(amount: int, f: real): real {
    amount as real * f
  }

  /** The share of a protocol after depositing fraction f of its amount. */
  function Raised(share: Share, p: Protocol, f: real): Share {
    Share(share.received + Scale(p.received, f), share.sent + Scale(p.sent, f))
  }

  ghost predicate Deposited(slot: Slot, shares: map<nat, Share>, ps: seq<Protocol>, f: real) {
    forall name :: ShareOf(slot.(protocols := shares), name) == Raised(ShareOf(slot, name), Find(ps, name), f)
  }

  lemma {:induction false} NoDeposit(slot: Slot, f: real)
    ensures Deposited(slot, slot.protocols, [], f)
  {
  }

  lemma {:induction false} DepositMore(slot: Slot, shares: map<nat, Share>, ps: seq<Protocol>, k: nat, f: real)
    requires Names(ps) && k < |ps| && Deposited(slot, shares, ps[..k], f)
    ensures Deposited(slot, shares[ps[k].name := Raised(ShareOf(slot.(protocols := shares), ps[k].name), ps[k], f)], ps[..k + 1], f)
  {
    var p := ps[k];
    var next := shares[p.name := Raised(ShareOf(slot.(protocols := shares), p.name), p, f)];
    forall name
      ensures ShareOf(slot.(protocols := next), name) == Raised(ShareOf(slot, name), Find(ps[..k + 1], name), f)
    {
      FindPrefix(ps, k, name);
      assert ShareOf(slot.(protocols := shares), name) == Raised(ShareOf(slot, name), Find(ps[..k], name), f);
      if name == p.name {
        assert Scale(0, f) == 0.0;
        hide Scale, Find, Names;
      }
    }
  }

  /** The shares of the protocols of an interval, added to those of a bin. */
  method DepositProtocols(slot: Slot, ps: seq<Protocol>, f: real) returns (shares: map<nat, Share>)
    requires Names(ps)
    ensures Deposited(slot, shares, ps, f)
  {
    hide Names, Deposited, Raised;
    shares := slot.protocols;
    assert ps[..0] == [];
    NoDeposit(slot, f);
    for k := 0 to |ps|
      invariant Deposited(slot, shares, ps[..k], f)
    {
      DepositMore(slot, shares, ps, k, f);
      shares := shares[ps[k].name := Raised(ShareOf(slot.(protocols := shares), ps[k].name), ps[k], f)];
    }
    assert ps[..|ps|] == ps;
  }

  method Deposit(slot: Slot, i: Interval, overlap: int) returns (s: Slot)
    requires i.duration > 0 && Names(i.protocols)
    ensures forall m :: Held(s, m) == Held(slot, m) + Carried(i, m) * Fraction(overlap, i.duration)
  {
    hide Names, Find, Fraction;
    var f := Fraction(overlap, i.duration);
    var shares := DepositProtocols(slot, i.protocols, f);
    s := Slot(slot.received + i.received as real * f, slot.sent + i.sent as real * f, slot.seconds + overlap as real / NANOS as real, shares);
    forall m
      ensures Held(s, m) == Held(slot, m) + Carried(i, m) * f
    {
      match m
      case Seconds => SecondsFraction(overlap, i.duration);
      case Of(Received) =>
      case Of(Sent) =>
      case Of(ReceivedBy(name)) => assert ShareOf(s, name) == Raised(ShareOf(slot, name), Find(i.protocols, name), f);
      case Of(SentBy(name)) => assert ShareOf(s, name) == Raised(ShareOf(slot, name), Find(i.protocols, name), f);
    }
  }

  lemma {:induction false} SecondsFraction(overlap: int, duration: int)
    requires duration > 0
    ensures overlap as real / NANOS as real == (duration as real / NANOS as real) * Fraction(overlap, duration)
  {
  }

  lemma {:induction false} QuotientsAdd(a: real, b: real, d: real)
    requires d != 0.0
    ensures a / d + b / d == (a + b) / d
  {
    var x, y := a / d, b / d;
    assert x * d == a && y * d == b;
    assert (x + y) * d == x * d + y * d;
  }

  lemma {:induction false} FractionAdds(a: int, b: int, duration: int, x: real)
    requires duration > 0
    ensures x * Fraction(a, duration) + x * Fraction(b, duration) == x * Fraction(a + b, duration)
    ensures x * Fraction(duration, duration) == x && x * Fraction(0, duration) == 0.0
  {
    assert Fraction(a, duration) + Fraction(b, duration) == Fraction(a + b, duration) by {
      assert (a + b) as real == a as real + b as real;
      QuotientsAdd(a as real, b as real, duration as real);
    }
    assert Fraction(duration, duration) == 1.0;
    assert Fraction(0, duration) == 0.0;
    hide Fraction;
  }

  // ---------- Where an interval lies ----------

  function Later(a: int, b: int): int { if a > b then a else b }

  function Sooner(a: int, b: int): int { if a < b then a else b }

  function Second(t: int): int { t / NANOS }

  lemma {:induction false} SecondContains(t: int)
    ensures Second(t) * NANOS <= t < (Second(t) + 1) * NANOS
  {
  }

  /** How long the interval lasts inside this bin, in nanoseconds. */
  function Overlap(i: Interval, k: Time, width: int): nat {
    var length := Sooner(i.at, (k + width) * NANOS) - Later(i.at - i.duration, k * NANOS);
    if length > 0 then length else 0
  }

  /** What falls into this bin of everything that these intervals carry. */
  ghost function Landed(intervals: seq<Interval>, k: Time, width: int, m: Measure): real {
    if intervals == [] then 0.0
    else
      var n := |intervals| - 1;
      Landed(intervals[..n], k, width, m) + LandedOf(intervals[n], k, width, m)
  }

  function LandedOf(i: Interval, k: Time, width: int, m: Measure): real {
    if i.duration > 0 then Carried(i, m) * Fraction(Overlap(i, k, width), i.duration) else 0.0
  }

  /** Every bin holds exactly what falls into it. */
  ghost predicate Placed(bins: map<Time, Slot>, intervals: seq<Interval>, width: int)
    requires width > 0
  {
    forall k, m :: Aligned(k, width) ==> Held(SlotAt(bins, k), m) == Landed(intervals, k, width, m)
  }

  lemma {:induction false} OverlapHalves(i: Interval, k: Time, width: int)
    requires width > 0
    ensures Overlap(i, k, 2 * width) == Overlap(i, k, width) + Overlap(i, k + width, width) || i.duration < 0
  {
    assert k * NANOS < (k + width) * NANOS < (k + 2 * width) * NANOS;
  }

  lemma {:induction false} LandedHalves(intervals: seq<Interval>, k: Time, width: int, m: Measure)
    requires width > 0
    ensures Landed(intervals, k, 2 * width, m) == Landed(intervals, k, width, m) + Landed(intervals, k + width, width, m)
  {
    hide Carried, Fraction, Overlap;
    if intervals != [] {
      var n := |intervals| - 1;
      var i := intervals[n];
      LandedHalves(intervals[..n], k, width, m);
      if i.duration > 0 {
        OverlapHalves(i, k, width);
        FractionAdds(Overlap(i, k, width), Overlap(i, k + width, width), i.duration, Carried(i, m));
      }
    }
  }

  lemma {:induction false} AlignedHalves(key: Time, width: int)
    requires width > 0 && Aligned(key, 2 * width)
    ensures Aligned(key, width) && Aligned(key + width, width)
  {
    BucketContains(key, 2 * width);
    var h := key / (2 * width);
    Twice(h, width);
    BucketContains(key, width);
    Unique(key, width, 2 * h);
    AlignedNext(key, width);
  }

  lemma {:induction false} NotStored(bins: map<Time, Slot>, k: Time, m: Measure)
    ensures HeldIn(bins, bins.Keys, k, m) == Held(SlotAt(bins, k), m)
  {
  }

  /** Widening leaves every bin with exactly what falls into it. */
  lemma {:induction false} WidenedPlaced(bins: map<Time, Slot>, merged: map<Time, Slot>, intervals: seq<Interval>, width: int)
    requires width > 0 && Placed(bins, intervals, width) && Paired(bins, merged, bins.Keys, width)
    ensures Placed(merged, intervals, 2 * width)
  {
    hide Held, Aligned, Landed;
    forall k, m | Aligned(k, 2 * width)
      ensures Held(SlotAt(merged, k), m) == Landed(intervals, k, 2 * width, m)
    {
      AlignedHalves(k, width);
      LandedHalves(intervals, k, width, m);
      NotStored(bins, k, m);
      NotStored(bins, k + width, m);
    }
  }

  // ---------- Bin by bin ----------

  /** The interval is deposited in the bins before `at`. */
  ghost predicate Spread(bins0: map<Time, Slot>, bins: map<Time, Slot>, i: Interval, width: int, at: Time)
    requires width > 0
  {
    forall k, m :: Aligned(k, width) ==>
      Held(SlotAt(bins, k), m) == Held(SlotAt(bins0, k), m) + if k < at then LandedOf(i, k, width, m) else 0.0
  }

  lemma {:induction false} AlignedGap(k: Time, at: Time, width: int)
    requires width > 0 && Aligned(k, width) && Aligned(at, width) && k < at
    ensures k + width <= at
  {
    hide Bucket;
    BucketContains(k, width);
    BucketContains(at, width);
    var p, q := k / width, at / width;
    if p >= q {
      Scaled(p - q, width);
      Distribute(p, q, width);
    } else {
      Larger(q, p, width);
    }
  }

  lemma {:induction false} NoOverlap(i: Interval, k: Time, width: int, m: Measure)
    requires (k + width) * NANOS <= i.at - i.duration || i.at <= k * NANOS
    ensures LandedOf(i, k, width, m) == 0.0
  {
    if i.duration > 0 {
      assert Overlap(i, k, width) == 0;
      hide Carried;
      NothingCovered(i, m);
    }
  }

  lemma {:induction false} SpreadNothing(bins: map<Time, Slot>, i: Interval, width: int, at: Time)
    requires width > 0 && Aligned(at, width) && at * NANOS <= i.at - i.duration
    ensures Spread(bins, bins, i, width, at)
  {
    hide Held, LandedOf, Aligned;
    forall k, m | Aligned(k, width) && k < at
      ensures LandedOf(i, k, width, m) == 0.0
    {
      AlignedGap(k, at, width);
      NoOverlap(i, k, width, m);
    }
  }

  lemma {:induction false} SpreadMore(bins0: map<Time, Slot>, bins: map<Time, Slot>, i: Interval, width: int, at: Time, s: Slot)
    requires width > 0 && i.duration > 0 && Aligned(at, width) && Spread(bins0, bins, i, width, at)
    requires forall m :: Held(s, m) == Held(SlotAt(bins, at), m) + Carried(i, m) * Fraction(Overlap(i, at, width), i.duration)
    ensures Spread(bins0, bins[at := s], i, width, at + width)
  {
    hide Held, Carried, Fraction, Overlap, Aligned;
    var next := bins[at := s];
    forall k, m | Aligned(k, width)
      ensures Held(SlotAt(next, k), m) == Held(SlotAt(bins0, k), m) + if k < at + width then LandedOf(i, k, width, m) else 0.0
    {
      if at < k {
        AlignedGap(at, k, width);
      }
    }
  }

  lemma {:induction false} SpreadAll(bins0: map<Time, Slot>, bins: map<Time, Slot>, i: Interval, width: int, at: Time, k: Time, m: Measure)
    requires width > 0 && Spread(bins0, bins, i, width, at) && i.at <= at * NANOS && Aligned(k, width)
    ensures Held(SlotAt(bins, k), m) == Held(SlotAt(bins0, k), m) + LandedOf(i, k, width, m)
  {
    hide Held, LandedOf, Aligned;
    if k >= at {
      NoOverlap(i, k, width, m);
    }
  }

  /** The deposit of one overlap raises the sums by its fraction. */
  lemma {:induction false} OverlapAdds(bins: map<Time, Slot>, at: Time, s: Slot, i: Interval, covered: int, overlap: int, base: real, m: Measure)
    requires i.duration > 0
    requires Sum(bins, m) == base + Carried(i, m) * Fraction(covered, i.duration)
    requires Held(s, m) == Held(SlotAt(bins, at), m) + Carried(i, m) * Fraction(overlap, i.duration)
    ensures Sum(bins[at := s], m) == base + Carried(i, m) * Fraction(covered + overlap, i.duration)
  {
    hide Sum, Held, Carried, Fraction;
    SumPutSlot(bins, at, s, m);
    FractionAdds(covered, overlap, i.duration, Carried(i, m));
  }

  lemma {:induction false} NothingCovered(i: Interval, m: Measure)
    requires i.duration > 0
    ensures Carried(i, m) * Fraction(0, i.duration) == 0.0
    ensures Carried(i, m) * Fraction(i.duration, i.duration) == Carried(i, m)
  {
    FractionAdds(0, 0, i.duration, Carried(i, m));
  }

  /** Spread an interval over the bins of the given width. */
  method SpreadInterval(bins0: map<Time, Slot>, i: Interval, first: int, last: int, width: int) returns (bins: map<Time, Slot>)
    requires width > 0 && i.duration > 0 && Names(i.protocols) && InRange(bins0, first, last, width)
    requires first <= Second(i.at - i.duration) && Second(i.at - 1) <= last
    ensures InRange(bins, first, last, width)
    ensures forall m :: Sum(bins, m) == Sum(bins0, m) + Carried(i, m)
    ensures forall k, m :: Aligned(k, width) ==> Held(SlotAt(bins, k), m) == Held(SlotAt(bins0, k), m) + LandedOf(i, k, width, m)
  {
    hide Sum, Held, Carried, Fraction, Bucket, Aligned, Names, Spread, LandedOf;
    var end := i.at;
    var start := end - i.duration;
    var lastSecond := Second(end - 1);
    bins := bins0;
    var at := Bucket(Second(start), width);
    BucketContains(Second(start), width);
    BucketAligned(Second(start), width);
    BucketMonotone(first, Second(start), width);
    SecondContains(start);
    SecondContains(end - 1);
    forall m
      ensures Sum(bins, m) == Sum(bins0, m) + Carried(i, m) * Fraction(0, i.duration)
    {
      NothingCovered(i, m);
    }
    ghost var position := start;
    SpreadNothing(bins0, i, width, at);
    while at <= lastSecond
      invariant InRange(bins, first, last, width) && Aligned(at, width) && Bucket(first, width) <= at
      invariant position == Sooner(end, Later(start, at * NANOS)) && start < (at + width) * NANOS
      invariant Spread(bins0, bins, i, width, at)
      invariant forall m :: Sum(bins, m) == Sum(bins0, m) + Carried(i, m) * Fraction(position - start, i.duration)
      decreases lastSecond - at
    {
      var begin := Later(at * NANOS, start);
      var finish := Sooner((at + width) * NANOS, end);
      var s := Deposit(SlotAt(bins, at), i, finish - begin);
      forall m
        ensures Sum(bins[at := s], m) == Sum(bins0, m) + Carried(i, m) * Fraction(finish - start, i.duration)
      {
        OverlapAdds(bins, at, s, i, position - start, finish - begin, Sum(bins0, m), m);
      }
      assert finish - begin == Overlap(i, at, width);
      SpreadMore(bins0, bins, i, width, at, s);
      AlignedBelow(at, last, width);
      AlignedNext(at, width);
      bins := bins[at := s];
      at := at + width;
      position := finish;
    }
    BeyondEnd(at, lastSecond, start, end);
    forall k, m | Aligned(k, width)
      ensures Held(SlotAt(bins, k), m) == Held(SlotAt(bins0, k), m) + LandedOf(i, k, width, m)
    {
      SpreadAll(bins0, bins, i, width, at, k, m);
    }
    forall m
      ensures Sum(bins, m) == Sum(bins0, m) + Carried(i, m)
    {
      NothingCovered(i, m);
    }
  }

  lemma {:induction false} BeyondEnd(at: int, lastSecond: int, start: int, end: int)
    requires at > lastSecond && end <= (lastSecond + 1) * NANOS && start < end
    ensures Sooner(end, Later(start, at * NANOS)) == end
  {
  }

  lemma {:induction false} AlignedBelow(at: int, last: int, width: int)
    requires width > 0 && Aligned(at, width) && at <= last
    ensures at <= Bucket(last, width)
  {
    BucketMonotone(at, last, width);
  }

  predicate FiveDoubled(width: int) {
    width == FIRST_WIDTH || (width > FIRST_WIDTH && width % 2 == 0 && FiveDoubled(width / 2))
  }

  /** How many buckets lie between these seconds, less one. */
  function Steps(first: int, last: int, width: int): int
    requires width > 0
  {
    (Bucket(last, width) - Bucket(first, width)) / width
  }

  /** A width reached by doubling, and only because half of it would need too many buckets. */
  ghost predicate Fitting(first: int, last: int, width: int) {
    width > 0 && FiveDoubled(width) && (width > FIRST_WIDTH ==> Steps(first, last, width / 2) >= BIN_LIMIT)
  }

  ghost function Earliest(intervals: seq<Interval>): int
    requires intervals != []
  {
    var n := |intervals| - 1;
    var second := Second(intervals[n].at - intervals[n].duration);
    if n == 0 then second else Sooner(Earliest(intervals[..n]), second)
  }

  ghost function Latest(intervals: seq<Interval>): int
    requires intervals != []
  {
    var n := |intervals| - 1;
    var second := Second(intervals[n].at - 1);
    if n == 0 then second else Later(Latest(intervals[..n]), second)
  }

  lemma {:induction false} StepsGrow(first: int, last: int, width: int, first': int, last': int)
    requires width > 0 && first' <= first && last <= last'
    ensures Steps(first', last', width) >= Steps(first, last, width)
  {
    BucketMonotone(first', first, width);
    BucketMonotone(last, last', width);
    hide Bucket;
    QuotientGrows(Bucket(last, width) - Bucket(first, width), Bucket(last', width) - Bucket(first', width), width);
  }

  lemma {:induction false} QuotientGrows(a: int, b: int, w: int)
    requires w > 0 && a <= b
    ensures a / w <= b / w
  {
    assert a == (a / w) * w + a % w && b == (b / w) * w + b % w;
    QuotientsOrdered(a / w, b / w, w, (a / w) * w, b);
  }

  lemma {:induction false} FittingGrows(first: int, last: int, width: int, first': int, last': int)
    requires Fitting(first, last, width) && first' <= first && last <= last'
    ensures Fitting(first', last', width)
  {
    hide Steps;
    if width > FIRST_WIDTH {
      StepsGrow(first, last, width / 2, first', last');
    }
  }

  lemma {:induction false} FittingDoubled(first: int, last: int, width: int)
    requires Fitting(first, last, width) && Steps(first, last, width) >= BIN_LIMIT
    ensures Fitting(first, last, 2 * width)
  {
    hide Steps;
    assert 2 * width / 2 == width && 2 * width % 2 == 0;
  }

  lemma {:induction false} ExtentMore(intervals: seq<Interval>, i: Interval)
    ensures var first, last := Second(i.at - i.duration), Second(i.at - 1);
            && Earliest(intervals + [i]) == (if intervals == [] then first else Sooner(Earliest(intervals), first))
            && Latest(intervals + [i]) == (if intervals == [] then last else Later(Latest(intervals), last))
  {
    assert (intervals + [i])[..|intervals|] == intervals;
  }

  lemma {:induction false} PlacedMore(bins: map<Time, Slot>, next: map<Time, Slot>, intervals: seq<Interval>, i: Interval, width: int)
    requires width > 0 && Placed(bins, intervals, width)
    requires forall k, m :: Aligned(k, width) ==> Held(SlotAt(next, k), m) == Held(SlotAt(bins, k), m) + LandedOf(i, k, width, m)
    ensures Placed(next, intervals + [i], width)
  {
    hide Held, LandedOf, Aligned;
    assert (intervals + [i])[..|intervals|] == intervals;
  }

  lemma {:induction false} PlacedNothing(width: int)
    requires width > 0
    ensures Placed(map[], [], width)
  {
  }

  class Timeline {
    var width: int
    var first: int
    var last: int
    var bins: map<Time, Slot>
    var begun: bool
    /** Everything added so far. */
    ghost var added: seq<Interval>

    /** Every bin holds exactly what falls into it; there are at most 360, and the width is
        the narrowest that makes sure of that. */
    ghost predicate Ok()
      reads this
    {
      && (!begun ==> bins == map[] && added == [])
      && (begun ==>
            && added != [] && first == Earliest(added) && last == Latest(added) && Fitting(first, last, width) && Steps(first, last, width) < BIN_LIMIT
            && InRange(bins, first, last, width) && |bins| <= BIN_LIMIT && Placed(bins, added, width))
    }

    constructor ()
      ensures Ok() && !begun && bins == map[] && added == []
    {
      width, first, last, bins, begun, added := 0, 0, 0, map[], false, [];
    }

    /** Make room for these seconds, merging bins as often as it takes. */
    method Reach(firstSecond: int, lastSecond: int, ghost intervals: seq<Interval>)
      requires width > 0 && InRange(bins, first, last, width) && Fitting(first, last, width) && Placed(bins, intervals, width)
      modifies this`width, this`first, this`last, this`bins
      ensures width > 0 && InRange(bins, first, last, width) && Fitting(first, last, width) && Placed(bins, intervals, width)
      ensures Steps(first, last, width) < BIN_LIMIT
      ensures first == Sooner(old(first), firstSecond) && last == Later(old(last), lastSecond)
      ensures forall m :: Sum(bins, m) == old(Sum(bins, m))
    {
      hide Sum, Bucket, Aligned, Placed, Fitting, Landed, Held, Paired;
      StillInRange(bins, first, last, width, Sooner(first, firstSecond), Later(last, lastSecond));
      FittingGrows(first, last, width, Sooner(first, firstSecond), Later(last, lastSecond));
      if firstSecond < first {
        first := firstSecond;
      }
      if lastSecond > last {
        last := lastSecond;
      }
      while (Bucket(last, width) - Bucket(first, width)) / width >= BIN_LIMIT
        invariant width > 0 && InRange(bins, first, last, width) && Fitting(first, last, width) && Placed(bins, intervals, width)
        invariant first == Sooner(old(first), firstSecond) && last == Later(old(last), lastSecond)
        invariant forall m :: Sum(bins, m) == old(Sum(bins, m))
        decreases last - first - width
      {
        if last - first < width {
          WideEnough(first, last, width);
        }
        ghost var narrow := bins;
        bins := Widen(bins, first, last, width);
        WidenedPlaced(narrow, bins, intervals, width);
        FittingDoubled(first, last, width);
        width := 2 * width;
      }
    }

    /** Add one interval: every bin gains exactly what falls into it, and so every channel
        exactly what the interval carries. */
    method Add(i: Interval)
      requires Ok() && i.duration > 0 && Names(i.protocols)
      modifies this
      ensures Ok() && begun && |bins| <= BIN_LIMIT && added == old(added) + [i]
      ensures forall m :: Sum(bins, m) == old(Sum(bins, m)) + Carried(i, m)
    {
      hide Sum, Carried, Bucket, Aligned, Names, Placed, Fitting, Landed, LandedOf, Held, Earliest, Latest;
      var firstSecond, lastSecond := Second(i.at - i.duration), Second(i.at - 1);
      ExtentMore(added, i);
      if !begun {
        width, first, last, begun := FIRST_WIDTH, firstSecond, lastSecond, true;
        PlacedNothing(width);
        FittingStart(first, last);
      }
      FittingWidth(first, last, width);
      Reach(firstSecond, lastSecond, added);
      ghost var placed := bins;
      bins := SpreadInterval(bins, i, first, last, width);
      BinsBounded(bins, first, last, width);
      PlacedMore(placed, bins, added, i, width);
      added := added + [i];
    }
  }

  lemma {:induction false} FittingStart(first: int, last: int)
    ensures Fitting(first, last, FIRST_WIDTH)
  {
  }

  lemma {:induction false} FittingWidth(first: int, last: int, width: int)
    requires Fitting(first, last, width)
    ensures width > 0
  {
  }

  // ---------- From samples to the timeline ----------

  datatype Report = Report(key: Key, at: int, sample: Sample)

  /** A report counts if its sample is valid and extends its session and if the totals of
      the whole run can still be represented with it. */
  ghost predicate Counts(sessions: map<Key, Sample>, r: Report) {
    var prev := At(sessions, r.key);
    && Valid(r.sample) && Extends(prev, r.sample)
    && Total(sessions, Received) + (r.sample.received - prev.received) as real <= MAX_INT64 as real
    && Total(sessions, Sent) + (r.sample.sent - prev.sent) as real <= MAX_INT64 as real
  }

  /** What the reports add up to: the latest sample that counted in each session, how many
      counted, and how many valid ones were not newer than the latest of their session. */
  datatype Account = Account(sessions: map<Key, Sample>, counted: nat, stale: nat)

  /** A report that counted, with the sample before it in its session. */
  datatype Counted = Counted(before: Sample, report: Report)

  ghost function CountedOf(reports: seq<Report>): seq<Counted> {
    if reports == [] then []
    else
      var n := |reports| - 1;
      var before, r := AccountOf(reports[..n]), reports[n];
      CountedOf(reports[..n]) + if Counts(before.sessions, r) then [Counted(At(before.sessions, r.key), r)] else []
  }

  /** This interval is what the report adds to the sample before it. */
  ghost predicate Draws(i: Interval, c: Counted) {
    && i.at == c.report.at && i.duration == c.report.sample.elapsed - c.before.elapsed > 0
    && forall channel :: Amount(c.before, channel) + Part(i, channel) == Amount(c.report.sample, channel)
  }

  ghost predicate DrawsAll(intervals: seq<Interval>, counted: seq<Counted>) {
    |intervals| == |counted| && forall k :: 0 <= k < |intervals| ==> Draws(intervals[k], counted[k])
  }

  ghost function AccountOf(reports: seq<Report>): Account {
    if reports == [] then Account(map[], 0, 0)
    else
      var n := |reports| - 1;
      var before, r := AccountOf(reports[..n]), reports[n];
      if Counts(before.sessions, r) then before.(sessions := before.sessions[r.key := r.sample], counted := before.counted + 1)
      else if Valid(r.sample) && r.key in before.sessions && r.sample.elapsed <= before.sessions[r.key].elapsed then
        before.(stale := before.stale + 1)
      else before
  }

  /** Account for any sequence of reports and draw the accepted ones. The accumulator holds
      what these reports add up to, and on every channel the timeline holds exactly the sum
      of the latest accepted counters of all sessions. */
  method Ingest(reports: seq<Report>) returns (a: Accumulator, t: Timeline)
    ensures a.Ok() && t.Ok() && |t.bins| <= BIN_LIMIT
    ensures Account(a.sessions, a.samples, a.superseded) == AccountOf(reports)
    ensures a.samples + a.superseded + a.rejected == |reports|
    ensures forall c :: Sum(t.bins, Of(c)) == Total(AccountOf(reports).sessions, c)
    ensures DrawsAll(t.added, CountedOf(reports)) && (t.begun <==> CountedOf(reports) != [])
  {
    hide Sum, Total, Names, History, Valid, Extends, Part, Amount, Draws, Counts;
    a := new Accumulator();
    t := new Timeline();
    assert Account(a.sessions, a.samples, a.superseded) == AccountOf(reports[..0]);
    NothingDrawn();
    for k := 0 to |reports|
      invariant fresh(a) && fresh(t) && a.Ok() && t.Ok() && |t.bins| <= BIN_LIMIT
      invariant Account(a.sessions, a.samples, a.superseded) == AccountOf(reports[..k])
      invariant a.samples + a.superseded + a.rejected == k
      invariant forall c :: Sum(t.bins, Of(c)) == Total(a.sessions, c)
      invariant DrawsAll(t.added, CountedOf(reports[..k])) && (t.begun <==> t.added != [])
    {
      AccountNext(reports, k);
      CountedNext(reports, k);
      ghost var before, counts := At(a.sessions, reports[k].key), Counts(a.sessions, reports[k]);
      CountsMeans(a.sessions, reports[k]);
      LaterIsNewer(At(a.sessions, reports[k].key), reports[k].sample);
      var interval := a.Observe(reports[k].key, reports[k].at, reports[k].sample);
      if interval.Some? {
        DrawsThis(interval.value, Counted(before, reports[k]));
        t.Add(interval.value);
      }
    }
    assert reports[..|reports|] == reports;
  }

  lemma {:induction false} AccountNext(reports: seq<Report>, k: nat)
    requires k < |reports|
    ensures var before, r, now := AccountOf(reports[..k]), reports[k], AccountOf(reports[..k + 1]);
            now == if Counts(before.sessions, r) then before.(sessions := before.sessions[r.key := r.sample], counted := before.counted + 1)
                   else if Valid(r.sample) && r.key in before.sessions && r.sample.elapsed <= before.sessions[r.key].elapsed then
                     before.(stale := before.stale + 1)
                   else before
  {
    hide Counts, Valid;
    assert reports[..k + 1][..k] == reports[..k];
  }

  lemma {:induction false} CountedNext(reports: seq<Report>, k: nat)
    requires k < |reports|
    ensures var before, r := AccountOf(reports[..k]), reports[k];
            CountedOf(reports[..k + 1]) == CountedOf(reports[..k]) + if Counts(before.sessions, r) then [Counted(At(before.sessions, r.key), r)] else []
  {
    hide Counts;
    assert reports[..k + 1][..k] == reports[..k];
  }

  lemma {:induction false} CountsMeans(sessions: map<Key, Sample>, r: Report)
    ensures var prev := At(sessions, r.key);
      Counts(sessions, r) <==>
        && Valid(r.sample) && Extends(prev, r.sample)
        && Total(sessions, Received) + (r.sample.received - prev.received) as real <= MAX_INT64 as real
        && Total(sessions, Sent) + (r.sample.sent - prev.sent) as real <= MAX_INT64 as real
  {
    hide Valid, Extends, Total;
  }

  lemma {:induction false} DrawsThis(i: Interval, c: Counted)
    requires i.at == c.report.at && i.duration == c.report.sample.elapsed - c.before.elapsed > 0
    requires forall channel :: Amount(c.before, channel) + Part(i, channel) == Amount(c.report.sample, channel)
    ensures Draws(i, c)
  {
  }

  lemma {:induction false} LaterIsNewer(prev: Sample, s: Sample)
    ensures Extends(prev, s) ==> prev.elapsed < s.elapsed
  {
  }

  lemma {:induction false} NothingDrawn()
    ensures forall c :: Sum(map[], Of(c)) == Total(map[], c) == 0.0
  {
  }
}
