/** The event timeline: one pass, at most 360 bins, the width doubling when there are
    more. The outcome is what grouping all events at the final width would give. */
module StreamingBins {
  import opened Buckets
  import opened SetSums

  const BIN_LIMIT: nat := 360

  datatype Kind = Publish | Deliver | Duplicate | Start | Stop | Send | Recv | Drop

  datatype Event = Event(at: Time, kind: Kind)

  datatype Bin = Bin(publish: nat, deliver: nat, duplicate: nat, start: nat, stop: nat, send: nat, recv: nat, drop: nat) {
    function Plus(o: Bin): Bin {
      Bin(publish + o.publish, deliver + o.deliver, duplicate + o.duplicate, start + o.start, stop + o.stop,
          send + o.send, recv + o.recv, drop + o.drop)
    }
  }

  const EMPTY: Bin := Bin(0, 0, 0, 0, 0, 0, 0, 0)

  /** A bin with one more event. */
  function Count(b: Bin, kind: Kind): Bin {
    match kind
    case Publish => b.(publish := b.publish + 1)
    case Deliver => b.(deliver := b.deliver + 1)
    case Duplicate => b.(duplicate := b.duplicate + 1)
    case Start => b.(start := b.start + 1)
    case Stop => b.(stop := b.stop + 1)
    case Send => b.(send := b.send + 1)
    case Recv => b.(recv := b.recv + 1)
    case Drop => b.(drop := b.drop + 1)
  }

  /** The events at chosen times, counted. */
  function Tally(events: seq<Event>, chosen: Time -> bool): Bin {
    if events == [] then EMPTY
    else
      var n := |events| - 1;
      var b := Tally(events[..n], chosen);
      if chosen(events[n].at) then Count(b, events[n].kind) else b
  }

  /** Direct grouping: one bin for every bucket with an event, counting its events. */
  ghost predicate Grouped(bins: map<Time, Bin>, events: seq<Event>, width: int)
    requires width > 0
  {
    && (forall key :: key in bins <==> Occupied(events, width, key))
    && (forall key :: key in bins ==> bins[key] == Tally(events, In(width, key)))
  }

  ghost predicate Occupied(events: seq<Event>, width: int, key: Time)
    requires width > 0
  {
    exists i :: 0 <= i < |events| && Bucket(events[i].at, width) == key
  }

  function In(width: int, key: Time): Time -> bool
    requires width > 0
  {
    (t: Time) => Bucket(t, width) == key
  }

  lemma {:induction false} TallySame(events: seq<Event>, f: Time -> bool, g: Time -> bool)
    requires forall i :: 0 <= i < |events| ==> f(events[i].at) == g(events[i].at)
    ensures Tally(events, f) == Tally(events, g)
  {
    if events != [] {
      TallySame(events[..|events| - 1], f, g);
    }
  }

  lemma {:induction false} TallyNone(events: seq<Event>, f: Time -> bool)
    requires forall i :: 0 <= i < |events| ==> !f(events[i].at)
    ensures Tally(events, f) == EMPTY
  {
    if events != [] {
      TallyNone(events[..|events| - 1], f);
    }
  }

  lemma {:induction false} CountPlus(a: Bin, b: Bin, kind: Kind)
    ensures Count(a.Plus(b), kind) == Count(a, kind).Plus(b) == a.Plus(Count(b, kind))
  {
  }

  /** Of these times, h chooses what exactly one of f and g chooses. */
  ghost predicate Splits(events: seq<Event>, f: Time -> bool, g: Time -> bool, h: Time -> bool) {
    forall i :: 0 <= i < |events| ==>
      h(events[i].at) == (f(events[i].at) || g(events[i].at)) && !(f(events[i].at) && g(events[i].at))
  }

  lemma {:induction false} PlusNothing(b: Bin)
    ensures b.Plus(EMPTY) == b && EMPTY.Plus(b) == b
  {
  }

  /** Counting two kinds of times apart and together. */
  lemma {:induction false} TallyUnion(events: seq<Event>, f: Time -> bool, g: Time -> bool, h: Time -> bool)
    requires Splits(events, f, g, h)
    ensures Tally(events, h) == Tally(events, f).Plus(Tally(events, g))
  {
    hide Count, Bin.Plus;
    PlusNothing(EMPTY);
    if events != [] {
      var n := |events| - 1;
      TallyUnion(events[..n], f, g, h);
      CountPlus(Tally(events[..n], f), Tally(events[..n], g), events[n].kind);
    }
  }

  lemma {:induction false} TallySnoc(events: seq<Event>, e: Event, f: Time -> bool)
    ensures Tally(events + [e], f) == if f(e.at) then Count(Tally(events, f), e.kind) else Tally(events, f)
  {
    assert (events + [e])[..|events|] == events;
  }

  /** One more event. */
  lemma {:induction false} GroupedSnoc(bins: map<Time, Bin>, events: seq<Event>, width: int, e: Event)
    requires width > 0 && Grouped(bins, events, width)
    ensures var key := Bucket(e.at, width);
      Grouped(bins[key := Count(if key in bins then bins[key] else EMPTY, e.kind)], events + [e], width)
  {
    hide Bucket;
    var key, more := Bucket(e.at, width), events + [e];
    forall k
      ensures Occupied(more, width, k) <==> Occupied(events, width, k) || k == key
      ensures Tally(more, In(width, k)) == if k == key then Count(Tally(events, In(width, k)), e.kind) else Tally(events, In(width, k))
    {
      if Occupied(events, width, k) {
        var i :| 0 <= i < |events| && Bucket(events[i].at, width) == k;
        assert more[i] == events[i];
      }
      assert more[|events|] == e;
      TallySnoc(events, e, In(width, k));
    }
    if key !in bins {
      assert !Occupied(events, width, key);
      TallyNone(events, In(width, key));
    }
  }

  // ---------- Merging ----------

  /** Times whose narrow bucket has been merged already and whose wide bucket is key. */
  function Merged(done: set<Time>, width: int, key: Time): Time -> bool
    requires width > 0
  {
    (t: Time) => Bucket(t, width) in done && Bucket(t, 2 * width) == key
  }

  ghost predicate HalfMerged(bins: map<Time, Bin>, merged: map<Time, Bin>, events: seq<Event>, width: int, done: set<Time>)
    requires width > 0
  {
    && (forall key :: key in merged <==> exists k :: k in done && Bucket(k, 2 * width) == key)
    && (forall key :: key in merged ==> merged[key] == Tally(events, Merged(done, width, key)))
  }

  lemma {:induction false} MergeOne(bins: map<Time, Bin>, merged: map<Time, Bin>, events: seq<Event>, width: int, done: set<Time>, at: Time)
    requires width > 0 && Grouped(bins, events, width) && HalfMerged(bins, merged, events, width, done) && at in bins && at !in done
    ensures var key := Bucket(at, 2 * width);
      HalfMerged(bins, merged[key := (if key in merged then merged[key] else EMPTY).Plus(bins[at])], events, width, done + {at})
  {
    hide Bucket, Bin.Plus;
    PlusNothing(bins[at]);
    var key := Bucket(at, 2 * width);
    var next := merged[key := (if key in merged then merged[key] else EMPTY).Plus(bins[at])];
    forall k | k in next
      ensures next[k] == Tally(events, Merged(done + {at}, width, k))
    {
      if k == key {
        forall i | 0 <= i < |events|
          ensures In(width, at)(events[i].at) ==> Bucket(events[i].at, 2 * width) == key
        {
          BucketNests(events[i].at, width);
        }
        TallyUnion(events, Merged(done, width, key), In(width, at), Merged(done + {at}, width, key));
        if key !in merged {
          NothingMerged(events, width, done, key);
        }
      } else {
        forall i | 0 <= i < |events|
          ensures Bucket(events[i].at, width) == at ==> Bucket(events[i].at, 2 * width) != k
        {
          BucketNests(events[i].at, width);
        }
        TallySame(events, Merged(done, width, k), Merged(done + {at}, width, k));
      }
    }
    forall k
      ensures k in next <==> exists j :: j in done + {at} && Bucket(j, 2 * width) == k
    {
      assert k == key ==> at in done + {at} && Bucket(at, 2 * width) == k;
      if k in merged {
        var j :| j in done && Bucket(j, 2 * width) == k;
        assert j in done + {at};
      }
    }
  }

  lemma {:induction false} NothingMerged(events: seq<Event>, width: int, done: set<Time>, key: Time)
    requires width > 0 && forall k :: k in done ==> Bucket(k, 2 * width) != key
    ensures Tally(events, Merged(done, width, key)) == EMPTY
  {
    hide Bucket;
    forall i | 0 <= i < |events|
      ensures !Merged(done, width, key)(events[i].at)
    {
      BucketNests(events[i].at, width);
    }
    TallyNone(events, Merged(done, width, key));
  }

  lemma {:induction false} MergedAll(bins: map<Time, Bin>, merged: map<Time, Bin>, events: seq<Event>, width: int)
    requires width > 0 && Grouped(bins, events, width) && HalfMerged(bins, merged, events, width, bins.Keys)
    ensures Grouped(merged, events, 2 * width)
  {
    hide Bucket;
    forall key
      ensures key in merged <==> Occupied(events, 2 * width, key)
    {
      if Occupied(events, 2 * width, key) {
        var i :| 0 <= i < |events| && Bucket(events[i].at, 2 * width) == key;
        BucketNests(events[i].at, width);
        assert Occupied(events, width, Bucket(events[i].at, width));
        assert Bucket(events[i].at, width) in bins.Keys;
      }
      if key in merged {
        var k :| k in bins.Keys && Bucket(k, 2 * width) == key;
        var i :| 0 <= i < |events| && Bucket(events[i].at, width) == k;
        BucketNests(events[i].at, width);
      }
    }
    forall key | key in merged
      ensures merged[key] == Tally(events, In(2 * width, key))
    {
      forall i | 0 <= i < |events|
        ensures Bucket(events[i].at, width) in bins.Keys
      {
        assert Occupied(events, width, Bucket(events[i].at, width));
      }
      TallySame(events, Merged(bins.Keys, width, key), In(2 * width, key));
    }
  }

  method Widen(bins: map<Time, Bin>, width: int, ghost events: seq<Event>) returns (merged: map<Time, Bin>)
    requires width > 0 && Grouped(bins, events, width)
    ensures Grouped(merged, events, 2 * width)
  {
    hide Grouped, HalfMerged, Bucket;
    merged := map[];
    var rest := bins.Keys;
    MergeStart(bins, events, width);
    while rest != {}
      invariant rest <= bins.Keys && HalfMerged(bins, merged, events, width, bins.Keys - rest)
    {
      var at := AnyOf(rest);
      MergeOne(bins, merged, events, width, bins.Keys - rest, at);
      assert bins.Keys - (rest - {at}) == bins.Keys - rest + {at};
      var key := Bucket(at, 2 * width);
      merged := merged[key := (if key in merged then merged[key] else EMPTY).Plus(bins[at])];
      rest := rest - {at};
    }
    assert bins.Keys - rest == bins.Keys;
    MergedAll(bins, merged, events, width);
  }

  lemma {:induction false} MergeStart(bins: map<Time, Bin>, events: seq<Event>, width: int)
    requires width > 0
    ensures bins.Keys - bins.Keys == {} && HalfMerged(bins, map[], events, width, {})
  {
  }

  // ---------- The whole pass ----------

  /** A bound on the times seen. */
  ghost predicate Within(events: seq<Event>, bound: int) {
    forall i :: 0 <= i < |events| ==> -bound <= events[i].at < bound
  }

  lemma {:induction false} FewBins(bins: map<Time, Bin>, events: seq<Event>, width: int, bound: int)
    requires width > 0 && Grouped(bins, events, width) && Within(events, bound) && bound <= width
    ensures |bins| <= 2
  {
    hide Bucket;
    forall key | key in bins
      ensures key in {-width, 0}
    {
      var i :| 0 <= i < |events| && Bucket(events[i].at, width) == key;
      TwoBuckets(events[i].at, width);
    }
    Contained(bins.Keys, {-width, 0});
    assert |bins| == |bins.Keys|;
  }

  ghost function Bound(events: seq<Event>): (b: nat)
    ensures Within(events, b)
  {
    if events == [] then 0
    else
      var b, t := Bound(events[..|events| - 1]), events[|events| - 1].at;
      if t >= b then t + 1 else if -t > b then -t else b
  }

  /** The events of one kind in one bucket, by position. */
  ghost function Positions(events: seq<Event>, kind: Kind, width: int, key: Time): set<nat>
    requires width > 0
  {
    set i: nat | i < |events| && events[i].kind == kind && Bucket(events[i].at, width) == key
  }

  /** Each number of the bin is that of the events of its kind in the bucket. */
  ghost predicate Numbers(b: Bin, events: seq<Event>, width: int, key: Time)
    requires width > 0
  {
    && b.publish == |Positions(events, Publish, width, key)| && b.deliver == |Positions(events, Deliver, width, key)|
    && b.duplicate == |Positions(events, Duplicate, width, key)| && b.start == |Positions(events, Start, width, key)|
    && b.stop == |Positions(events, Stop, width, key)| && b.send == |Positions(events, Send, width, key)|
    && b.recv == |Positions(events, Recv, width, key)| && b.drop == |Positions(events, Drop, width, key)|
  }

  lemma {:induction false} PositionsSnoc(events: seq<Event>, e: Event, kind: Kind, width: int, key: Time)
    requires width > 0
    ensures |Positions(events + [e], kind, width, key)| ==
      |Positions(events, kind, width, key)| + if e.kind == kind && Bucket(e.at, width) == key then 1 else 0
  {
    hide Bucket;
    var before, now, n := Positions(events, kind, width, key), Positions(events + [e], kind, width, key), |events|;
    assert now == if e.kind == kind && Bucket(e.at, width) == key then before + {n} else before;
  }

  lemma {:induction false} TallyNumbers(events: seq<Event>, width: int, key: Time)
    requires width > 0
    ensures Numbers(Tally(events, In(width, key)), events, width, key)
  {
    hide Bucket, Positions;
    if events == [] {
      NoPositions(width, key);
    } else {
      var n := |events| - 1;
      TallyNumbers(events[..n], width, key);
      assert events == events[..n] + [events[n]];
      forall kind
        ensures |Positions(events, kind, width, key)| ==
          |Positions(events[..n], kind, width, key)| + if events[n].kind == kind && Bucket(events[n].at, width) == key then 1 else 0
      {
        PositionsSnoc(events[..n], events[n], kind, width, key);
      }
    }
  }

  lemma {:induction false} NoPositions(width: int, key: Time)
    requires width > 0
    ensures forall kind :: Positions([], kind, width, key) == {}
  {
  }

  lemma {:induction false} GroupedNumbers(bins: map<Time, Bin>, events: seq<Event>, width: int)
    requires width > 0 && Grouped(bins, events, width)
    ensures forall key :: key in bins ==> Numbers(bins[key], events, width, key)
    ensures forall key :: key in bins <==> exists i :: 0 <= i < |events| && Bucket(events[i].at, width) == key
  {
    hide Bucket, Tally, Numbers;
    forall key | key in bins
      ensures Numbers(bins[key], events, width, key)
    {
      TallyNumbers(events, width, key);
    }
    assert forall key :: Occupied(events, width, key) <==> exists i :: 0 <= i < |events| && Bucket(events[i].at, width) == key;
  }

  predicate PowerOfTwo(width: int) {
    width == 1 || (width > 1 && width % 2 == 0 && PowerOfTwo(width / 2))
  }

  /** The buckets of this width that hold an event. */
  ghost function BucketsOf(events: seq<Event>, width: int): set<Time>
    requires width > 0
  {
    set i | 0 <= i < |events| :: Bucket(events[i].at, width)
  }

  /** A width reached by doubling, and only because half of it needs too many bins. */
  ghost predicate Narrowest(events: seq<Event>, width: int) {
    width > 0 && PowerOfTwo(width) && (width > 1 ==> |BucketsOf(events, width / 2)| > BIN_LIMIT)
  }

  lemma {:induction false} NarrowestMore(events: seq<Event>, e: Event, width: int)
    requires Narrowest(events, width)
    ensures Narrowest(events + [e], width)
  {
    hide Bucket;
    if width > 1 {
      var before, now := BucketsOf(events, width / 2), BucketsOf(events + [e], width / 2);
      assert before <= now by {
        forall i | 0 <= i < |events|
          ensures Bucket(events[i].at, width / 2) in now
        {
          assert (events + [e])[i] == events[i];
        }
      }
      Contained(before, now);
    }
  }

  lemma {:induction false} NarrowestDoubled(bins: map<Time, Bin>, events: seq<Event>, width: int)
    requires Narrowest(events, width) && Grouped(bins, events, width) && |bins| > BIN_LIMIT
    ensures Narrowest(events, 2 * width)
  {
    hide Bucket, Tally;
    assert 2 * width / 2 == width && 2 * width % 2 == 0;
    forall key | key in bins.Keys
      ensures key in BucketsOf(events, width)
    {
      assert Occupied(events, width, key);
    }
    Contained(bins.Keys, BucketsOf(events, width));
    assert |bins| == |bins.Keys|;
  }

  /** Bin all events in one pass. Whatever the order and however far apart they are, before
      or after the epoch, the result is the direct grouping at the final width, which is the
      narrowest power of two with few enough bins. */
  method BinEvents(events: seq<Event>) returns (bins: map<Time, Bin>, width: int)
    ensures width > 0 && Grouped(bins, events, width) && |bins| <= BIN_LIMIT
    ensures Narrowest(events, width)
    ensures forall key :: key in bins ==> Numbers(bins[key], events, width, key)
    ensures forall key :: key in bins <==> exists i :: 0 <= i < |events| && Bucket(events[i].at, width) == key
  {
    hide Grouped, Bucket, Narrowest, Numbers;
    bins, width := map[], 1;
    NarrowestStart();
    assert events[..0] == [];
    NoEvents();
    for i := 0 to |events|
      invariant width > 0 && Grouped(bins, events[..i], width) && |bins| <= BIN_LIMIT && Narrowest(events[..i], width)
    {
      var e := events[i];
      var key := Bucket(e.at, width);
      GroupedSnoc(bins, events[..i], width, e);
      NarrowestMore(events[..i], e, width);
      bins := bins[key := Count(if key in bins then bins[key] else EMPTY, e.kind)];
      assert events[..i + 1] == events[..i] + [e];
      ghost var bound := Bound(events[..i + 1]);
      while |bins| > BIN_LIMIT
        invariant width > 0 && Grouped(bins, events[..i + 1], width) && Narrowest(events[..i + 1], width)
        decreases bound - width
      {
        if bound <= width {
          FewBins(bins, events[..i + 1], width, bound);
        }
        NarrowestDoubled(bins, events[..i + 1], width);
        bins := Widen(bins, width, events[..i + 1]);
        width := 2 * width;
      }
    }
    assert events[..|events|] == events;
    GroupedNumbers(bins, events, width);
  }

  lemma {:induction false} NarrowestStart()
    ensures Narrowest([], 1)
  {
  }

  lemma {:induction false} NoEvents()
    ensures Grouped(map[], [], 1)
  {
  }
}
