/** What the running Agent keeps in memory about the spool: one record per
    undelivered event and a few numbers per segment, and how these follow the
    directory's history. */
module SpoolMemory {
  import opened TelemetryCodec
  import opened Wrappers
  import opened Sequences
  import opened DeliveryQueue
  import opened SpoolRecovery
  import opened SpoolHistory

  datatype Segment = Segment(count: nat, ack: nat, size: nat, ackBytes: nat)

  datatype Record = Record(segment: Name, offset: nat, size: nat)

  /** The records of a segment's events from index `from` on. */
  function RecordsOf(n: Name, events: seq<Event>, from: nat): (r: seq<Record>)
    requires from <= |events|
    ensures |r| == |events| - from
  {
    seq(|events| - from, i requires 0 <= i < |events| - from =>
      Record(n, |Lines(events[..from + i])|, |events[from + i]|))
  }

  function SegmentRecords(n: Name, s: Shadow): seq<Record> {
    if s.Ack() <= |s.items| then RecordsOf(n, Events(s.items), s.Ack()) else []
  }

  function RecordMap(shadow: map<Name, Shadow>): map<Name, seq<Record>> {
    map n | n in shadow :: SegmentRecords(n, shadow[n])
  }

  function ItemMap(shadow: map<Name, Shadow>): map<Name, seq<Item>> {
    map n | n in shadow :: shadow[n].Pending()
  }

  /** The queue an observer of the spool sees: everything that will be delivered. */
  function Pending(h: History): seq<Item> {
    All(h.queue.live, ItemMap(h.shadow))
  }

  function Sizes(records: seq<Record>): nat {
    if records == [] then 0 else records[0].size + Sizes(records[1..])
  }

  lemma {:induction false} SizesAppend(a: seq<Record>, b: seq<Record>)
    ensures Sizes(a + b) == Sizes(a) + Sizes(b)
  {
    if a == [] {
      assert a + b == b;
    } else {
      assert (a + b)[1..] == a[1..] + b;
      SizesAppend(a[1..], b);
    }
  }

  datatype Memory = Memory(segments: map<Name, Segment>, records: seq<Record>, active: Option<Name>,
                           cleanup: Option<Name>, lastStamp: nat)

  function Summary(s: Shadow): Segment {
    Segment(|s.items|, s.Ack(), |Lines(Events(s.items))|, ACK_FRAME_BYTES * |s.acks|)
  }

  ghost predicate SegmentsOk(h: History, segments: map<Name, Segment>) {
    && (forall n :: n in h.queue.live ==> n in segments && n in h.shadow && h.shadow[n].Ack() < |h.shadow[n].items|)
    && (forall n :: n in segments && n in h.shadow ==> segments[n] == Summary(h.shadow[n]))
    && (forall n :: n in segments && n in h.shadow && n !in h.queue.live ==> h.shadow[n].Ack() == |h.shadow[n].items|)
  }

  ghost predicate ActiveOk(h: History, m: Memory) {
    && (forall n :: n in m.segments ==> n.stamp <= m.lastStamp)
    && (m.active.Some? ==> m.active.value in m.segments && m.active.value in h.shadow && Newest(h.queue, m.active.value))
    && (m.cleanup.Some? ==> m.cleanup.value !in h.queue.live && m.cleanup.value in m.segments)
    && (h.queue.doubt.Some? ==> h.queue.live != [] && h.queue.doubt.value == h.queue.live[0])
  }

  ghost predicate MemoryOk(h: History, m: Memory) {
    && SegmentsOk(h, m.segments)
    && ActiveOk(h, m)
    && m.records == All(h.queue.live, RecordMap(h.shadow))
  }

  // ---------- The queue and what was accepted ----------

  lemma {:induction false} ConfirmedPending(live: seq<Name>, h: History)
    requires Linked(h.shadow, h.queue) && forall n :: n in live ==> n in h.shadow
    ensures Confirmed(All(live, ItemMap(h.shadow))) == All(live, h.queue.waiting)
  {
    hide Confirmed;
    if live != [] {
      var rest := All(live[1..], ItemMap(h.shadow));
      ConfirmedPending(live[1..], h);
      ConfirmedAppend(At(ItemMap(h.shadow), live[0]), rest);
    } else {
      NothingConfirmed();
    }
  }

  /** What awaits delivery is exactly the accepted, unacknowledged events, with
      adopted events of unconfirmed batches in between. */
  lemma {:induction false} PendingIsAccepted(h: History)
    requires HistoryOk(h)
    ensures Confirmed(Pending(h)) == h.queue.accepted[h.queue.acked..]
  {
    ConfirmedPending(h.queue.live, h);
  }

  lemma {:induction false} NothingConfirmed()
    ensures Confirmed([]) == []
  {
  }

  lemma {:induction false} SegmentGenuine(n: Name, s: Shadow, failed: seq<seq<Event>>, owner: seq<Name>)
    requires Traced(n, s, failed, owner)
    ensures Genuine(s.Pending(), failed) && Owned(s.Pending(), owner, n)
  {
    hide Genuine, Named;
    if s.Ack() <= |s.items| {
      GenuineDrop(s.items, failed, owner, n, s.Ack());
    } else {
      NothingGenuine(failed);
    }
  }

  lemma {:induction false} PendingGenuine(live: seq<Name>, shadow: map<Name, Shadow>, failed: seq<seq<Event>>, owner: seq<Name>)
    requires Sorted(live) && forall n :: n in live ==> n in shadow && Traced(n, shadow[n], failed, owner)
    ensures Genuine(All(live, ItemMap(shadow)), failed) && OwnedBy(All(live, ItemMap(shadow)), owner, live)
    decreases |live|
  {
    hide Traced, Named, Genuine, Sorted, Shadow.Pending;
    if live == [] {
      NothingGenuine(failed);
    } else {
      var n, rest := live[0], live[1..];
      SortedTail(live);
      PendingGenuine(rest, shadow, failed, owner);
      SegmentGenuine(n, shadow[n], failed, owner);
      OwnersApart(shadow[n].Pending(), All(rest, ItemMap(shadow)), owner, n, rest);
      GenuineAppend(shadow[n].Pending(), All(rest, ItemMap(shadow)), failed);
    }
  }

  lemma {:induction false} PendingSpared(live: seq<Name>, shadow: map<Name, Shadow>, done: set<Origin>)
    requires forall n :: n in live ==> n in shadow && Spared(shadow[n], done)
    ensures Spares(All(live, ItemMap(shadow)), done)
  {
    hide Shadow.Pending;
    if live != [] {
      PendingSpared(live[1..], shadow, done);
      SparesAppend(shadow[live[0]].Pending(), All(live[1..], ItemMap(shadow)), done);
    }
  }

  lemma {:induction false} LiveTraced(disk: Disk, h: History)
    requires Invariant(disk, h)
    ensures Sorted(h.queue.live) && HistoryOk(h) && h.queue.acked + h.queue.covered <= |h.queue.accepted|
    ensures forall n :: n in h.queue.live ==> n in h.shadow && Traced(n, h.shadow[n], h.failed, h.owner) && Spared(h.shadow[n], h.done)
  {
    hide Traced, Spared, Shadow.Ok, Waiting, Covered, ExplainsLog, ExplainsJournal, GhostOk;
  }

  /** What awaits delivery accounts for the accepted events that are not acknowledged. */
  lemma {:induction false} PendingAccounts(disk: Disk, h: History)
    requires Invariant(disk, h)
    ensures Accounts(Pending(h), h.queue.accepted, h.failed, h.done, h.queue.acked)
    ensures h.queue.acked + h.queue.covered <= |h.queue.accepted|
  {
    hide Invariant, HistoryOk, Genuine, Traced, Sorted, Confirmed, Spared, Spares;
    LiveTraced(disk, h);
    PendingSpared(h.queue.live, h.shadow, h.done);
    PendingIsAccepted(h);
    PendingGenuine(h.queue.live, h.shadow, h.failed, h.owner);
  }

  // ---------- Steps ----------

  /** Memory follows the segments and the queue and nothing else. */
  lemma {:induction false} KeepSameView(h: History, g: History, m: Memory)
    requires MemoryOk(h, m) && g.shadow == h.shadow && g.queue == h.queue
    ensures MemoryOk(g, m) && Pending(g) == Pending(h)
  {
    hide Summary, RecordMap, ItemMap, Newest;
  }

  lemma {:induction false} MapsUpdated(shadow: map<Name, Shadow>, n: Name, s: Shadow)
    ensures RecordMap(shadow[n := s]) == RecordMap(shadow)[n := SegmentRecords(n, s)]
    ensures ItemMap(shadow[n := s]) == ItemMap(shadow)[n := s.Pending()]
    ensures At(RecordMap(shadow), n) == if n in shadow then SegmentRecords(n, shadow[n]) else []
    ensures At(ItemMap(shadow), n) == if n in shadow then shadow[n].Pending() else []
  {
    hide SegmentRecords, Shadow.Pending;
  }

  lemma {:induction false} MapsSame(shadow: map<Name, Shadow>, n: Name, s: Shadow)
    requires n in shadow && s.items == shadow[n].items && s.acks == shadow[n].acks
    ensures RecordMap(shadow[n := s]) == RecordMap(shadow)
    ensures ItemMap(shadow[n := s]) == ItemMap(shadow)
  {
    hide RecordsOf, Lines, Events;
    assert SegmentRecords(n, s) == SegmentRecords(n, shadow[n]) && s.Pending() == shadow[n].Pending();
    MapsUpdated(shadow, n, s);
    hide SegmentRecords, Shadow.Pending;
  }

  lemma {:induction false} SegmentsUnseen(h: History, g: History, segments: map<Name, Segment>, n: Name, s: Shadow)
    requires SegmentsOk(h, segments) && n in h.shadow
    requires g.shadow == h.shadow[n := s] && g.queue.live == h.queue.live
    requires s.items == h.shadow[n].items && s.acks == h.shadow[n].acks
    ensures SegmentsOk(g, segments)
  {
    hide Lines, Events;
    assert Summary(s) == Summary(h.shadow[n]);
    hide Summary;
  }

  /** A change of one segment's shadow that neither records nor items can see. */
  lemma {:induction false} KeepUnseen(h: History, g: History, m: Memory, n: Name, s: Shadow)
    requires MemoryOk(h, m) && n in h.shadow
    requires g.shadow == h.shadow[n := s] && g.queue.live == h.queue.live
    requires s.items == h.shadow[n].items && s.acks == h.shadow[n].acks
    requires g.queue.doubt == h.queue.doubt || (h.queue.live != [] && g.queue.doubt == Some(h.queue.live[0]))
    ensures MemoryOk(g, m) && Pending(g) == Pending(h)
  {
    hide RecordMap, ItemMap, SegmentsOk;
    MapsSame(h.shadow, n, s);
    SegmentsUnseen(h, g, m.segments, n, s);
    if h.queue.live != [] {
      SortedHead(g, m);
    }
  }

  lemma {:induction false} SortedHead(g: History, m: Memory)
    requires g.queue.live != []
    requires m.active.Some? ==> forall x :: x in g.queue.live ==> x == m.active.value || Less(x, m.active.value)
    ensures m.active.Some? ==> !Less(m.active.value, g.queue.live[0])
  {
    assert g.queue.live[0] in g.queue.live;
  }

  lemma {:induction false} UnknownRecords(h: History, n: Name, s: Shadow)
    requires n !in h.queue.live
    ensures All(h.queue.live, RecordMap(h.shadow[n := s])) == All(h.queue.live, RecordMap(h.shadow))
    ensures All(h.queue.live, ItemMap(h.shadow[n := s])) == All(h.queue.live, ItemMap(h.shadow))
  {
    hide SegmentRecords, Shadow.Pending;
    AllSame(h.queue.live, RecordMap(h.shadow), RecordMap(h.shadow[n := s]));
    AllSame(h.queue.live, ItemMap(h.shadow), ItemMap(h.shadow[n := s]));
  }

  /** A segment file the Agent does not know appears. */
  lemma {:induction false} KeepUnknown(h: History, g: History, m: Memory, n: Name, s: Shadow)
    requires MemoryOk(h, m) && n !in m.segments && n !in h.shadow && n !in h.queue.live
    requires g.queue.live == h.queue.live && g.queue.doubt == h.queue.doubt
    requires g.shadow == h.shadow[n := s]
    ensures MemoryOk(g, m) && Pending(g) == Pending(h)
  {
    hide Summary, RecordMap, ItemMap, All;
    UnknownRecords(h, n, s);
  }

  lemma {:induction false} ForgottenRecords(h: History, n: Name)
    requires n !in h.queue.live
    ensures All(h.queue.live, RecordMap(h.shadow - {n})) == All(h.queue.live, RecordMap(h.shadow))
    ensures All(h.queue.live, ItemMap(h.shadow - {n})) == All(h.queue.live, ItemMap(h.shadow))
  {
    hide SegmentRecords, Shadow.Pending;
    AllSame(h.queue.live, RecordMap(h.shadow), RecordMap(h.shadow - {n}));
    AllSame(h.queue.live, ItemMap(h.shadow), ItemMap(h.shadow - {n}));
  }

  /** A drained segment is removed. */
  lemma {:induction false} KeepForgotten(h: History, m: Memory, n: Name)
    requires MemoryOk(h, m) && n !in h.queue.live && m.active != Some(n)
    ensures MemoryOk(Removed(h, n), m) && Pending(Removed(h, n)) == Pending(h)
    ensures MemoryOk(Unlinked(h, n), m) && Pending(Unlinked(h, n)) == Pending(h)
  {
    hide Summary, RecordMap, ItemMap, All;
    ForgottenRecords(h, n);
  }

  lemma {:induction false} RecordsOfLonger(n: Name, e: seq<Event>, events: seq<Event>, from: nat)
    requires from <= |e|
    ensures RecordsOf(n, e + events, from) == RecordsOf(n, e, from) + RecordsOf(n, e + events, |e|)
  {
    forall i | 0 <= i < |e| - from
      ensures RecordsOf(n, e + events, from)[i] == RecordsOf(n, e, from)[i]
    {
      assert (e + events)[..from + i] == e[..from + i];
    }
  }

  lemma {:induction false} RecordsLonger(n: Name, s: Shadow, events: seq<Event>, source: Source)
    requires s.Ack() <= |s.items| && Storable(Events(s.items)) && Storable(events)
    ensures SegmentRecords(n, Longer(s, events, source)) ==
      SegmentRecords(n, s) + RecordsOf(n, Events(s.items) + events, |s.items|)
    ensures Longer(s, events, source).Pending() == s.Pending() + Tag(events, source)
  {
    hide RecordsOf, Lines, Storable, Tag;
    LongerEvents(s, events, source);
    RecordsOfLonger(n, Events(s.items), events, s.Ack());
    DropHead(s.items, Tag(events, source), s.Ack());
  }

  /** Offsets in the segment are offsets in the batch plus the segment's old size. */
  lemma {:induction false} RecordsShifted(n: Name, e: seq<Event>, events: seq<Event>, i: nat)
    requires i < |events|
    ensures RecordsOf(n, e + events, |e|)[i] == Record(n, |Lines(e)| + |Lines(events[..i])|, |events[i]|)
  {
    assert (e + events)[..|e| + i] == e + events[..i];
    LinesAppend(e, events[..i]);
  }

  /** A batch is confirmed in the newest segment, known or new. */
  lemma {:induction false} SegmentsConfirmed(h: History, g: History, segments: map<Name, Segment>, n: Name)
    requires QueueOk(h.queue) && SegmentsOk(h, segments) && Newest(h.queue, n) && n in g.shadow
    requires g.shadow == h.shadow[n := g.shadow[n]] && g.queue.live == Extend(h.queue.live, n)
    requires g.shadow[n].Ack() < |g.shadow[n].items|
    ensures SegmentsOk(g, segments[n := Summary(g.shadow[n])])
  {
    hide Linked, QueueOk, Summary;
    ExtendedLive(h.queue, n);
    assert forall x :: x in g.shadow <==> x in h.shadow || x == n;
  }

  lemma {:induction false} ActiveConfirmed(h: History, g: History, m: Memory, k: Memory, n: Name)
    requires QueueOk(h.queue) && ActiveOk(h, m) && Newest(h.queue, n) && n in g.shadow
    requires g.queue.live == Extend(h.queue.live, n) && g.queue.doubt == h.queue.doubt
    requires k.segments.Keys == m.segments.Keys + {n} && k.active == Some(n) && k.cleanup == m.cleanup
    requires m.lastStamp <= k.lastStamp && n.stamp <= k.lastStamp && m.cleanup != Some(n)
    ensures ActiveOk(g, k)
  {
    hide Linked, QueueOk;
    ExtendedLive(h.queue, n);
  }

  lemma {:induction false} RecordsConfirmed(h: History, g: History, n: Name, more: seq<Record>, items: seq<Item>)
    requires QueueOk(h.queue) && Newest(h.queue, n) && n in g.shadow
    requires g.shadow == h.shadow[n := g.shadow[n]] && g.queue.live == Extend(h.queue.live, n)
    requires SegmentRecords(n, g.shadow[n]) == At(RecordMap(h.shadow), n) + more
    requires g.shadow[n].Pending() == At(ItemMap(h.shadow), n) + items
    requires n !in h.queue.live ==> At(RecordMap(h.shadow), n) == [] && At(ItemMap(h.shadow), n) == []
    ensures All(g.queue.live, RecordMap(g.shadow)) == All(h.queue.live, RecordMap(h.shadow)) + more
    ensures Pending(g) == Pending(h) + items
  {
    hide QueueOk, Newest, Extend, All, SegmentRecords, Shadow.Pending, RecordMap, ItemMap;
    MapsUpdated(h.shadow, n, g.shadow[n]);
    ExtendAll(h.queue, n, RecordMap(h.shadow), RecordMap(g.shadow), more);
    ExtendAll(h.queue, n, ItemMap(h.shadow), ItemMap(g.shadow), items);
  }

  /** Memory after `more` records of the newest segment n. */
  function Grown(m: Memory, n: Name, segment: Segment, more: seq<Record>, stamp: nat): Memory {
    m.(segments := m.segments[n := segment], records := m.records + more, active := Some(n), lastStamp := stamp)
  }

  lemma {:induction false} MemoryGrown(h: History, g: History, m: Memory, n: Name, more: seq<Record>, items: seq<Item>, stamp: nat)
    requires QueueOk(h.queue) && MemoryOk(h, m) && Newest(h.queue, n) && n in g.shadow
    requires g.shadow == h.shadow[n := g.shadow[n]] && g.queue.live == Extend(h.queue.live, n) && g.queue.doubt == h.queue.doubt
    requires g.shadow[n].Ack() < |g.shadow[n].items|
    requires m.lastStamp <= stamp && n.stamp <= stamp && m.cleanup != Some(n)
    requires SegmentRecords(n, g.shadow[n]) == At(RecordMap(h.shadow), n) + more
    requires g.shadow[n].Pending() == At(ItemMap(h.shadow), n) + items
    requires n !in h.queue.live ==> At(RecordMap(h.shadow), n) == [] && At(ItemMap(h.shadow), n) == []
    ensures MemoryOk(g, Grown(m, n, Summary(g.shadow[n]), more, stamp))
    ensures Pending(g) == Pending(h) + items
  {
    hide QueueOk, Newest, SegmentsOk, ActiveOk, Summary, RecordMap, ItemMap, SegmentRecords, Shadow.Pending, Extend;
    SegmentsConfirmed(h, g, m.segments, n);
    ActiveConfirmed(h, g, m, Grown(m, n, Summary(g.shadow[n]), more, stamp), n);
    RecordsConfirmed(h, g, n, more, items);
  }

  /** A batch is appended to the active segment. */
  lemma {:induction false} KeepMemoryAppended(h: History, m: Memory, n: Name, events: seq<Event>)
    requires HistoryOk(h) && MemoryOk(h, m) && m.active == Some(n) && n in h.shadow && events != []
    requires m.cleanup != Some(n) && Storable(events)
    ensures MemoryOk(Appended(h, n, events),
                     Grown(m, n, Summary(Appended(h, n, events).shadow[n]),
                           RecordsOf(n, Events(h.shadow[n].items) + events, |h.shadow[n].items|), m.lastStamp))
    ensures Pending(Appended(h, n, events)) == Pending(h) + Tag(events, NewSource(h, true))
  {
    var s, t := h.shadow[n], Longer(h.shadow[n], events, NewSource(h, true));
    ActiveFacts(h, m, n);
    hide MemoryOk, HistoryOk, Grown, Pending, RecordMap, ItemMap, RecordsOf, Events, Tag, Storable, Shadow.Ok, Summary, SegmentRecords, Shadow.Pending;
    RecordsLonger(n, s, events, NewSource(h, true));
    MapsUpdated(h.shadow, n, t);
    MemoryGrown(h, Appended(h, n, events), m, n, RecordsOf(n, Events(s.items) + events, |s.items|), Tag(events, NewSource(h, true)), m.lastStamp);
  }

  lemma {:induction false} ActiveFacts(h: History, m: Memory, n: Name)
    requires HistoryOk(h) && MemoryOk(h, m) && m.active == Some(n)
    ensures n in h.shadow && h.shadow[n].Ok() && n.stamp <= m.lastStamp && Newest(h.queue, n)
    ensures h.shadow[n].Ack() <= |h.shadow[n].items| && Storable(Events(h.shadow[n].items))
    ensures QueueOk(h.queue)
    ensures n !in h.queue.live ==> h.shadow[n].Ack() == |h.shadow[n].items|
  {
    hide QueueOk, Newest, Summary, RecordMap;
  }

  lemma {:induction false} ExtendedLive(q: Queue<Item>, n: Name)
    requires QueueOk(q) && Newest(q, n)
    ensures forall x :: x in Extend(q.live, n) <==> x in q.live || x == n
    ensures q.live != [] ==> Extend(q.live, n)[0] == q.live[0]
  {
    hide QueueOk, Sorted;
    var front := ExtendOk(q, n);
    assert forall x :: x in front + [n] <==> x in front || x == n;
  }

  /** A batch starts a new segment. */
  lemma {:induction false} KeepMemoryCreated(h: History, m: Memory, n: Name, events: seq<Event>)
    requires HistoryOk(h) && MemoryOk(h, m) && n !in h.shadow && events != [] && Storable(events)
    requires m.lastStamp < n.stamp && Newest(h.queue, n)
    ensures MemoryOk(Created(h, n, events, true),
                     Grown(m, n, Summary(Created(h, n, events, true).shadow[n]), RecordsOf(n, events, 0), n.stamp))
    ensures Pending(Created(h, n, events, true)) == Pending(h) + Tag(events, NewSource(h, true))
  {
    hide MemoryOk, HistoryOk, QueueOk, Newest, Extend, Grown, Pending, RecordMap, ItemMap, RecordsOf, Tag, Storable, Summary, SegmentRecords, Shadow.Pending;
    var g := Created(h, n, events, true);
    NewName(h, m, n);
    NewShadow(n, events, NewSource(h, true));
    MapsUpdated(h.shadow, n, g.shadow[n]);
    assert [] + RecordsOf(n, events, 0) == RecordsOf(n, events, 0) && [] + Tag(events, NewSource(h, true)) == Tag(events, NewSource(h, true));
    MemoryGrown(h, g, m, n, RecordsOf(n, events, 0), Tag(events, NewSource(h, true)), n.stamp);
  }

  lemma {:induction false} NewName(h: History, m: Memory, n: Name)
    requires HistoryOk(h) && MemoryOk(h, m) && m.lastStamp < n.stamp && n !in h.shadow
    ensures QueueOk(h.queue) && m.cleanup != Some(n) && n !in m.segments && n !in h.queue.live
  {
    hide QueueOk, Newest, RecordMap, Summary;
  }

  lemma {:induction false} NewShadow(n: Name, events: seq<Event>, source: Source)
    requires events != []
    ensures var s := Single(events, source);
            && SegmentRecords(n, s) == RecordsOf(n, events, 0) && s.Pending() == Tag(events, source)
            && s.Ack() == 0 < |s.items|
  {
    ConfirmedTag(events, source);
  }

  /** The name of a new segment is beyond every live one. */
  lemma {:induction false} NewIsNewest(h: History, m: Memory, n: Name)
    requires HistoryOk(h) && MemoryOk(h, m) && m.lastStamp < n.stamp
    ensures Newest(h.queue, n)
  {
    hide Linked, RecordMap, Summary;
    assert forall x :: x in h.queue.live ==> x in m.segments && Less(x, n);
    assert h.queue.live != [] ==> h.queue.live[0] in h.queue.live;
  }

  // ---------- Acknowledgement ----------

  /** The history after `next` events of the first live segment are acknowledged. */
  function Acknowledged(h: History, next: nat): History
    requires h.queue.live != [] && h.queue.live[0] in h.shadow
    requires Tried(h, next).queue.covered <= |At(h.queue.waiting, h.queue.live[0])|
  {
    var g := Settled(Tried(h, next), h.queue.live[0]);
    if next == |h.shadow[h.queue.live[0]].items| then g.(queue := g.queue.(live := g.queue.live[1..])) else g
  }

  lemma {:induction false} RecordsAfter(n: Name, s: Shadow, t: Shadow)
    requires s.Ack() <= t.Ack() <= |s.items| && t.items == s.items
    ensures t.Ack() - s.Ack() <= |SegmentRecords(n, s)| == |s.Pending()|
    ensures SegmentRecords(n, t) == SegmentRecords(n, s)[t.Ack() - s.Ack()..]
    ensures t.Pending() == s.Pending()[t.Ack() - s.Ack()..]
    ensures t.Ack() == |t.items| ==> SegmentRecords(n, t) == [] && t.Pending() == []
  {
  }

  lemma {:induction false} SettledShadow(h: History, g: History, n: Name, next: nat)
    requires h.queue.live != [] && n == h.queue.live[0] && n in h.shadow
    requires Tried(h, next).queue.covered <= |At(h.queue.waiting, n)|
    requires g == Acknowledged(h, next)
    ensures n in g.shadow && g.shadow == h.shadow[n := g.shadow[n]]
    ensures g.shadow[n].Ack() == next && g.shadow[n].items == h.shadow[n].items && g.shadow[n].acks == h.shadow[n].acks + [next]
    ensures g.queue.doubt == None
    ensures g.queue.live == if next == |h.shadow[n].items| then h.queue.live[1..] else h.queue.live
  {
  }

  lemma {:induction false} RecordsAcknowledged(live: seq<Name>, rest: seq<Name>, shadow: map<Name, Shadow>, n: Name, t: Shadow, k: nat)
    requires Sorted(live) && live != [] && n == live[0] && n in shadow
    requires t.items == shadow[n].items && t.Ack() == shadow[n].Ack() + k <= |t.items|
    requires rest == if t.Ack() == |t.items| then live[1..] else live
    ensures k <= |All(live, RecordMap(shadow))| && k <= |All(live, ItemMap(shadow))|
    ensures All(rest, RecordMap(shadow[n := t])) == All(live, RecordMap(shadow))[k..]
    ensures All(rest, ItemMap(shadow[n := t])) == All(live, ItemMap(shadow))[k..]
  {
    hide SegmentRecords, RecordMap, ItemMap, Shadow.Pending, All;
    RecordsAfter(n, shadow[n], t);
    MapsUpdated(shadow, n, t);
    var drained := t.Ack() == |t.items|;
    HeadShortened(live, rest, RecordMap(shadow), SegmentRecords(n, t), k, drained);
    HeadShortened(live, rest, ItemMap(shadow), t.Pending(), k, drained);
  }

  lemma {:induction false} SegmentsAcknowledged(h: History, g: History, segments: map<Name, Segment>, n: Name, t: Shadow)
    requires Sorted(h.queue.live) && SegmentsOk(h, segments) && h.queue.live != [] && n == h.queue.live[0]
    requires g.shadow == h.shadow[n := t] && t.Ack() <= |t.items|
    requires g.queue.live == if t.Ack() == |t.items| then h.queue.live[1..] else h.queue.live
    ensures SegmentsOk(g, segments[n := Summary(t)])
    ensures forall x :: x in g.queue.live ==> x in h.queue.live
  {
    hide Summary;
    SortedTail(h.queue.live);
  }

  lemma {:induction false} ActiveAcknowledged(h: History, g: History, m: Memory, k: Memory)
    requires ActiveOk(h, m)
    requires k.segments.Keys == m.segments.Keys && k.active == m.active && k.cleanup == m.cleanup && k.lastStamp == m.lastStamp
    requires h.shadow.Keys <= g.shadow.Keys && g.queue.doubt == None
    requires forall x :: x in g.queue.live ==> x in h.queue.live
    ensures ActiveOk(g, k)
  {
  }

  /** Memory after the first k records, all of segment n, are acknowledged. */
  function Advanced(m: Memory, n: Name, segment: Segment, k: nat): Memory
    requires k <= |m.records|
  {
    m.(segments := m.segments[n := segment], records := m.records[k..])
  }

  lemma {:induction false} MemoryAdvanced(h: History, g: History, m: Memory, n: Name, t: Shadow, k: nat)
    requires Sorted(h.queue.live) && MemoryOk(h, m) && h.queue.live != [] && n == h.queue.live[0] && n in h.shadow
    requires t.items == h.shadow[n].items && t.Ack() == h.shadow[n].Ack() + k <= |t.items|
    requires g.shadow == h.shadow[n := t] && g.queue.doubt == None
    requires g.queue.live == if t.Ack() == |t.items| then h.queue.live[1..] else h.queue.live
    ensures k <= |m.records| && k <= |Pending(h)|
    ensures MemoryOk(g, Advanced(m, n, Summary(t), k)) && Pending(g) == Pending(h)[k..]
  {
    hide Sorted, RecordMap, ItemMap, Shadow.Pending, Summary;
    assert n in m.segments;
    hide SegmentsOk, ActiveOk;
    RecordsAcknowledged(h.queue.live, g.queue.live, h.shadow, n, t, k);
    SegmentsAcknowledged(h, g, m.segments, n, t);
    ActiveAcknowledged(h, g, m, Advanced(m, n, Summary(t), k));
  }

  lemma {:induction false} HistorySorted(h: History)
    requires HistoryOk(h)
    ensures Sorted(h.queue.live)
  {
  }

  lemma {:induction false} KeepMemoryAcknowledged(h: History, g: History, m: Memory, n: Name, next: nat, k: nat)
    requires HistoryOk(h) && MemoryOk(h, m) && h.queue.live != [] && n == h.queue.live[0] && n in h.shadow
    requires h.shadow[n].Ack() < next <= |h.shadow[n].items| && next == h.shadow[n].Ack() + k
    requires Tried(h, next).queue.covered <= |At(h.queue.waiting, n)|
    requires g == Acknowledged(h, next)
    ensures k <= |m.records| && k <= |Pending(h)| && n in g.shadow
    ensures MemoryOk(g, Advanced(m, n, Summary(g.shadow[n]), k)) && Pending(g) == Pending(h)[k..]
  {
    hide MemoryOk, Pending, Summary, Advanced, Acknowledged, Tried;
    HistorySorted(h);
    hide HistoryOk, Sorted;
    SettledShadow(h, g, n, next);
    MemoryAdvanced(h, g, m, n, g.shadow[n], k);
  }

  // ---------- The first record ----------

  lemma {:induction false} AsManyRecords(live: seq<Name>, shadow: map<Name, Shadow>)
    requires forall n :: n in live ==> n in shadow && shadow[n].Ack() <= |shadow[n].items|
    ensures |All(live, RecordMap(shadow))| == |All(live, ItemMap(shadow))|
  {
    if live != [] {
      AsManyRecords(live[1..], shadow);
    }
  }

  lemma {:induction false} RecordCount(h: History, m: Memory)
    requires MemoryOk(h, m)
    ensures |m.records| == |Pending(h)|
  {
    hide Summary, RecordMap, ItemMap;
    AsManyRecords(h.queue.live, h.shadow);
  }

  /** The first record belongs to the first live segment, whose summary is exact. */
  lemma {:induction false} FirstRecord(h: History, m: Memory) returns (n: Name)
    requires MemoryOk(h, m) && m.records != []
    ensures h.queue.live != [] && n == h.queue.live[0] == m.records[0].segment
    ensures n in h.shadow && n in m.segments && m.segments[n] == Summary(h.shadow[n])
    ensures h.shadow[n].Ack() < |h.shadow[n].items|
    ensures h.queue.doubt == None || h.queue.doubt == Some(n)
  {
    hide Summary;
    n := h.queue.live[0];
    assert n in h.queue.live;
    assert All(h.queue.live, RecordMap(h.shadow)) == SegmentRecords(n, h.shadow[n]) + All(h.queue.live[1..], RecordMap(h.shadow));
  }

  /** The first k waiting items are the next k items of the first live segment. */
  lemma {:induction false} FirstItems(h: History, n: Name, k: nat)
    requires h.queue.live != [] && n == h.queue.live[0] && n in h.shadow
    requires h.shadow[n].Ack() + k <= |h.shadow[n].items|
    ensures k <= |Pending(h)|
    ensures Pending(h)[..k] == h.shadow[n].items[h.shadow[n].Ack()..h.shadow[n].Ack() + k]
  {
    assert Pending(h) == h.shadow[n].Pending() + All(h.queue.live[1..], ItemMap(h.shadow));
  }

  // ---------- Reading events back ----------

  lemma {:induction false} ReadBack(log: Bytes, n: Name, s: Shadow, i: nat)
    requires s.Ok() && ExplainsLog(log, s) && i < |s.Pending()|
    ensures i < |SegmentRecords(n, s)|
    ensures var r := SegmentRecords(n, s)[i];
            && r.segment == n && r.offset + r.size <= |log| && r.size == |s.Pending()[i].event|
            && log[r.offset..r.offset + r.size] == s.Pending()[i].event && WellFormed(s.Pending()[i].event)
  {
    var events := Events(s.items);
    LinesSlice(events, s.Ack() + i);
    var from := |Lines(events[..s.Ack() + i])|;
    var size := |Lines(events)|;
    assert log[..size][from..from + |events[s.Ack() + i]|] == log[from..from + |events[s.Ack() + i]|];
  }

  /** Record i of the queue locates the bytes of event i of the queue. */
  ghost predicate Locates(disk: Disk, r: Record, event: Event) {
    && r.segment in disk.logs && r.offset + r.size <= |disk.logs[r.segment]| && r.size == |event|
    && disk.logs[r.segment][r.offset..r.offset + r.size] == event && WellFormed(event)
  }

  lemma {:induction false} ReadBackAll(disk: Disk, shadow: map<Name, Shadow>, live: seq<Name>, i: nat)
    requires DiskOk(disk, shadow) && forall n :: n in live ==> n in shadow && shadow[n].Ok()
    requires i < |All(live, ItemMap(shadow))|
    ensures i < |All(live, RecordMap(shadow))|
    ensures Locates(disk, All(live, RecordMap(shadow))[i], All(live, ItemMap(shadow))[i].event)
    decreases |live|
  {
    hide ExplainsLog, ExplainsJournal, Shadow.Ok, SegmentRecords, Shadow.Pending, WellFormed;
    var n, rest := live[0], live[1..];
    var items, more := shadow[n].Pending(), All(rest, ItemMap(shadow));
    SameLength(n, shadow[n]);
    assert All(live, ItemMap(shadow)) == items + more;
    assert All(live, RecordMap(shadow)) == SegmentRecords(n, shadow[n]) + All(rest, RecordMap(shadow));
    if i < |items| {
      ReadBack(disk.logs[n], n, shadow[n], i);
    } else {
      ReadBackAll(disk, shadow, rest, i - |items|);
    }
  }

  lemma {:induction false} SameLength(n: Name, s: Shadow)
    requires s.Ok()
    ensures |SegmentRecords(n, s)| == |s.Pending()|
  {
  }

  lemma {:induction false} RecordLocates(disk: Disk, h: History, m: Memory, i: nat)
    requires Invariant(disk, h) && MemoryOk(h, m) && i < |Pending(h)|
    ensures i < |m.records| && Locates(disk, m.records[i], Pending(h)[i].event)
  {
    assert forall n :: n in h.queue.live ==> n in h.shadow && h.shadow[n].Ok();
    hide Linked, QueueOk, DiskOk, SegmentsOk, ActiveOk, Locates, RecordMap, ItemMap;
    ReadBackAll(disk, h.shadow, h.queue.live, i);
  }

  lemma {:induction false} Reach(items: seq<Item>, a: nat, k: nat)
    requires a + k <= |items|
    ensures |Confirmed(items[..a + k])| == |Confirmed(items[..a])| + |Confirmed(items[a..][..k])|
    ensures |Confirmed(items[..a])| <= |Confirmed(items[..a + k])| <= |Confirmed(items)|
  {
    hide Confirmed;
    assert items[..a + k] == items[..a] + items[a..][..k];
    ConfirmedAppend(items[..a], items[a..][..k]);
    ConfirmedDrop(items, a + k);
  }

  // ---------- Placing a batch ----------

  /** The records of a batch once it is known where the batch starts. */
  function Rebase(batch: seq<Record>, n: Name, base: nat): seq<Record> {
    seq(|batch|, i requires 0 <= i < |batch| => Record(n, base + batch[i].offset, batch[i].size))
  }

  lemma {:induction false} RebasePlaces(x: Name, n: Name, e: seq<Event>, events: seq<Event>)
    ensures Rebase(RecordsOf(x, events, 0), n, |Lines(e)|) == RecordsOf(n, e + events, |e|)
    ensures Sizes(Rebase(RecordsOf(x, events, 0), n, |Lines(e)|)) == Sizes(RecordsOf(x, events, 0))
  {
    var batch := RecordsOf(x, events, 0);
    forall i | 0 <= i < |events|
      ensures Rebase(batch, n, |Lines(e)|)[i] == RecordsOf(n, e + events, |e|)[i]
    {
      RecordsShifted(n, e, events, i);
      assert events[..0 + i] == events[..i];
    }
    RebaseSizes(batch, n, |Lines(e)|);
  }

  lemma {:induction false} RebaseSizes(batch: seq<Record>, n: Name, base: nat)
    ensures Sizes(Rebase(batch, n, base)) == Sizes(batch)
  {
    if batch != [] {
      RebaseSizes(batch[1..], n, base);
      assert Rebase(batch, n, base)[1..] == Rebase(batch[1..], n, base);
    }
  }
}
