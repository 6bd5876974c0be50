/** The Agent's telemetry spool: a durable first-in first-out queue of events over
    append-only segments. Every method says what happens to the queue, and that
    every disk image it passes through recovers to it. */
module Spool {
  import opened TelemetryCodec
  import opened Wrappers
  import opened Sequences
  import opened DeliveryQueue
  import opened SpoolRecovery
  import opened SpoolHistory
  import opened SpoolStorage
  import opened SpoolMemory
  import opened RequestBody

  const ROTATE_BYTES: nat := 4194304
  const WINDOW_BYTES: nat := 1048576
  const WINDOW_EVENTS: nat := 5000

  // ---------- Windows ----------

  datatype Window = Window(data: Bytes, count: nat) | Empty | TooLarge | Unreadable

  /** The body of these events and the separate event and byte limits are respected. */
  ghost predicate Admits(header: nat, events: seq<Event>, count: nat)
    requires 0 < count <= |events|
  {
    && count <= WINDOW_EVENTS
    && (count > 1 ==> Total(events[..count]) <= WINDOW_BYTES)
    && header + Total(events[..count]) + (count - 1) + 2 <= MAX_EVENT_BATCH_BYTES
  }

  /** A prefix within the limits that one more event would break. */
  ghost predicate IsWindow(header: nat, events: seq<Event>, count: nat)
    requires 0 < count <= |events|
  {
    Admits(header, events, count) && (count < |events| ==> !Admits(header, events, count + 1))
  }

  lemma {:induction false} WindowFits(header: nat, events: seq<Event>, count: nat, bytes: Bytes)
    requires 0 < count <= |events| && |bytes| == header && IsWindow(header, events, count)
    ensures |Body(bytes, events[..count])| <= MAX_EVENT_BATCH_BYTES
  {
    JoinedLength(events[..count]);
  }

  /** What recovery has to live up to while this batch may have left events behind. */
  function Offered(h: History, events: seq<Event>): Ledger {
    LedgerOf(h).(failed := h.failed + [events])
  }

  /** What it has to live up to while an acknowledgement of these items may be written. */
  function Reaching(h: History, items: seq<Item>): Ledger {
    var reach := h.queue.acked + |Confirmed(items)|;
    LedgerOf(h).(reach := if reach > LedgerOf(h).reach then reach else LedgerOf(h).reach)
  }

  class TelemetrySpool {
    const dir: SpoolDirectory
    var segments: map<Name, Segment>
    var records: seq<Record>
    var bytes: int
    var lastStamp: nat
    var cleanup: Option<Name>
    var active: Option<Name>

    ghost function State(): Memory
      reads this
    {
      Memory(segments, records, active, cleanup, lastStamp)
    }

    ghost predicate Valid()
      reads this, dir
    {
      && dir.Valid()
      && MemoryOk(dir.history, State())
      && bytes == Sizes(records)
      && (cleanup.Some? ==> cleanup != active)
    }

    /** Everything that awaits delivery, in order. */
    ghost function Contents(): seq<Item>
      reads dir
    {
      Pending(dir.history)
    }

    constructor (dir: SpoolDirectory)
      ensures this.dir == dir && State() == Memory(map[], [], None, None, 0) && bytes == 0
    {
      this.dir := dir;
      segments, records, bytes, lastStamp, cleanup, active := map[], [], 0, 0, None, None;
    }

    /** One encoded batch: its bytes and the place of each event in them. */
    static method EncodeBatch(n: Name, events: seq<Event>) returns (ok: bool, data: Bytes, batch: seq<Record>, size: nat)
      requires forall i :: 0 <= i < |events| ==> WellFormed(events[i])
      ensures ok <==> forall i :: 0 <= i < |events| ==> |events[i]| <= MAX_EVENT_BATCH_BYTES
      ensures ok ==> Storable(events) && data == Lines(events) && batch == RecordsOf(n, events, 0) && size == Sizes(batch)
    {
      data, batch, size, ok := [], [], 0, true;
      var i := 0;
      assert events[..0] == [];
      while i < |events|
        invariant i <= |events| && |batch| == i
        invariant forall j :: 0 <= j < i ==> |events[j]| <= MAX_EVENT_BATCH_BYTES
        invariant data == Lines(events[..i])
        invariant forall j :: 0 <= j < i ==> batch[j] == Record(n, |Lines(events[..j])|, |events[j]|)
        invariant size == Sizes(batch)
      {
        if |events[i]| > MAX_EVENT_BATCH_BYTES {
          ok := false;
          return;
        }
        var record := Record(n, |data|, |events[i]|);
        SizesAppend(batch, [record]);
        LinesSlice(events, i);
        LinesAppend(events[..i], [events[i]]);
        assert events[..i + 1] == events[..i] + [events[i]];
        assert Lines([events[i]]) == events[i] + [NEWLINE];
        Associate(data, events[i], [NEWLINE]);
        batch := batch + [record];
        data := data + events[i] + [NEWLINE];
        size := size + |events[i]|;
        i := i + 1;
      }
      assert events[..i] == events;
    }

    /** Delete a drained segment, then its journal. */
    method RemoveSegment(n: Name) returns (ok: bool)
      requires Valid() && n !in dir.history.queue.live && active != Some(n)
      modifies dir
      ensures Valid() && Contents() == old(Contents()) && Kept() && Safe(old(LedgerOf(dir.history))) && NamesKept()
      ensures dir.history.queue.live == old(dir.history.queue.live)
      ensures ok ==> dir.logs == old(dir.logs) - {n} && dir.acks == old(dir.acks) - {n} && dir.gone == map[]
      ensures ok <==> dir.faults == old(dir.faults)
    {
      hide Invariant, CrashSafe, Pending, MemoryOk, SafeImages;
      DoubtIsLive(dir.history, State(), n);
      KeepForgotten(dir.history, State(), n);
      RemovedStanding(dir.history, n);
      ok := dir.DeleteSegment(n);
    }

    /** The random part of a new segment name has never been used in this directory. */
    predicate FreshTag(tag: nat)
      reads dir
    {
      forall n :: n in dir.logs.Keys + dir.acks.Keys + dir.gone.Keys ==> n.tag != tag
    }

    twostate predicate NamesKept()
      reads dir
    {
      dir.logs.Keys <= old(dir.logs.Keys) && dir.acks.Keys <= old(dir.acks.Keys) && dir.gone.Keys <= old(dir.gone.Keys + dir.logs.Keys)
    }

    /** Every disk image since then lives up to this ledger. */
    twostate predicate Safe(new g: Ledger)
      reads dir
    {
      old(dir.images) <= dir.images && old(dir.faults) <= dir.faults && SafeImages(dir.images, |old(dir.images)|, g)
    }

    twostate predicate Kept()
      reads dir
    {
      LedgerOf(dir.history) == old(LedgerOf(dir.history)) && StandingOf(dir.history) == old(StandingOf(dir.history))
    }

    /** These events are accepted behind all others. */
    twostate predicate Accepts(new events: seq<Event>)
      reads dir
    {
      && LedgerOf(dir.history) == old(LedgerOf(dir.history)).(accepted := old(dir.history.queue.accepted) + Tag(events, old(NewSource(dir.history, true))))
      && StandingOf(dir.history) == old(StandingOf(dir.history))
    }

    /** These events are a failed batch. */
    twostate predicate Refuses(new events: seq<Event>)
      reads dir
    {
      LedgerOf(dir.history) == Offered(old(dir.history), events) && StandingOf(dir.history) == old(StandingOf(dir.history))
    }

    /** Exactly one of: the events are accepted behind everything else, or they are
        recorded as a failed batch and the queue is as before. */
    twostate predicate Stores(new events: seq<Event>, ok: bool)
      reads dir
    {
      && (ok ==> Accepts(events) && Contents() == old(Contents()) + Tag(events, old(NewSource(dir.history, true))))
      && (!ok ==> Refuses(events) && Contents() == old(Contents()))
    }

    /** A new active segment, named after every earlier one, holds just these bytes. */
    twostate predicate Begins(size: nat, now: nat, tag: nat)
      reads this
    {
      && active.Some? && active.value.tag == tag && SegmentSize(active.value) == size
      && old(lastStamp) < active.value.stamp == lastStamp && now <= lastStamp
      && (lastStamp == now || lastStamp == old(lastStamp) + 1)
    }

    /** The active segment has grown by this many bytes. */
    twostate predicate Grows(size: nat)
      reads this
    {
      active.Some? && active == old(active) && lastStamp == old(lastStamp) && SegmentSize(active.value) == old(SegmentSize(active.value)) + size
    }

    /** Store a batch behind everything else. Success means every event is durable; failure
        means that the batch is too large or that storage failed, and none of its events
        counts as accepted. */
    method Append(events: seq<Event>, now: nat, tag: nat) returns (ok: bool)
      requires Valid() && FreshTag(tag)
      requires forall i :: 0 <= i < |events| ==> WellFormed(events[i])
      modifies this, dir
      ensures Valid() && Safe(Offered(old(dir.history), events)) && Stores(events, ok)
      ensures ok ==> Storable(events) && |Lines(events)| <= SEGMENT_LIMIT && dir.faults == old(dir.faults)
      ensures !ok ==> !Storable(events) || |Lines(events)| > SEGMENT_LIMIT || dir.faults > old(dir.faults)
      ensures ok && events != [] ==>
        if old(active).Some? && old(SegmentSize(active.value)) + |Lines(events)| <= ROTATE_BYTES
        then Grows(|Lines(events)|) else Begins(|Lines(events)|, now, tag)
    {
      hide Invariant, CrashSafe, Pending, MemoryOk, Lines, RecordsOf, Sizes, SafeImages;
      ghost var g := Offered(dir.history, events);
      NoSafeImages(dir.images, g);
      if events == [] {
        NothingStored(dir.history);
        return true;
      }
      var encoded, data, batch, size := EncodeBatch(Name(0, 0), events);
      if !encoded || |data| > SEGMENT_LIMIT {
        Refuse(events);
        return false;
      }
      if active.Some? && SegmentSize(active.value) + |data| > ROTATE_BYTES {
        ok := Rotate();
        SafeImagesWider(dir.images, |old(dir.images)|, old(LedgerOf(dir.history)), g);
        if !ok {
          Refuse(events);
          return;
        }
      }
      ghost var images := dir.images;
      if active.None? {
        ok := StartSegment(events, data, batch, size, now, tag);
      } else {
        ok := ExtendSegment(events, data, batch, size);
      }
      SafeImagesJoin(images, dir.images, |old(dir.images)|, g);
    }

    /** Record a batch that never reached the disk. */
    ghost method Refuse(events: seq<Event>)
      requires Valid()
      modifies dir`history
      ensures Valid() && Refuses(events) && Contents() == old(Contents())
    {
      hide Invariant, MemoryOk, Pending;
      KeepRefused(dir.Now(), dir.history, Name(0, 0), events);
      KeepSameView(dir.history, Refused(dir.history, Name(0, 0), events), State());
      dir.history := Refused(dir.history, Name(0, 0), events);
    }

    function SegmentSize(n: Name): nat
      reads this
    {
      if n in segments then segments[n].size else 0
    }

    /** Stop appending to the active segment; delete it if it is already drained. */
    method Rotate() returns (ok: bool)
      requires Valid() && active.Some?
      modifies this, dir
      ensures Valid() && Safe(old(LedgerOf(dir.history))) && Kept() && NamesKept() && active == None && Contents() == old(Contents())
      ensures lastStamp == old(lastStamp)
      ensures ok <==> dir.faults == old(dir.faults)
    {
      hide Invariant, CrashSafe, Pending, SafeImages, MemoryOk;
      NoSafeImages(dir.images, LedgerOf(dir.history));
      var n := active.value;
      ActiveSummary(dir.history, State(), n);
      KeepInactive(dir.history, State());
      active := None;
      ok := true;
      if segments[n].ack == segments[n].count {
        DrainedIsNotLive(dir.history, State(), n);
        ok := RemoveSegment(n);
        if !ok {
          KeepCleanup(dir.history, State(), n);
          cleanup := Some(n);
        }
      }
    }

    method StartSegment(events: seq<Event>, data: Bytes, batch: seq<Record>, size: nat, now: nat, tag: nat) returns (ok: bool)
      requires Valid() && active == None && FreshTag(tag)
      requires events != [] && Storable(events) && data == Lines(events) && |data| <= SEGMENT_LIMIT
      requires batch == RecordsOf(Name(0, 0), events, 0) && size == Sizes(batch)
      modifies this, dir
      ensures Valid() && Safe(Offered(old(dir.history), events)) && Stores(events, ok)
      ensures ok <==> dir.faults == old(dir.faults)
      ensures ok ==> Begins(|data|, now, tag)
    {
      hide Invariant, CrashSafe, Pending, MemoryOk, Lines, RecordsOf, Sizes, SafeImages, Storable, Tag, Claimed;
      var stamp := if now > lastStamp then now else lastStamp + 1;
      var n := Name(stamp, tag);
      ghost var h, m := dir.history, State();
      NewSegmentFacts(dir.Now(), h, m, n, events);
      CreatedStanding(dir.Now(), h, n, events, false);
      CreatedStanding(dir.Now(), h, n, events, true);
      ok := dir.CreateLog(n, data, events);
      if ok {
        RebasePlaces(Name(0, 0), n, [], events);
        StartOfLog(events);
        SizesAppend(records, Rebase(batch, n, 0));
        lastStamp := stamp;
        active := Some(n);
        segments := segments[n := Segment(|events|, 0, |data|, 0)];
        records := records + Rebase(batch, n, 0);
        bytes := bytes + size;
      }
      SafeImagesOne(old(dir.images), dir.Now(), Offered(h, events));
    }

    method ExtendSegment(events: seq<Event>, data: Bytes, batch: seq<Record>, size: nat) returns (ok: bool)
      requires Valid() && active.Some? && SegmentSize(active.value) + |data| <= ROTATE_BYTES
      requires events != [] && Storable(events) && data == Lines(events)
      requires batch == RecordsOf(Name(0, 0), events, 0) && size == Sizes(batch)
      modifies this, dir
      ensures Valid() && Safe(Offered(old(dir.history), events)) && Stores(events, ok)
      ensures ok <==> dir.faults == old(dir.faults)
      ensures ok ==> Grows(|data|)
    {
      hide Invariant, CrashSafe, Pending, MemoryOk, Lines, RecordsOf, Sizes, SafeImages, Storable, Tag, Claimed;
      var n := active.value;
      ghost var h, m := dir.history, State();
      ExtendSegmentFacts(dir.Now(), h, m, n, events);
      AppendedStanding(dir.Now(), h, n, events);
      var segment := segments[n];
      ok := dir.AppendLog(n, data, segment.size, events);
      if ok {
        RebasePlaces(Name(0, 0), n, Events(h.shadow[n].items), events);
        SizesAppend(records, Rebase(batch, n, segment.size));
        segments := segments[n := segment.(count := segment.count + |events|, size := segment.size + |data|)];
        records := records + Rebase(batch, n, segment.size);
        bytes := bytes + size;
      }
      SafeImagesOne(old(dir.images), dir.Now(), Offered(h, events));
    }

    /** Acknowledge the first `count` events, which have been delivered. Even on failure
        exactly the committed ones leave the queue, and nothing behind them is touched. */
    method Acknowledge(count: int) returns (committed: nat, ok: bool)
      requires Valid()
      modifies this, dir
      ensures !(0 <= count <= |old(Contents())|) ==> !ok && committed == 0 && dir.history == old(dir.history) && dir.faults == old(dir.faults)
      ensures 0 <= count <= |old(Contents())| ==> committed <= count && (ok ==> committed == count) && (ok <==> dir.faults == old(dir.faults))
      ensures committed <= |old(Contents())| && Contents() == old(Contents())[committed..]
      ensures Commits(old(StandingOf(dir.history)), old(Contents()), committed, count, StandingOf(dir.history))
      ensures ok && count > 0 ==> InDoubt(dir.history) == []
      ensures dir.history.queue.accepted == old(dir.history.queue.accepted) && dir.history.failed == old(dir.history.failed)
      ensures Valid() && Safe(Reaching(old(dir.history), old(Contents())[..Clamp(count, |old(Contents())|)]))
    {
      hide Invariant, CrashSafe, Pending, MemoryOk, SafeImages, Confirmed, Sizes, InDoubt, Reaching, Unaccepted, Within;
      ghost var h, start := dir.history, Contents();
      RecordCount(h, State());
      ReachIs(dir.Now(), h);
      assert start[..0] == [] && start[0..] == start;
      NoSafeImages(dir.images, Reaching(h, start[..Clamp(count, |start|)]));
      if count < 0 || count > |records| {
        return 0, false;
      }
      ghost var g := Reaching(h, start[..count]);
      committed := 0;
      while committed < count
        invariant Valid() && committed <= count <= |start|
        invariant old(dir.images) <= dir.images && dir.faults == old(dir.faults)
        invariant SafeImages(dir.images, |old(dir.images)|, g)
        invariant dir.history.queue.accepted == h.queue.accepted && dir.history.failed == h.failed
        invariant Contents() == start[committed..]
        invariant StandingOf(dir.history) == Reached(h, start, committed)
        decreases count - committed
      {
        RecordCount(dir.history, State());
        ReachIs(dir.Now(), dir.history);
        ghost var images, before := dir.images, dir.history;
        var n, k, done := AcknowledgeHead(count - committed);
        ReachedMore(h, start, committed, k);
        ReachingWithin(h, before, start, committed, k, count);
        SafeImagesWider(dir.images, |images|, Reaching(before, start[committed..][..k]), g);
        SafeImagesJoin(images, dir.images, |old(dir.images)|, g);
        if !done {
          return committed, false;
        }
        committed := committed + k;
        ReachIs(dir.Now(), dir.history);
        images, before := dir.images, dir.history;
        done := ReleaseDrained(n);
        LedgerWithin(h, before, start, committed, count);
        SafeImagesWider(dir.images, |images|, LedgerOf(before), g);
        SafeImagesJoin(images, dir.images, |old(dir.images)|, g);
        if !done {
          return committed, false;
        }
      }
      return committed, true;
    }

    /** Delete a segment once it is drained and no longer written to, or keep it in mind. */
    method ReleaseDrained(n: Name) returns (ok: bool)
      requires Valid() && n in segments
      modifies this, dir
      ensures Valid() && Contents() == old(Contents()) && Kept() && Safe(old(LedgerOf(dir.history)))
      ensures ok <==> dir.faults == old(dir.faults)
    {
      hide Invariant, CrashSafe, Pending, MemoryOk, SafeImages, Sizes, StandingOf, LedgerOf;
      NoSafeImages(dir.images, LedgerOf(dir.history));
      ok := true;
      if segments[n].ack == segments[n].count && active != Some(n) {
        DrainedIsNotLive(dir.history, State(), n);
        ok := RemoveSegment(n);
        if !ok {
          KeepCleanup(dir.history, State(), n);
          cleanup := Some(n);
        }
      }
    }

    /** Journal the acknowledgement of the next events of the first segment. */
    method AcknowledgeHead(limit: nat) returns (n: Name, k: nat, ok: bool)
      requires Valid() && 0 < limit <= |Contents()| && |records| == |Contents()|
      modifies this, dir
      ensures 0 < k <= limit && (ok ==> n in segments)
      ensures Valid() && Safe(Reaching(old(dir.history), old(Contents())[..k])) && (ok <==> dir.faults == old(dir.faults))
      ensures dir.history.queue.accepted == old(dir.history.queue.accepted) && dir.history.failed == old(dir.history.failed)
      ensures Contents() == if ok then old(Contents())[k..] else old(Contents())
      ensures ok ==> StandingOf(dir.history) == Certain(old(StandingOf(dir.history)), old(Contents())[..k])
      ensures !ok ==> StandingOf(dir.history) in {old(StandingOf(dir.history)), old(StandingOf(dir.history)).(doubt := old(Contents())[..k])}
      ensures active == old(active) && cleanup == old(cleanup)
    {
      hide Invariant, CrashSafe, Pending, MemoryOk, SafeImages, Confirmed, Sizes, Tried, Settled, Acknowledged, StandingOf, Reaching, LedgerOf, Within;
      ghost var h, m := dir.history, State();
      ghost var n' := FirstRecord(h, m);
      n := records[0].segment;
      var segment := segments[n];
      k := if limit < segment.count - segment.ack then limit else segment.count - segment.ack;
      var next := segment.ack + k;
      AcknowledgeFacts(dir.Now(), h, m, n, next, k);
      AcknowledgeStands(dir.Now(), h, n, next, k);
      ok := dir.AppendAck(n, next, segment.ackBytes);
      CrashSafeWider(dir.Now(), if !ok && dir.history == h then LedgerOf(h) else LedgerOf(Tried(h, next)), Reaching(h, Pending(h)[..k]));
      SafeImagesOne(old(dir.images), dir.Now(), Reaching(h, Pending(h)[..k]));
      if ok {
        SettledAcknowledged(dir.Now(), h, n, next);
        dir.history := Acknowledged(h, next);
        var released := ReleasedBytes(records[..k]);
        assert records == records[..k] + records[k..];
        SizesAppend(records[..k], records[k..]);
        bytes := bytes - released;
        records := records[k..];
        segments := segments[n := segment.(ack := next, ackBytes := segment.ackBytes + ACK_FRAME_BYTES)];
      }
    }

    /** Encode the longest deliverable prefix of the queue as one request body. */
    method MarshalPrefix(header: Bytes) returns (r: Window)
      requires Valid()
      modifies this, dir
      ensures Valid() && Safe(old(LedgerOf(dir.history))) && Kept() && Contents() == old(Contents())
      ensures records == old(records)
      ensures r.Unreadable? <==> dir.faults > old(dir.faults)
      ensures r.Empty? ==> Contents() == []
      ensures r.TooLarge? ==> Contents() != [] && |header| + |Contents()[0].event| + 2 > MAX_EVENT_BATCH_BYTES
      ensures r.Window? ==>
        && 0 < r.count <= |Contents()| && IsWindow(|header|, Events(Contents()), r.count)
        && r.data == Body(header, Events(Contents())[..r.count]) && |r.data| <= MAX_EVENT_BATCH_BYTES
    {
      hide Invariant, CrashSafe, Pending, SafeImages, MemoryOk, Sizes;
      NoSafeImages(dir.images, LedgerOf(dir.history));
      KeepNoCleanup(dir.history, State());
      if cleanup.Some? {
        var ok := RemoveSegment(cleanup.value);
        if !ok {
          return Unreadable;
        }
        KeepNoCleanup(dir.history, State());
        cleanup := None;
      }
      RecordCount(dir.history, State());
      if records == [] {
        return Empty;
      }
      var count := SelectWindow(|header|);
      if count == 0 {
        return TooLarge;
      }
      var ok, data := ReadWindow(header, count);
      if !ok {
        return Unreadable;
      }
      WindowFits(|header|, Events(Contents()), count, header);
      return Window(data + BODY_END, count);
    }

    /** Copy the stored bytes of the first `count` events behind the header. */
    method ReadWindow(header: Bytes, count: nat) returns (ok: bool, data: Bytes)
      requires Valid() && count <= |Contents()|
      modifies dir`faults
      ensures ok ==> data == header + Joined(Events(Contents())[..count])
      ensures old(dir.faults) <= dir.faults && (ok <==> dir.faults == old(dir.faults))
    {
      hide Invariant, Pending, MemoryOk, Sizes;
      ghost var events := Events(Contents());
      data := header;
      assert events[..0] == [];
      for i := 0 to count
        invariant data == header + Joined(events[..i]) && dir.faults == old(dir.faults)
      {
        RecordLocates(dir.Now(), dir.history, State(), i);
        var record := records[i];
        ok := dir.Read();
        if !ok {
          return;
        }
        var raw := dir.logs[record.segment][record.offset..record.offset + record.size];
        assert WellFormed(raw);
        JoinedSnoc(events, i);
        data := data + (if i > 0 then [COMMA] else []) + raw;
      }
      ok := true;
    }

    /** How many records fit: at least one, unless even the first is too large. */
    method SelectWindow(header: nat) returns (count: nat)
      requires Valid() && Contents() != []
      ensures count <= |Contents()|
      ensures count == 0 <==> header + |Contents()[0].event| + 2 > MAX_EVENT_BATCH_BYTES
      ensures count > 0 ==> IsWindow(header, Events(Contents()), count)
    {
      hide Invariant, Pending, MemoryOk, Sizes;
      ghost var events := Events(Contents());
      RecordCount(dir.history, State());
      var size := 0;
      count := 0;
      assert events[..0] == [];
      while count < |records|
        invariant count <= |records| == |events|
        invariant size == Total(events[..count])
        invariant count > 0 ==> Admits(header, events, count) && header + |events[0]| + 2 <= MAX_EVENT_BATCH_BYTES
      {
        RecordLocates(dir.Now(), dir.history, State(), count);
        TotalSnoc(events, count);
        var record := records[count];
        if count > 0 && (count >= WINDOW_EVENTS || size + record.size > WINDOW_BYTES) {
          return;
        }
        if header + size + record.size + count + 2 > MAX_EVENT_BATCH_BYTES {
          return;
        }
        size := size + record.size;
        count := count + 1;
      }
    }

    static method ReleasedBytes(acknowledged: seq<Record>) returns (total: nat)
      ensures total == Sizes(acknowledged)
    {
      total := 0;
      assert acknowledged[..0] == [];
      for i := 0 to |acknowledged|
        invariant total == Sizes(acknowledged[..i])
      {
        assert acknowledged[..i + 1] == acknowledged[..i] + [acknowledged[i]];
        SizesAppend(acknowledged[..i], [acknowledged[i]]);
        total := total + acknowledged[i].size;
      }
      assert acknowledged[..|acknowledged|] == acknowledged;
    }
  }

  lemma {:induction false} KeepInactive(h: History, m: Memory)
    requires MemoryOk(h, m)
    ensures MemoryOk(h, m.(active := None))
  {
  }

  lemma {:induction false} KeepNoCleanup(h: History, m: Memory)
    requires MemoryOk(h, m)
    ensures MemoryOk(h, m.(cleanup := None))
    ensures m.cleanup.Some? ==> m.cleanup.value !in h.queue.live
  {
  }

  lemma {:induction false} KeepCleanup(h: History, m: Memory, n: Name)
    requires MemoryOk(h, m) && n !in h.queue.live && n in m.segments
    ensures MemoryOk(h, m.(cleanup := Some(n)))
  {
  }

  lemma {:induction false} NothingStored(h: History)
    ensures Tag([], NewSource(h, true)) == [] && |Lines([])| == 0
  {
  }

  function Clamp(count: int, limit: nat): nat {
    if 0 <= count <= limit then count else 0
  }

  /** Where acknowledgement stands after the first c of these items. */
  function Reached(h: History, items: seq<Item>, c: nat): Standing
    requires c <= |items|
  {
    if c == 0 then StandingOf(h) else Certain(StandingOf(h), items[..c])
  }

  lemma {:induction false} ReachedMore(h: History, items: seq<Item>, c: nat, k: nat)
    requires 0 < k && c + k <= |items|
    ensures Certain(Reached(h, items, c), items[c..][..k]) == Reached(h, items, c + k)
    ensures items[c..][k..] == items[c + k..] && items[c..][..k] <= items[c..]
  {
    hide Certain, StandingOf;
    CertainMore(StandingOf(h), items, c, k);
    assert items[0..] == items;
  }

  lemma {:induction false} ReachingWithin(h: History, before: History, items: seq<Item>, c: nat, k: nat, count: nat)
    requires c + k <= count <= |items| && StandingOf(before) == Reached(h, items, c)
    requires before.queue.accepted == h.queue.accepted && before.failed == h.failed
    requires LedgerOf(h).reach == h.queue.acked + |Confirmed(InDoubt(h))|
    requires LedgerOf(before).reach == before.queue.acked + |Confirmed(InDoubt(before))|
    ensures Within(Reaching(before, items[c..][..k]), Reaching(h, items[..count]))
  {
    hide Confirmed, Unaccepted, InDoubt;
    AttemptBound(items, c, k, count);
    NothingConfirmed();
    assert items[..0] == [];
  }

  lemma {:induction false} LedgerWithin(h: History, before: History, items: seq<Item>, c: nat, count: nat)
    requires 0 < c <= count <= |items| && StandingOf(before) == Reached(h, items, c)
    requires before.queue.accepted == h.queue.accepted && before.failed == h.failed
    requires LedgerOf(before).reach == before.queue.acked + |Confirmed(InDoubt(before))|
    ensures Within(LedgerOf(before), Reaching(h, items[..count]))
  {
    hide Confirmed, Unaccepted, InDoubt;
    AttemptBound(items, c, 0, count);
    NothingConfirmed();
  }

  lemma {:induction false} AttemptBound(items: seq<Item>, committed: nat, k: nat, count: nat)
    requires committed + k <= count <= |items|
    ensures |Confirmed(items[..committed + k])| == |Confirmed(items[..committed])| + |Confirmed(items[committed..][..k])|
    ensures |Confirmed(items[..committed + k])| <= |Confirmed(items[..count])|
    ensures items[committed..][k..] == items[committed + k..]
  {
    hide Confirmed;
    Reach(items, committed, k);
    Reach(items, committed + k, count - committed - k);
  }

  /** Everything the acknowledgement of one segment needs to know beforehand. */
  lemma {:induction false} AcknowledgeFacts(disk: Disk, h: History, m: Memory, n: Name, next: nat, k: nat)
    requires Invariant(disk, h) && MemoryOk(h, m) && h.queue.live != [] && n == h.queue.live[0] && n in h.shadow
    requires h.queue.doubt == None || h.queue.doubt == Some(n)
    requires 0 < k && next == h.shadow[n].Ack() + k <= |h.shadow[n].items|
    ensures Tried(h, next).queue.covered <= |At(h.queue.waiting, n)|
    ensures k <= |m.records| && k <= |Pending(h)|
    ensures MemoryOk(Tried(h, next), m) && Pending(Tried(h, next)) == Pending(h)
    ensures n in Acknowledged(h, next).shadow
    ensures MemoryOk(Acknowledged(h, next), Advanced(m, n, Summary(h.shadow[n]).(ack := next, ackBytes := Summary(h.shadow[n]).ackBytes + ACK_FRAME_BYTES), k))
    ensures Pending(Acknowledged(h, next)) == Pending(h)[k..]
    ensures Acknowledged(h, next).queue.accepted == h.queue.accepted == Tried(h, next).queue.accepted
    ensures Acknowledged(h, next).failed == h.failed == Tried(h, next).failed
  {
    hide MemoryOk, Pending, Confirmed, Linked, QueueOk, DiskOk, OriginsOk, GhostsOk, DoneOk, Advanced, Lines, Covered, Unaccepted, Claimed;
    TriedFacts(disk, h, n, next);
    KeepUnseen(h, Tried(h, next), m, n, h.shadow[n].(tried := next));
    KeepMemoryAcknowledged(h, Acknowledged(h, next), m, n, next, k);
    SettledShadow(h, Acknowledged(h, next), n, next);
  }

  /** Where acknowledgement stands if the frame may be written, and once it is. */
  lemma {:induction false} AcknowledgeStands(disk: Disk, h: History, n: Name, next: nat, k: nat)
    requires Invariant(disk, h) && h.queue.live != [] && n == h.queue.live[0] && n in h.shadow
    requires h.queue.doubt == None || h.queue.doubt == Some(n)
    requires 0 < k && next == h.shadow[n].Ack() + k <= |h.shadow[n].items| && k <= |Pending(h)|
    requires Tried(h, next).queue.covered <= |At(h.queue.waiting, n)|
    ensures StandingOf(Tried(h, next)) == StandingOf(h).(doubt := Pending(h)[..k])
    ensures StandingOf(Acknowledged(h, next)) == Certain(StandingOf(h), Pending(h)[..k])
    ensures Within(LedgerOf(Tried(h, next)), Reaching(h, Pending(h)[..k])) && Within(LedgerOf(h), Reaching(h, Pending(h)[..k]))
  {
    hide Pending, Confirmed, Linked, QueueOk, DiskOk, OriginsOk, GhostsOk, DoneOk, Unaccepted;
    FirstItems(h, n, k);
    var t := h.shadow[n].(tried := next);
    assert Claimed(t) == Pending(h)[..k];
    assert Covered(t) == |Confirmed(Pending(h)[..k])|;
  }

  lemma {:induction false} SettledAcknowledged(disk: Disk, h: History, n: Name, next: nat)
    requires h.queue.live != [] && n == h.queue.live[0] && n in h.shadow
    requires Tried(h, next).queue.covered <= |At(h.queue.waiting, n)|
    requires Invariant(disk, Settled(Tried(h, next), n))
    ensures Invariant(disk, Acknowledged(h, next))
  {
    hide Invariant, QueueOk, Covered, Pending, Confirmed;
    var g := Settled(Tried(h, next), n);
    assert g.queue.live == h.queue.live && g.shadow[n].Ack() == next && g.shadow[n].items == h.shadow[n].items;
    if next == |h.shadow[n].items| {
      DrainedWaits(disk, g, n);
      KeepWithout(g.queue, n);
      assert Without(g.queue.live, n) == g.queue.live[1..];
      KeepLive(disk, g, g.queue.live[1..]);
    }
  }

  /** Nothing accepted waits in a drained segment. */
  lemma {:induction false} DrainedWaits(disk: Disk, h: History, n: Name)
    requires Invariant(disk, h) && n in h.shadow && h.shadow[n].Ack() == |h.shadow[n].items|
    ensures QueueOk(h.queue) && At(h.queue.waiting, n) == []
  {
    hide QueueOk, Shadow.Ok, ExplainsLog, ExplainsJournal, Covered;
    SegmentAt(disk, h, n);
    assert h.shadow[n].Pending() == [];
  }

  lemma {:induction false} StartOfLog(events: seq<Event>)
    ensures |Lines([])| == 0 && [] + events == events
  {
  }

  lemma {:induction false} NewSegmentFacts(disk: Disk, h: History, m: Memory, n: Name, events: seq<Event>)
    requires Invariant(disk, h) && MemoryOk(h, m) && m.lastStamp < n.stamp && n !in disk.logs
    requires events != [] && Storable(events)
    ensures Newest(h.queue, n)
    ensures MemoryOk(Refused(h, n, events), m) && Pending(Refused(h, n, events)) == Pending(h)
    ensures MemoryOk(Created(h, n, events, false), m) && Pending(Created(h, n, events, false)) == Pending(h)
    ensures MemoryOk(Created(h, n, events, true), Grown(m, n, Segment(|events|, 0, |Lines(events)|, 0), RecordsOf(n, events, 0), n.stamp))
    ensures Pending(Created(h, n, events, true)) == Pending(h) + Tag(events, NewSource(h, true))
    ensures m.cleanup != Some(n)
  {
    hide MemoryOk, Pending, RecordsOf, Lines, QueueOk, Linked, DiskOk, OriginsOk, GhostsOk, DoneOk, Newest, Grown, Storable, Tag, Extend;
    NotYet(disk, h, n);
    NewName(h, m, n);
    NewIsNewest(h, m, n);
    KeepSameView(h, Refused(h, n, events), m);
    KeepUnknown(h, Created(h, n, events, false), m, n, Created(h, n, events, false).shadow[n]);
    KeepMemoryCreated(h, m, n, events);
    NewSummary(events, NewSource(h, true));
  }

  lemma {:induction false} NewSummary(events: seq<Event>, source: Source)
    ensures Summary(Single(events, source)) == Segment(|events|, 0, |Lines(events)|, 0)
  {
    ConfirmedTag(events, source);
  }

  lemma {:induction false} ActiveSummary(h: History, m: Memory, n: Name)
    requires MemoryOk(h, m) && m.active == Some(n)
    ensures n in h.shadow && n in m.segments && m.segments[n] == Summary(h.shadow[n]) && Newest(h.queue, n)
  {
    hide Summary, RecordMap;
  }

  lemma {:induction false} LongerSummary(s: Shadow, events: seq<Event>, source: Source)
    requires Storable(Events(s.items)) && Storable(events)
    ensures Summary(Longer(s, events, source)) ==
      Summary(s).(count := Summary(s).count + |events|, size := Summary(s).size + |Lines(events)|)
  {
    hide Lines, Events, Storable;
    LongerEvents(s, events, source);
  }

  lemma {:induction false} ExtendSegmentFacts(disk: Disk, h: History, m: Memory, n: Name, events: seq<Event>)
    requires Invariant(disk, h) && MemoryOk(h, m) && m.active == Some(n) && m.cleanup != Some(n)
    requires events != [] && Storable(events)
    ensures n in h.shadow && n in m.segments && m.segments[n] == Summary(h.shadow[n]) && Newest(h.queue, n)
    ensures MemoryOk(Refused(h, n, events), m) && Pending(Refused(h, n, events)) == Pending(h)
    ensures MemoryOk(Stray(h, n, events), m) && Pending(Stray(h, n, events)) == Pending(h)
    ensures MemoryOk(Appended(h, n, events),
                     Grown(m, n, m.segments[n].(count := m.segments[n].count + |events|, size := m.segments[n].size + |Lines(events)|),
                           RecordsOf(n, Events(h.shadow[n].items) + events, |h.shadow[n].items|), m.lastStamp))
    ensures Pending(Appended(h, n, events)) == Pending(h) + Tag(events, NewSource(h, true))
  {
    hide MemoryOk, Pending, RecordsOf, Lines, QueueOk, Linked, DiskOk, OriginsOk, GhostsOk, DoneOk, Grown, Newest, Summary, Storable, Tag;
    ActiveFacts(h, m, n);
    ActiveSummary(h, m, n);
    KeepSameView(h, Refused(h, n, events), m);
    KeepUnseen(h, Stray(h, n, events), m, n, Behind(h.shadow[n], events, |h.failed|));
    KeepMemoryAppended(h, m, n, events);
    LongerSummary(h.shadow[n], events, NewSource(h, true));
  }

  lemma {:induction false} DoubtIsLive(h: History, m: Memory, n: Name)
    requires MemoryOk(h, m) && n !in h.queue.live
    ensures h.queue.doubt != Some(n)
  {
    assert h.queue.live != [] ==> h.queue.live[0] in h.queue.live;
  }

  lemma {:induction false} DrainedIsNotLive(h: History, m: Memory, n: Name)
    requires MemoryOk(h, m) && n in m.segments && m.segments[n].ack == m.segments[n].count
    ensures n !in h.queue.live
  {
  }
}
