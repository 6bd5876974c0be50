/** Opening the spool after a restart: every stored segment is read, torn tails are
    cut off, drained segments are deleted, and the rest becomes the queue again. */
module SpoolRestart {
  import opened TelemetryCodec
  import opened Wrappers
  import opened Sequences
  import opened DeliveryQueue
  import opened SpoolRecovery
  import opened SpoolHistory
  import opened SpoolStorage
  import opened SpoolMemory
  import opened Spool

  datatype Status = Opened | StorageError | Refused

  /** Recovery only ever narrows what a crash may have left in doubt. */
  twostate predicate Progress(dir: SpoolDirectory)
    reads dir
  {
    && dir.history.queue.accepted == old(dir.history.queue.accepted)
    && dir.history.failed == old(dir.history.failed)
    && Resolves(old(StandingOf(dir.history)), StandingOf(dir.history))
    && old(dir.images) <= dir.images && old(dir.faults) <= dir.faults
    && SafeImages(dir.images, |old(dir.images)|, old(LedgerOf(dir.history)))
  }

  /** Resolving a doubt narrows the bounds. */
  lemma {:induction false} ResolvedWithin(disk: Disk, h: History, later: Disk, g: History)
    requires Invariant(disk, h) && Invariant(later, g) && g.queue.accepted == h.queue.accepted && g.failed == h.failed
    requires Resolves(StandingOf(h), StandingOf(g))
    ensures Within(LedgerOf(g), LedgerOf(h))
  {
    hide Invariant, Confirmed, Unaccepted, InDoubt;
    ReachIs(disk, h);
    ReachIs(later, g);
    NothingConfirmed();
  }

  /** Two steps of recovery are one. */
  lemma {:induction false} ProgressJoin(disk: Disk, h: History, later: Disk, g: History, images: seq<Disk>, more: seq<Disk>, from: nat)
    requires Invariant(disk, h) && Invariant(later, g) && g.queue.accepted == h.queue.accepted && g.failed == h.failed
    requires Resolves(StandingOf(h), StandingOf(g)) && images <= more && from <= |images|
    requires SafeImages(images, from, LedgerOf(h)) && SafeImages(more, |images|, LedgerOf(g))
    ensures SafeImages(more, from, LedgerOf(h))
    ensures forall c :: Resolves(StandingOf(g), c) ==> Resolves(StandingOf(h), c)
  {
    hide Invariant, SafeImages, Resolves, Within, LedgerOf, StandingOf;
    ResolvedWithin(disk, h, later, g);
    SafeImagesWider(more, |images|, LedgerOf(g), LedgerOf(h));
    SafeImagesJoin(images, more, from, LedgerOf(h));
    forall c | Resolves(StandingOf(g), c)
      ensures Resolves(StandingOf(h), c)
    {
      ResolvesTwice(StandingOf(h), StandingOf(g), c);
    }
  }

  // ---------- Reading one journal ----------

  method ScanJournalFile(b: Bytes, count: nat) returns (r: AckScan)
    ensures r == RecoverAck(b, count)
  {
    hide ValidFrame, FrameNext;
    if |b| > (count + 1) * ACK_FRAME_BYTES {
      return AckCorrupt;
    }
    var ack: nat, pos: nat := 0, 0;
    while pos < |b|
      invariant pos <= |b|
      invariant ScanAcks(b, count, ack, pos) == ScanAcks(b, count, 0, 0)
      decreases |b| - pos
    {
      var n := if |b| - pos < ACK_FRAME_BYTES then |b| - pos else ACK_FRAME_BYTES;
      var frame := b[pos..pos + n];
      if n < ACK_FRAME_BYTES || !ValidFrame(frame) {
        if pos + n != |b| {
          return AckCorrupt;
        }
        return AckOk(ack, pos);
      }
      var next := FrameNext(frame);
      if next <= ack || next > count {
        return AckCorrupt;
      }
      ack := next;
      pos := pos + ACK_FRAME_BYTES;
    }
    return AckOk(ack, pos);
  }

  // ---------- Reading one segment ----------

  /** Reading has consumed `offset` bytes of the log as `lines`. */
  ghost predicate Consumed(log: Bytes, lines: seq<Bytes>, offset: nat) {
    && offset <= |log| && log[..offset] == Lines(lines)
    && SplitLines(log).lines == lines + SplitLines(log[offset..]).lines
    && SplitLines(log).tail == SplitLines(log[offset..]).tail
  }

  /** Read complete lines up to the first one that is not an event. */
  method ScanLines(log: Bytes) returns (ok: bool, lines: seq<Bytes>, offset: nat)
    ensures ok <==> ReadableLines(SplitLines(log).lines)
    ensures ok ==> lines == SplitLines(log).lines && offset <= |log| && log[offset..] == SplitLines(log).tail
    ensures ok ==> log[..offset] == Lines(lines)
  {
    hide WellFormed, Lines, SplitLines, Consumed, ReadableLines;
    lines, offset := [], 0;
    ConsumedNothing(log);
    ok := true;
    while true
      invariant offset <= |log| && ReadableLines(lines) && Consumed(log, lines, offset)
      decreases |log| - offset
    {
      var n := LineEnd(log[offset..]);
      if offset + n == |log| {
        ConsumedAll(log, lines, offset);
        return;
      }
      var raw := log[offset..][..n];
      ConsumedLine(log, lines, offset);
      if |raw| > MAX_EVENT_BATCH_BYTES || !WellFormed(raw) {
        UnreadableLine(lines, raw, SplitLines(log[offset + n + 1..]).lines);
        ok := false;
        return;
      }
      ReadableLine(lines, raw);
      lines := lines + [raw];
      offset := offset + n + 1;
    }
  }

  lemma {:induction false} ConsumedNothing(log: Bytes)
    ensures Consumed(log, [], 0) && ReadableLines([])
  {
    assert log[0..] == log && log[..0] == [];
    assert [] + SplitLines(log).lines == SplitLines(log).lines;
  }

  lemma {:induction false} ConsumedAll(log: Bytes, lines: seq<Bytes>, offset: nat)
    requires Consumed(log, lines, offset) && offset + LineEnd(log[offset..]) == |log|
    ensures SplitLines(log) == Parsed(lines, log[offset..]) && log[..offset] == Lines(lines)
  {
    assert SplitLines(log[offset..]) == Parsed([], log[offset..]);
    assert lines + [] == lines;
  }

  lemma {:induction false} ConsumedLine(log: Bytes, lines: seq<Bytes>, offset: nat)
    requires Consumed(log, lines, offset) && offset + LineEnd(log[offset..]) < |log|
    ensures var n := LineEnd(log[offset..]);
            var raw := log[offset..][..n];
            && Consumed(log, lines + [raw], offset + n + 1)
            && SplitLines(log).lines == lines + ([raw] + SplitLines(log[offset + n + 1..]).lines)
  {
    hide Lines, SplitLines;
    var rest := log[offset..];
    var n := LineEnd(rest);
    var raw := rest[..n];
    SplitStep(rest);
    assert rest[n + 1..] == log[offset + n + 1..];
    LineBytes(log, lines, offset, n);
    Associate(lines, [raw], SplitLines(log[offset + n + 1..]).lines);
  }

  lemma {:induction false} SplitStep(rest: Bytes)
    requires LineEnd(rest) < |rest|
    ensures SplitLines(rest).lines == [rest[..LineEnd(rest)]] + SplitLines(rest[LineEnd(rest) + 1..]).lines
    ensures SplitLines(rest).tail == SplitLines(rest[LineEnd(rest) + 1..]).tail
  {
    hide LineEnd;
  }

  lemma {:induction false} LineBytes(log: Bytes, lines: seq<Bytes>, offset: nat, n: nat)
    requires offset + n < |log| && log[offset + n] == NEWLINE && log[..offset] == Lines(lines)
    ensures log[..offset + n + 1] == Lines(lines + [log[offset..][..n]])
  {
    var raw := log[offset..][..n];
    LinesAppend(lines, [raw]);
    assert Lines([raw]) == raw + [NEWLINE];
    assert log[..offset + n + 1] == log[..offset] + (raw + [NEWLINE]);
  }

  lemma {:induction false} UnreadableLine(lines: seq<Bytes>, raw: Bytes, more: seq<Bytes>)
    requires |raw| > MAX_EVENT_BATCH_BYTES || !WellFormed(raw)
    ensures !ReadableLines(lines + ([raw] + more))
  {
    assert (lines + ([raw] + more))[|lines|] == raw;
  }

  lemma {:induction false} ReadableLine(lines: seq<Bytes>, raw: Bytes)
    requires ReadableLines(lines) && |raw| <= MAX_EVENT_BATCH_BYTES && WellFormed(raw)
    ensures ReadableLines(lines + [raw])
  {
  }

  // ---------- Recovering one segment ----------

  /** What recovery of segment n leaves behind: nothing torn, nothing in doubt. */
  ghost predicate Clean(s: Shadow) {
    s.Ok() && s.tried == s.Ack() && s.stray == []
  }

  /** Settle the acknowledgement of segment n: adopt it if its frame is complete,
      otherwise cut the torn frame off. */
  method SettleJournal(dir: SpoolDirectory, n: Name, ghost acks: seq<nat>, ackBytes: nat) returns (ok: bool)
    requires dir.Valid() && n in dir.history.shadow && n in dir.logs
    requires var s, b := dir.history.shadow[n], dir.Now().AckJournal(n);
             && (acks == s.acks || (s.tried > s.Ack() && acks == s.acks + [s.tried] && b == Journal(acks)))
             && ackBytes == ACK_FRAME_BYTES * |acks| <= |b| && b[..ackBytes] == Journal(acks)
    modifies dir
    ensures dir.Valid() && Progress(dir) && dir.logs == old(dir.logs) && dir.acks.Keys == old(dir.acks.Keys)
    ensures forall m :: m != n ==> dir.Now().AckJournal(m) == old(dir.Now()).AckJournal(m)
    ensures n in dir.history.shadow && dir.history.shadow == old(dir.history.shadow)[n := dir.history.shadow[n]]
    ensures dir.history.shadow[n].items == old(dir.history.shadow[n]).items && dir.history.shadow[n].stray == old(dir.history.shadow[n]).stray
    ensures dir.history.shadow[n].batch == old(dir.history.shadow[n]).batch
    ensures dir.history.queue.live == old(dir.history.queue.live)
    ensures dir.history.queue.doubt in {None, old(dir.history.queue.doubt)}
    ensures ok <==> dir.faults == old(dir.faults)
    ensures ok ==> dir.history.shadow[n].acks == acks && dir.history.shadow[n].tried == Last(acks)
    ensures ok ==> dir.Now().AckJournal(n) == Journal(acks) && dir.history.queue.doubt != Some(n)
  {
    hide Invariant, CrashSafe, SafeImages, Journal, Frame, Covered, Abandoned, Settled, Advancing, ExplainsLog, ExplainsJournal, StandingOf, LedgerOf;
    ghost var h, images := dir.history, dir.images;
    NoSafeImages(images, LedgerOf(h));
    SegmentFacts(dir.Now(), h, n);
    AbandonedParts(h, n);
    AbandonedStanding(h, n);
    var size := if n in dir.acks then |dir.acks[n]| else 0;
    if size > ackBytes {
      ok := dir.TruncateAck(n, ackBytes);
      WholeLedger(LedgerOf(h), h);
      SafeImagesOne(images, dir.Now(), LedgerOf(h));
    } else {
      ok := true;
      if acks != h.shadow[n].acks {
        AdvancingSnoc(h.shadow[n].acks, h.shadow[n].tried, |h.shadow[n].items|);
        KeepSettled(dir.Now(), h, n);
        SettledParts(h, n);
        SettledStanding(dir.Now(), h, n);
        InDoubtIs(h);
        dir.history := Settled(h, n);
      } else {
        WholeJournal(dir.Now().AckJournal(n), ackBytes);
        KeepAbandoned(dir.Now(), h, n);
        dir.history := Abandoned(h, n);
      }
    }
  }

  lemma {:induction false} AbandonedParts(h: History, n: Name)
    requires n in h.shadow
    ensures var g := Abandoned(h, n);
            && n in g.shadow && g.shadow == h.shadow[n := g.shadow[n]] && g.shadow[n].items == h.shadow[n].items
            && g.shadow[n].stray == h.shadow[n].stray && g.shadow[n].acks == h.shadow[n].acks && g.shadow[n].tried == Last(h.shadow[n].acks)
            && g.queue.live == h.queue.live && g.queue.doubt in {None, h.queue.doubt} && g.queue.doubt != Some(n)
            && g.shadow[n].batch == h.shadow[n].batch && g.failed == h.failed
            && g.queue.accepted == h.queue.accepted
  {
  }

  lemma {:induction false} SettledParts(h: History, n: Name)
    requires n in h.shadow && h.queue.doubt == Some(n) && h.queue.covered <= |At(h.queue.waiting, n)|
    ensures var g := Settled(h, n);
            && n in g.shadow && g.shadow == h.shadow[n := g.shadow[n]] && g.shadow[n].items == h.shadow[n].items
            && g.shadow[n].stray == h.shadow[n].stray && g.shadow[n].acks == h.shadow[n].acks + [h.shadow[n].tried]
            && g.shadow[n].tried == h.shadow[n].tried
            && g.queue.live == h.queue.live && g.queue.doubt == None
            && g.shadow[n].batch == h.shadow[n].batch && g.failed == h.failed
            && g.queue.accepted == h.queue.accepted
  {
  }

  lemma {:induction false} WholeLedger(g: Ledger, h: History)
    requires g == LedgerOf(h)
    ensures g.(failed := h.failed) == g
  {
  }

  lemma {:induction false} InDoubtIs(h: History)
    ensures StandingOf(h).doubt == InDoubt(h)
  {
  }

  lemma {:induction false} WholeJournal(b: Bytes, size: nat)
    requires size == |b|
    ensures b[..size] == b
  {
  }

  /** Nothing but segment n may have changed, and that only for the better. */
  twostate predicate OnlySegment(dir: SpoolDirectory, n: Name)
    reads dir
  {
    && dir.logs.Keys == old(dir.logs.Keys) && dir.acks.Keys == old(dir.acks.Keys)
    && (forall m :: m in dir.logs && m != n ==> dir.logs[m] == old(dir.logs)[m])
    && (forall m :: m != n ==> dir.Now().AckJournal(m) == old(dir.Now()).AckJournal(m))
    && n in dir.history.shadow && dir.history.shadow == old(dir.history.shadow)[n := dir.history.shadow[n]]
    && dir.history.queue.live == old(dir.history.queue.live)
    && dir.history.queue.doubt in {None, old(dir.history.queue.doubt)}
  }

  /** The journal and the log were read as these acknowledgements and as j events of the stray batch. */
  ghost predicate ReadAs(log: Bytes, journal: Bytes, s: Shadow, acks: seq<nat>, ackBytes: nat, j: nat, offset: nat) {
    && (acks == s.acks || (s.tried > s.Ack() && acks == s.acks + [s.tried] && journal == Journal(acks)))
    && ackBytes == ACK_FRAME_BYTES * |acks| <= |journal| && journal[..ackBytes] == Journal(acks)
    && j <= |s.stray| && offset <= |log| && log[..offset] == Lines(Events(s.items) + s.stray[..j])
  }

  /** Segment s with this much of its stray batch adopted and these acknowledgements. */
  function Repaired(s: Shadow, acks: seq<nat>, j: nat): Shadow {
    if j <= |s.stray| then Longer(s, s.stray[..j], Batch(s.batch)).(acks := acks, tried := Last(acks)) else s
  }

  /** Make the two files of segment n what was read from them. */
  method RepairSegment(dir: SpoolDirectory, n: Name, ghost s: Shadow, ghost acks: seq<nat>, ackBytes: nat, ghost j: nat, offset: nat) returns (ok: bool)
    requires n in dir.history.shadow && n in dir.logs && s == dir.history.shadow[n] && dir.Valid()
    requires ReadAs(dir.logs[n], dir.Now().AckJournal(n), s, acks, ackBytes, j, offset)
    modifies dir
    ensures dir.Valid() && Progress(dir) && OnlySegment(dir, n) && (ok <==> dir.faults == old(dir.faults))
    ensures ok ==> dir.history.shadow[n] == Repaired(s, acks, j) && dir.history.queue.doubt != Some(n)
  {
    hide Invariant, CrashSafe, SafeImages, Journal, Frame, Covered, Lines, Storable, ExplainsLog, ExplainsJournal, StandingOf, LedgerOf, Resolves;
    ghost var h, disk := dir.history, dir.Now();
    ok := SettleJournal(dir, n, acks, ackBytes);
    if !ok {
      return;
    }
    ghost var images, mid, before := dir.images, dir.history, dir.Now();
    KeepAdopted(dir.Now(), dir.history, n, j);
    AdoptedStanding(dir.Now(), dir.history, n, j);
    ResolvesSame(StandingOf(mid));
    if offset < |dir.logs[n]| {
      ok := dir.TruncateLog(n, offset, j);
      WholeLedger(LedgerOf(mid), mid);
      SafeImagesOne(images, dir.Now(), LedgerOf(mid));
      ProgressJoin(disk, h, before, mid, images, dir.images, |old(dir.images)|);
    } else {
      assert dir.logs[n][..offset] == dir.logs[n];
      dir.history := Adopted(dir.history, n, j);
    }
  }

  lemma {:induction false} ResolvesSame(a: Standing)
    ensures Resolves(a, a)
  {
  }

  /** Read one segment back and repair it. */
  method RecoverSegment(dir: SpoolDirectory, n: Name) returns (status: Status, segment: Segment, lines: seq<Bytes>)
    requires dir.Valid() && n in dir.history.shadow && n in dir.logs
    modifies dir
    ensures dir.Valid() && Progress(dir) && OnlySegment(dir, n)
    ensures status == StorageError <==> dir.faults > old(dir.faults)
    ensures status == Refused ==> RecoverFile(old(dir.logs)[n], old(dir.Now()).AckJournal(n)) == Corrupt
    ensures status == Opened ==>
      && RecoverFile(old(dir.logs)[n], old(dir.Now()).AckJournal(n)) == Recovered(lines, segment.ack)
      && Clean(dir.history.shadow[n]) && lines == Events(dir.history.shadow[n].items)
      && segment == Summary(dir.history.shadow[n]) && dir.history.queue.doubt != Some(n)
  {
    hide Invariant, CrashSafe, SafeImages, Journal, Frame, Covered, Lines, SplitLines, Storable, RecoverAck, ReadableLines, ExplainsLog, ExplainsJournal;
    ghost var h, disk := dir.history, dir.Now();
    NoSafeImages(dir.images, LedgerOf(h));
    segment, lines := Segment(0, 0, 0, 0), [];
    var readable := dir.Read();
    if !readable {
      return StorageError, segment, lines;
    }
    var log := dir.logs[n];
    if |log| > SEGMENT_LIMIT {
      return Refused, segment, lines;
    }
    var ok, offset;
    ok, lines, offset := ScanLines(log);
    if !ok {
      return Refused, segment, lines;
    }
    var scan := ScanJournalFile(if n in dir.acks then dir.acks[n] else [], |lines|);
    if scan.AckCorrupt? {
      return Refused, segment, lines;
    }
    ghost var j, acks := RecoverParts(disk, h, n);
    ok := RepairSegment(dir, n, h.shadow[n], acks, scan.validBytes, j, offset);
    if !ok {
      return StorageError, segment, lines;
    }
    AdoptedClean(dir.Now(), dir.history, n);
    segment := Segment(|lines|, scan.ack, offset, scan.validBytes);
    status := Opened;
  }

  lemma {:induction false} AdoptedClean(disk: Disk, h: History, n: Name)
    requires Invariant(disk, h) && n in h.shadow && h.shadow[n].tried == h.shadow[n].Ack() && h.shadow[n].stray == []
    ensures Clean(h.shadow[n])
  {
    SegmentFacts(disk, h, n);
  }

  /** Both files of a segment, as recovery reads them, in terms of its history. */
  lemma {:induction false} RecoverParts(disk: Disk, h: History, n: Name) returns (j: nat, acks: seq<nat>)
    requires Invariant(disk, h) && n in h.shadow && n in disk.logs
    ensures var s, log, b := h.shadow[n], disk.logs[n], disk.AckJournal(n);
            var lines := SplitLines(log).lines;
            && j <= |s.stray| && lines == Events(s.items) + s.stray[..j]
            && Events(Longer(s, s.stray[..j], Batch(s.batch)).items) == lines
            && |log| <= SEGMENT_LIMIT && ReadableLines(lines)
            && RecoverAck(b, |lines|) == AckOk(Last(acks), ACK_FRAME_BYTES * |acks|)
            && (acks == s.acks || (s.tried > s.Ack() && acks == s.acks + [s.tried] && b == Journal(acks)))
            && ACK_FRAME_BYTES * |acks| <= |b| && b[..ACK_FRAME_BYTES * |acks|] == Journal(acks)
            && RecoverFile(log, b) == Recovered(lines, Last(acks))
  {
    hide Journal, Frame, Lines, RecoverAck, ReadableLines;
    SegmentFacts(disk, h, n);
    hide Invariant;
    var s := h.shadow[n];
    var torn;
    j, torn := RecoverLines(disk.logs[n], s);
    StrayPrefix(s, j);
    LongerEvents(s, s.stray[..j], Batch(s.batch));
    CountBounded(Events(s.items));
    CountBounded(s.stray);
    acks := RecoverJournal(disk.AckJournal(n), s, |Events(s.items) + s.stray[..j]|);
  }

  lemma {:induction false} SegmentFacts(disk: Disk, h: History, n: Name)
    requires Invariant(disk, h) && n in h.shadow
    ensures n in disk.logs && h.shadow[n].Ok() && Advancing(h.shadow[n].acks, |h.shadow[n].items|)
    ensures h.shadow[n].tried != h.shadow[n].Ack() ==> h.queue.doubt == Some(n)
    ensures h.queue.doubt == Some(n) ==> h.queue.covered <= |At(h.queue.waiting, n)|
    ensures ExplainsLog(disk.logs[n], h.shadow[n]) && ExplainsJournal(disk.AckJournal(n), h.shadow[n])
  {
  }

  // ---------- Recovering the directory ----------

  function Insert(names: seq<Name>, n: Name): seq<Name> {
    if names == [] || Less(n, names[0]) then [n] + names else [names[0]] + Insert(names[1..], n)
  }

  lemma {:induction false} InsertSorted(names: seq<Name>, n: Name)
    requires Sorted(names) && n !in names
    ensures Sorted(Insert(names, n))
    ensures forall m :: m in Insert(names, n) <==> m in names || m == n
  {
    if names != [] && !Less(n, names[0]) {
      SortedTail(names);
      assert names[0] in names;
      InsertSorted(names[1..], n);
    }
  }

  method ListNames(all: set<Name>) returns (names: seq<Name>)
    ensures IsListing(names, all)
  {
    names := [];
    var rest := all;
    while rest != {}
      invariant Sorted(names) && rest <= all
      invariant forall n :: n in names <==> n in all && n !in rest
    {
      var n :| n in rest;
      InsertSorted(names, n);
      names := Insert(names, n);
      rest := rest - {n};
    }
  }

  /** Half-way through a restart: `kept` segments are in memory, `todo` are not. */
  ghost predicate Partial(h: History, m: Memory, kept: seq<Name>, todo: seq<Name>) {
    && h.queue.live == kept + todo
    && (forall n :: n in h.shadow ==> n in h.queue.live)
    && (forall n :: n in kept ==> n in m.segments && n in h.shadow && h.shadow[n].Ack() < |h.shadow[n].items|)
    && (forall n :: n in m.segments ==> n in kept && m.segments[n] == Summary(h.shadow[n]) && n.stamp <= m.lastStamp)
    && m.active == None && m.cleanup == None
    && m.records == All(kept, RecordMap(h.shadow))
    && (h.queue.doubt.Some? ==> h.queue.doubt.value in todo)
  }

  lemma {:induction false} PartialParts(h: History, m: Memory, kept: seq<Name>, todo: seq<Name>)
    requires Partial(h, m, kept, todo)
    ensures h.queue.live == kept + todo && m.active == None && m.cleanup == None
  {
  }

  lemma {:induction false} PartialDone(h: History, m: Memory, kept: seq<Name>)
    requires Partial(h, m, kept, [])
    ensures MemoryOk(h, m) && h.queue.live == kept && h.queue.doubt == None
  {
    hide Summary, RecordMap;
    assert kept + [] == kept;
  }

  /** Repairing a segment that is still to do changes nothing that is in memory. */
  lemma {:induction false} PartialRepaired(h: History, g: History, m: Memory, kept: seq<Name>, todo: seq<Name>, n: Name)
    requires Partial(h, m, kept, todo) && n in todo && n !in kept && n in g.shadow
    requires g.shadow == h.shadow[n := g.shadow[n]] && g.queue.live == h.queue.live && n in h.shadow
    requires g.queue.doubt in {None, h.queue.doubt}
    ensures Partial(g, m, kept, todo)
    ensures All(kept, ItemMap(g.shadow)) == All(kept, ItemMap(h.shadow))
  {
    hide Summary, RecordMap, ItemMap, SegmentRecords, Shadow.Pending;
    MapsUpdated(h.shadow, n, g.shadow[n]);
    AllSame(kept, RecordMap(h.shadow), RecordMap(g.shadow));
    AllSame(kept, ItemMap(h.shadow), ItemMap(g.shadow));
  }

  lemma {:induction false} KeptAppend(shadow: map<Name, Shadow>, kept: seq<Name>, n: Name)
    requires n in shadow
    ensures All(kept + [n], RecordMap(shadow)) == All(kept, RecordMap(shadow)) + SegmentRecords(n, shadow[n])
    ensures All(kept + [n], ItemMap(shadow)) == All(kept, ItemMap(shadow)) + shadow[n].Pending()
  {
    hide SegmentRecords, Shadow.Pending, All, RecordMap, ItemMap;
    MapsUpdated(shadow, n, shadow[n]);
    AllAppend(kept, [n], RecordMap(shadow));
    AllAppend(kept, [n], ItemMap(shadow));
    AllOne(n, RecordMap(shadow));
    AllOne(n, ItemMap(shadow));
  }

  lemma {:induction false} PartialKept(h: History, m: Memory, k: Memory, kept: seq<Name>, todo: seq<Name>, n: Name)
    requires Partial(h, m, kept, todo) && todo != [] && n == todo[0] && n in h.shadow && n !in kept
    requires h.shadow[n].Ack() < |h.shadow[n].items| && h.queue.doubt != Some(n)
    requires k == Memory(m.segments[n := Summary(h.shadow[n])], m.records + SegmentRecords(n, h.shadow[n]), None, None, k.lastStamp)
    requires m.lastStamp <= k.lastStamp && n.stamp <= k.lastStamp
    ensures Partial(h, k, kept + [n], todo[1..])
  {
    hide Summary, SegmentRecords, RecordMap, All;
    NextTodo(kept, todo);
    KeptAppend(h.shadow, kept, n);
  }

  lemma {:induction false} NextTodo(kept: seq<Name>, todo: seq<Name>)
    requires todo != []
    ensures kept + todo == (kept + [todo[0]]) + todo[1..]
    ensures forall x :: x in kept + [todo[0]] <==> x in kept || x == todo[0]
    ensures forall x :: x in todo <==> x == todo[0] || x in todo[1..]
  {
    assert todo == [todo[0]] + todo[1..];
  }

  lemma {:induction false} Separate(kept: seq<Name>, todo: seq<Name>)
    requires Sorted(kept + todo)
    ensures forall n :: n in kept && n in todo ==> false
    ensures Sorted(kept) && Sorted(todo)
  {
    var all := kept + todo;
    assert forall i :: 0 <= i < |kept| ==> all[i] == kept[i];
    assert forall i :: 0 <= i < |todo| ==> all[|kept| + i] == todo[i];
    forall i, j | 0 <= i < |kept| && 0 <= j < |todo|
      ensures kept[i] != todo[j]
    {
      assert Less(all[i], all[|kept| + j]);
    }
  }

  /** A drained segment leaves the live list before its files are deleted. */
  lemma {:induction false} DropLive(disk: Disk, h: History, kept: seq<Name>, todo: seq<Name>, n: Name)
    requires Invariant(disk, h) && h.queue.live == kept + todo && todo != [] && n == todo[0] && n in h.shadow && n !in kept
    requires h.shadow[n].Ack() == |h.shadow[n].items|
    ensures Invariant(disk, h.(queue := h.queue.(live := kept + todo[1..])))
    ensures n !in kept + todo[1..]
  {
    hide Linked, DiskOk;
    DrainedWaiting(disk, h, n);
    WithoutTodo(kept, todo);
    KeepWithout(h.queue, n);
    WithoutOk(h.queue.live, n, h.queue.waiting);
    LinkedLive(h, kept + todo[1..]);
  }

  lemma {:induction false} LinkedLive(h: History, live: seq<Name>)
    requires Linked(h.shadow, h.queue)
    ensures Linked(h.shadow, h.queue.(live := live))
  {
    hide Waiting, Covered, Shadow.Ok;
  }

  lemma {:induction false} KeptWithout(shadow: map<Name, Shadow>, kept: seq<Name>, n: Name)
    requires n !in kept
    ensures All(kept, RecordMap(shadow - {n})) == All(kept, RecordMap(shadow))
    ensures All(kept, ItemMap(shadow - {n})) == All(kept, ItemMap(shadow))
  {
    hide SegmentRecords, Shadow.Pending;
    AllSame(kept, RecordMap(shadow), RecordMap(shadow - {n}));
    AllSame(kept, ItemMap(shadow), ItemMap(shadow - {n}));
  }

  lemma {:induction false} StillListed(kept: seq<Name>, todo: seq<Name>, n: Name)
    requires todo != [] && n == todo[0] && n !in kept
    ensures forall x :: x in kept + todo && x != n ==> x in kept + todo[1..]
    ensures forall x :: x in kept ==> x != n && x in kept + todo[1..]
    ensures forall x :: x in todo && x != n ==> x in todo[1..]
  {
    NextTodo(kept, todo);
    assert forall x :: x in kept + todo[1..] <==> x in kept || x in todo[1..];
  }

  lemma {:induction false} PartialDropped(h: History, g: History, m: Memory, kept: seq<Name>, todo: seq<Name>, n: Name)
    requires Partial(h, m, kept, todo) && todo != [] && n == todo[0] && n !in kept
    requires g.shadow == h.shadow - {n} && g.queue.live == kept + todo[1..]
    requires g.queue.doubt == h.queue.doubt != Some(n)
    ensures Partial(g, m, kept, todo[1..])
    ensures All(kept, ItemMap(g.shadow)) == All(kept, ItemMap(h.shadow))
  {
    hide Summary, RecordMap, ItemMap, All;
    StillListed(kept, todo, n);
    KeptWithout(h.shadow, kept, n);
  }

  lemma {:induction false} DrainedWaiting(disk: Disk, h: History, n: Name)
    requires Invariant(disk, h) && n in h.shadow && h.shadow[n].Ack() == |h.shadow[n].items|
    ensures At(h.queue.waiting, n) == []
  {
    assert h.shadow[n].Pending() == [];
  }

  lemma {:induction false} WithoutTodo(kept: seq<Name>, todo: seq<Name>)
    requires todo != [] && todo[0] !in kept
    ensures Without(kept + todo, todo[0]) == kept + todo[1..]
  {
    if kept == [] {
      assert kept + todo == todo && kept + todo[1..] == todo[1..];
    } else {
      WithoutTodo(kept[1..], todo);
      assert (kept + todo)[1..] == kept[1..] + todo;
      assert [kept[0]] + (kept[1..] + todo[1..]) == kept + todo[1..];
    }
  }

  lemma {:induction false} PartialStamp(h: History, m: Memory, k: Memory, kept: seq<Name>, todo: seq<Name>)
    requires Partial(h, m, kept, todo) && k == m.(lastStamp := k.lastStamp) && m.lastStamp <= k.lastStamp
    ensures Partial(h, k, kept, todo)
  {
    hide Summary, RecordMap;
  }

  lemma {:induction false} LoadedEvents(n: Name, s: Shadow, lines: seq<Bytes>)
    requires Clean(s) && lines == Events(s.items)
    ensures s.Ack() <= |lines| && Events(s.Pending()) == lines[s.Ack()..] && SegmentRecords(n, s) == RecordsOf(n, lines, s.Ack())
  {
  }

  /** The records of the undelivered lines, found by adding up line lengths. */
  method ListRecords(n: Name, lines: seq<Bytes>, from: nat) returns (records: seq<Record>)
    requires from <= |lines|
    ensures records == RecordsOf(n, lines, from)
  {
    records := [];
    var offset := 0;
    assert lines[..0] == [];
    for i := 0 to |lines|
      invariant offset == |Lines(lines[..i])|
      invariant |records| == if i < from then 0 else i - from
      invariant forall k :: 0 <= k < |records| ==> records[k] == Record(n, |Lines(lines[..from + k])|, |lines[from + k]|)
    {
      if i >= from {
        records := records + [Record(n, offset, |lines[i]|)];
      }
      LinesSlice(lines, i);
      offset := offset + |lines[i]| + 1;
    }
  }

  /** Delete the next stored segment, which is drained. */
  method DropDrained(dir: SpoolDirectory, n: Name, ghost m: Memory, ghost kept: seq<Name>, ghost todo: seq<Name>) returns (ok: bool)
    requires dir.Valid() && Partial(dir.history, m, kept, todo) && todo != [] && n == todo[0] && n !in kept
    requires n in dir.history.shadow && dir.history.shadow[n].Ack() == |dir.history.shadow[n].items| && dir.history.queue.doubt != Some(n)
    modifies dir
    ensures dir.Valid() && Progress(dir) && (ok <==> dir.faults == old(dir.faults))
    ensures dir.logs in {old(dir.logs), old(dir.logs) - {n}} && dir.acks in {old(dir.acks), old(dir.acks) - {n}}
    ensures ok ==> Partial(dir.history, m, kept, todo[1..])
    ensures ok ==> All(kept, ItemMap(dir.history.shadow)) == old(All(kept, ItemMap(dir.history.shadow)))
  {
    hide Invariant, CrashSafe, SafeImages, Partial, All, ItemMap;
    ghost var g := dir.history;
    RemovedStanding(g.(queue := g.queue.(live := kept + todo[1..])), n);
    PartialParts(g, m, kept, todo);
    DropLive(dir.Now(), g, kept, todo, n);
    dir.history := g.(queue := g.queue.(live := kept + todo[1..]));
    ok := dir.DeleteSegment(n);
    if ok {
      PartialDropped(g, dir.history, m, kept, todo, n);
    }
  }

  /** Bring the next stored segment into memory, or delete it if it is drained. */
  method LoadSegment(spool: TelemetrySpool, n: Name, ghost kept: seq<Name>, ghost todo: seq<Name>)
    returns (status: Status, ghost now: seq<Name>)
    requires spool.dir.Valid() && Partial(spool.dir.history, spool.State(), kept, todo) && spool.bytes == Sizes(spool.records)
    requires todo != [] && n == todo[0] && n in spool.dir.history.shadow && n in spool.dir.logs && n !in kept
    modifies spool, spool.dir
    ensures spool.dir.Valid() && Progress(spool.dir)
    ensures forall x :: x in old(spool.dir.logs) && x != n ==> x in spool.dir.logs && spool.dir.logs[x] == old(spool.dir.logs)[x]
    ensures forall x :: x in spool.dir.logs ==> x in old(spool.dir.logs)
    ensures forall x :: x != n ==> spool.dir.Now().AckJournal(x) == old(spool.dir.Now()).AckJournal(x)
    ensures var r := RecoverFile(old(spool.dir.logs)[n], old(spool.dir.Now()).AckJournal(n));
            && (status == Refused ==> r == Corrupt) && (status == StorageError <==> spool.dir.faults > old(spool.dir.faults))
            && (status == Opened ==>
                  && Partial(spool.dir.history, spool.State(), now, todo[1..]) && spool.bytes == Sizes(spool.records)
                  && r.Recovered?
                  && Events(All(now, ItemMap(spool.dir.history.shadow))) ==
                     Events(old(All(kept, ItemMap(spool.dir.history.shadow)))) + r.lines[r.ack..])
  {
    hide Invariant, CrashSafe, SafeImages, Partial, RecoverFile, All, Lines, SegmentRecords, RecordMap, ItemMap, Sizes, RecordsOf, Shadow.Pending, Shadow.Ok, StandingOf, LedgerOf, Resolves;
    var dir := spool.dir;
    ghost var h, disk := dir.history, dir.Now();
    var segment, lines;
    now := kept;
    spool.lastStamp := if n.stamp > spool.lastStamp then n.stamp else spool.lastStamp;
    ghost var m := spool.State();
    PartialStamp(h, old(spool.State()), m, kept, todo);
    status, segment, lines := RecoverSegment(dir, n);
    if status != Opened {
      return;
    }
    ghost var g, images, before := dir.history, dir.images, dir.Now();
    assert n in todo;
    PartialRepaired(h, g, m, kept, todo, n);
    PartialParts(g, m, kept, todo);
    LoadedEvents(n, g.shadow[n], lines);
    if segment.ack == segment.count {
      var ok := DropDrained(dir, n, m, kept, todo);
      ProgressJoin(disk, h, before, g, images, dir.images, |old(dir.images)|);
      status := if ok then Opened else StorageError;
      return;
    }
    var more := ListRecords(n, lines, segment.ack);
    PartialKept(g, m, Memory(m.segments[n := segment], m.records + more, None, None, m.lastStamp), kept, todo, n);
    KeptAppend(g.shadow, kept, n);
    EventsAppend(All(kept, ItemMap(g.shadow)), g.shadow[n].Pending());
    SizesAppend(spool.records, more);
    var size := TelemetrySpool.ReleasedBytes(more);
    spool.segments := spool.segments[n := segment];
    spool.records := spool.records + more;
    spool.bytes := spool.bytes + size;
    now := kept + [n];
  }

  // ---------- Opening the directory ----------

  /** The listed files are still as they were. */
  ghost predicate Untouched(names: seq<Name>, disk: Disk, later: Disk) {
    forall n :: n in names ==>
      n in disk.logs && n in later.logs && later.logs[n] == disk.logs[n] && later.AckJournal(n) == disk.AckJournal(n)
  }

  lemma {:induction false} UntouchedRest(names: seq<Name>, disk: Disk, before: Disk, later: Disk)
    requires names != [] && Untouched(names, disk, before) && names[0] !in names[1..]
    requires forall n :: n in before.logs && n != names[0] ==> n in later.logs && later.logs[n] == before.logs[n]
    requires forall n :: n != names[0] ==> later.AckJournal(n) == before.AckJournal(n)
    ensures Untouched(names[1..], disk, later)
  {
  }

  /** `done` events have been recovered from the directory, the files in `todo` are unread. */
  ghost predicate HalfRecovered(names: seq<Name>, disk: Disk, done: seq<Event>, todo: seq<Name>) {
    && (forall n :: n in names ==> n in disk.logs) && (forall n :: n in todo ==> n in disk.logs)
    && RecoverAll(todo, disk).Some?
    && RecoverAll(names, disk) == Some(done + RecoverAll(todo, disk).value)
  }

  lemma {:induction false} HalfStart(names: seq<Name>, disk: Disk)
    requires (forall n :: n in names ==> n in disk.logs) && RecoverAll(names, disk).Some?
    ensures HalfRecovered(names, disk, [], names)
  {
    assert [] + RecoverAll(names, disk).value == RecoverAll(names, disk).value;
  }

  lemma {:induction false} HalfNext(names: seq<Name>, disk: Disk, done: seq<Event>, todo: seq<Name>)
    requires todo != [] && HalfRecovered(names, disk, done, todo)
    ensures todo[0] in disk.logs
    ensures var r := RecoverFile(disk.logs[todo[0]], disk.AckJournal(todo[0]));
            r.Recovered? && HalfRecovered(names, disk, done + r.lines[r.ack..], todo[1..])
  {
    hide RecoverFile;
    var r := RecoverFile(disk.logs[todo[0]], disk.AckJournal(todo[0]));
    Associate(done, r.lines[r.ack..], RecoverAll(todo[1..], disk).value);
  }

  lemma {:induction false} HalfDone(names: seq<Name>, disk: Disk, done: seq<Event>)
    requires HalfRecovered(names, disk, done, [])
    ensures (forall n :: n in names ==> n in disk.logs) && RecoverAll(names, disk) == Some(done)
  {
    assert done + [] == done;
  }

  lemma {:induction false} StoredNames(disk: Disk, h: History)
    requires Invariant(disk, h)
    ensures h.shadow.Keys == disk.logs.Keys == h.queue.waiting.Keys && QueueOk(h.queue)
    ensures h.queue.doubt.Some? ==> h.queue.doubt.value in h.queue.waiting
  {
    hide ExplainsLog, ExplainsJournal, Waiting, Covered, Shadow.Ok, LiveOk, All;
  }

  lemma {:induction false} NothingKept(h: History, names: seq<Name>)
    requires h.queue.live == names && (forall n :: n in h.shadow ==> n in names)
    requires h.queue.doubt.Some? ==> h.queue.doubt.value in names
    ensures Partial(h, Memory(map[], [], None, None, 0), [], names)
  {
    hide RecordMap, Summary;
    assert [] + names == names;
  }

  /** Every stored segment counts as live until it has been read. */
  lemma {:induction false} PartialStart(disk: Disk, h: History, names: seq<Name>)
    requires Invariant(disk, h) && IsListing(names, disk.logs.Keys)
    ensures Invariant(disk, h.(queue := h.queue.(live := names)))
    ensures Partial(h.(queue := h.queue.(live := names)), Memory(map[], [], None, None, 0), [], names)
    ensures Untouched(names, disk, disk) && Events(All([], ItemMap(h.shadow))) == [] && Sizes([]) == 0
  {
    hide Invariant, QueueOk, Sorted, Partial;
    StoredNames(disk, h);
    KeepListing(h.queue, names);
    KeepLive(disk, h, names);
    NothingKept(h.(queue := h.queue.(live := names)), names);
  }

  lemma {:induction false} PartialNext(disk: Disk, h: History, m: Memory, kept: seq<Name>, todo: seq<Name>)
    requires Invariant(disk, h) && Partial(h, m, kept, todo) && todo != []
    ensures todo[0] in h.shadow && todo[0] in disk.logs && todo[0] !in kept && todo[0] !in todo[1..]
  {
    hide ExplainsLog, ExplainsJournal, Waiting, Covered, Shadow.Ok, RecordMap, Summary;
    assert todo[0] in todo && todo[0] in kept + todo;
    Separate(kept, todo);
    SortedTail(todo);
    assert todo[0] in h.queue.waiting;
  }

  /** An explained directory is never refused. */
  lemma {:induction false} NeverRefused(disk: Disk, h: History, names: seq<Name>)
    requires Invariant(disk, h) && IsListing(names, disk.logs.Keys)
    ensures RecoverAll(names, disk).Some?
  {
    hide Invariant, RecoverAll;
    var k := ListingIsSafe(names, disk, h);
    var items :| RecoversTo(names, disk, items) && Accounts(items, h.queue.accepted, h.failed, h.done, k);
  }

  /** Start the Agent on an existing directory. Unless storage fails it opens, with
      exactly the events that its bytes recover to, and these account for the accepted
      and unacknowledged events of all earlier runs. */
  method Open(dir: SpoolDirectory) returns (status: Status, spool: TelemetrySpool, ghost names: seq<Name>)
    requires dir.Valid()
    modifies dir
    ensures dir.Valid() && Progress(dir) && fresh(spool) && spool.dir == dir
    ensures IsListing(names, old(dir.logs.Keys)) && status != Refused
    ensures status == StorageError <==> dir.faults > old(dir.faults)
    ensures status == Opened ==>
      && spool.Valid()
      && Accounts(spool.Contents(), dir.history.queue.accepted, dir.history.failed, dir.history.done, dir.history.queue.acked)
      && InDoubt(dir.history) == []
      && RecoverAll(names, old(dir.Now())) == Some(Events(spool.Contents()))
  {
    hide Invariant, CrashSafe, SafeImages, Partial, RecoverAll, RecoverFile, All, ItemMap, Sizes, Untouched, HalfRecovered, Sorted, Resolves, Accounts;
    ghost var h, disk := dir.history, dir.Now();
    spool := new TelemetrySpool(dir);
    NoSafeImages(dir.images, LedgerOf(h));
    ResolvesSame(StandingOf(h));
    var todo := ListNames(dir.logs.Keys);
    names := todo;
    var listed := dir.Read();
    if !listed {
      status := StorageError;
      return;
    }
    NeverRefused(disk, h, names);
    PartialStart(disk, h, names);
    HalfStart(names, disk);
    dir.history := h.(queue := h.queue.(live := names));
    ghost var kept: seq<Name> := [];
    while todo != []
      invariant spool.dir == dir && dir.Valid() && Progress(dir) && fresh(spool) && dir.faults == old(dir.faults)
      invariant Partial(dir.history, spool.State(), kept, todo) && spool.bytes == Sizes(spool.records)
      invariant Untouched(todo, disk, dir.Now())
      invariant HalfRecovered(names, disk, Events(All(kept, ItemMap(dir.history.shadow))), todo)
      decreases |todo|
    {
      PartialNext(dir.Now(), dir.history, spool.State(), kept, todo);
      HalfNext(names, disk, Events(All(kept, ItemMap(dir.history.shadow))), todo);
      UntouchedFirst(todo, disk, dir.Now());
      ghost var images, g, before := dir.images, dir.history, dir.Now();
      status, kept := LoadSegment(spool, todo[0], kept, todo);
      ProgressJoin(disk, h, before, g, images, dir.images, |old(dir.images)|);
      if status != Opened {
        return;
      }
      UntouchedRest(todo, disk, before, dir.Now());
      todo := todo[1..];
    }
    status := Opened;
    HalfDone(names, disk, Events(All(kept, ItemMap(dir.history.shadow))));
    PartialParts(dir.history, spool.State(), kept, []);
    PartialDone(dir.history, spool.State(), kept);
    ReachIs(dir.Now(), dir.history);
    PendingAccounts(dir.Now(), dir.history);
  }

  lemma {:induction false} UntouchedFirst(names: seq<Name>, disk: Disk, later: Disk)
    requires names != [] && Untouched(names, disk, later)
    ensures var n := names[0];
            n in disk.logs && n in later.logs && later.logs[n] == disk.logs[n] && later.AckJournal(n) == disk.AckJournal(n)
  {
  }

  // ---------- Releasing an idle spool ----------

  lemma {:induction false} LiveHasRecords(h: History, m: Memory)
    requires MemoryOk(h, m)
    ensures h.queue.live != [] ==> m.records != []
  {
    if h.queue.live != [] {
      assert h.queue.live[0] in h.queue.live;
      assert |SegmentRecords(h.queue.live[0], h.shadow[h.queue.live[0]])| > 0;
    }
  }

  lemma {:induction false} NothingLive(h: History, m: Memory, n: Name)
    requires MemoryOk(h, m) && m.records == [] && m.active == Some(n)
    ensures n in m.segments && n !in h.queue.live && m.segments[n].ack == m.segments[n].count
  {
    LiveHasRecords(h, m);
  }

  /** Neither file of this segment is left, nor can the segment come back. */
  predicate Cleared(dir: SpoolDirectory, n: Option<Name>)
    reads dir
  {
    n.Some? ==> n.value !in dir.logs && n.value !in dir.acks && n.value !in dir.gone
  }

  /** When nothing waits, delete the drained segments that are left. A failure may leave the
      memory behind the directory, but the directory stays explained. */
  method ReleaseIdle(spool: TelemetrySpool) returns (ok: bool)
    requires spool.Valid()
    modifies spool, spool.dir
    ensures spool.dir.Valid() && Progress(spool.dir)
    ensures ok <==> spool.dir.faults == old(spool.dir.faults)
    ensures ok ==> spool.Valid() && spool.Contents() == old(spool.Contents())
    ensures ok && old(spool.records) == [] ==>
      spool.active == None && spool.cleanup == None && Cleared(spool.dir, old(spool.active)) && Cleared(spool.dir, old(spool.cleanup))
    ensures old(spool.records) != [] ==> ok && spool.dir.Now() == old(spool.dir.Now())
  {
    hide Invariant, CrashSafe, SafeImages, MemoryOk, Pending, Sizes;
    var dir := spool.dir;
    ghost var g := LedgerOf(dir.history);
    NoSafeImages(dir.images, g);
    ok := true;
    if spool.records != [] {
      return;
    }
    KeepNoCleanup(dir.history, spool.State());
    if spool.cleanup.Some? {
      ok := spool.RemoveSegment(spool.cleanup.value);
      if !ok {
        return;
      }
      KeepNoCleanup(dir.history, spool.State());
      spool.cleanup := None;
    }
    if spool.active.Some? {
      ghost var images := dir.images;
      var n := spool.active.value;
      NothingLive(dir.history, spool.State(), n);
      ok := spool.segments[n].ack == spool.segments[n].count;
      if ok {
        DoubtIsLive(dir.history, spool.State(), n);
        KeepInactive(dir.history, spool.State());
        KeepForgotten(dir.history, spool.State().(active := None), n);
        RemovedStanding(dir.history, n);
        ok := dir.DeleteSegment(n);
        SafeImagesJoin(images, dir.images, |old(dir.images)|, g);
        if ok {
          spool.active := None;
        }
      }
    }
  }
}
