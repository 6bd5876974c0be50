/** How each storage step of the spool extends the history that explains its
    directory: one lemma per step, each keeping SpoolRecovery.Invariant. */
module SpoolHistory {
  import opened TelemetryCodec
  import opened Wrappers
  import opened Sequences
  import opened DeliveryQueue
  import opened SpoolRecovery

  // ---------- One segment at a time ----------

  lemma {:induction false} LinkUpdate(shadow: map<Name, Shadow>, q: Queue<Item>, n: Name, s: Shadow, p: Queue<Item>)
    requires Linked(shadow, q)
    requires s.Ok() && p.waiting == q.waiting[n := Waiting(s)]
    requires || (p.doubt == q.doubt && p.covered == q.covered)
             || (q.doubt in {None, Some(n)} && p.doubt in {None, Some(n)})
    requires s.tried != s.Ack() ==> p.doubt == Some(n)
    requires p.doubt == Some(n) ==> p.covered == Covered(s)
    ensures Linked(shadow[n := s], p)
  {
    hide Shadow.Ok, Waiting, Covered;
  }

  lemma {:induction false} LogUpdate(disk: Disk, shadow: map<Name, Shadow>, n: Name, s: Shadow, log: Bytes)
    requires DiskOk(disk, shadow)
    requires ExplainsLog(log, s) && ExplainsJournal(disk.AckJournal(n), s)
    ensures DiskOk(disk.(logs := disk.logs[n := log]), shadow[n := s])
  {
    hide ExplainsLog, ExplainsJournal;
  }

  lemma {:induction false} AckUpdate(disk: Disk, shadow: map<Name, Shadow>, n: Name, s: Shadow, journal: Bytes)
    requires DiskOk(disk, shadow) && n in shadow
    requires ExplainsLog(disk.logs[n], s) && ExplainsJournal(journal, s)
    ensures DiskOk(disk.(acks := disk.acks[n := journal]), shadow[n := s])
  {
    hide ExplainsLog, ExplainsJournal;
  }

  lemma {:induction false} NoUpdate(disk: Disk, shadow: map<Name, Shadow>, n: Name, s: Shadow)
    requires DiskOk(disk, shadow) && n in shadow
    requires ExplainsLog(disk.logs[n], s) && ExplainsJournal(disk.AckJournal(n), s)
    ensures DiskOk(disk, shadow[n := s])
  {
    hide ExplainsLog, ExplainsJournal;
  }

  /** The facts about one segment that its neighbours do not disturb. */
  lemma {:induction false} SegmentAt(disk: Disk, h: History, n: Name)
    requires Invariant(disk, h) && n in h.shadow
    ensures n in disk.logs && n in h.queue.waiting && At(h.queue.waiting, n) == Waiting(h.shadow[n])
    ensures h.shadow[n].Ok() && h.queue.waiting == h.queue.waiting[n := Waiting(h.shadow[n])]
    ensures ExplainsLog(disk.logs[n], h.shadow[n]) && ExplainsJournal(disk.AckJournal(n), h.shadow[n])
    ensures h.shadow[n].tried != h.shadow[n].Ack() ==> h.queue.doubt == Some(n)
    ensures h.queue.doubt == Some(n) ==> h.queue.covered == Covered(h.shadow[n])
  {
    hide QueueOk, Shadow.Ok, ExplainsLog, ExplainsJournal, Waiting, Covered;
  }

  // ---------- Origins ----------

  /** Failed batches are only ever added, each with the segment it was meant for. */
  ghost predicate Grows(failed: seq<seq<Event>>, owner: seq<Name>, more: seq<seq<Event>>, owners: seq<Name>) {
    failed <= more && owner <= owners && |more| == |owners|
  }

  lemma {:induction false} TracedMore(n: Name, s: Shadow, failed: seq<seq<Event>>, owner: seq<Name>, more: seq<seq<Event>>, owners: seq<Name>)
    requires Traced(n, s, failed, owner) && Grows(failed, owner, more, owners)
    ensures Traced(n, s, more, owners)
  {
    hide Genuine;
    GenuineMore(s.items, failed, more);
  }

  /** Tracing looks at nothing but the items and the stray batch. */
  lemma {:induction false} TracedSame(n: Name, s: Shadow, t: Shadow, failed: seq<seq<Event>>, owner: seq<Name>)
    requires Traced(n, s, failed, owner) && t.items == s.items && t.stray == s.stray && t.batch == s.batch
    ensures Traced(n, t, failed, owner)
  {
    hide Genuine, Owned;
  }

  lemma {:induction false} OriginsUpdate(h: History, n: Name, s: Shadow, accepted: seq<Item>, more: seq<seq<Event>>, owners: seq<Name>)
    requires OriginsOk(h.shadow, h.queue.accepted, h.failed, h.owner)
    requires Grows(h.failed, h.owner, more, owners) && Traced(n, s, more, owners) && Numbered(accepted)
    ensures OriginsOk(h.shadow[n := s], accepted, more, owners)
  {
    hide Traced, Numbered, Grows;
    GrowsLength(h.failed, h.owner, more, owners);
    forall m | m in h.shadow && m != n
      ensures Traced(m, h.shadow[m], more, owners)
    {
      TracedMore(m, h.shadow[m], h.failed, h.owner, more, owners);
    }
  }

  lemma {:induction false} GrowsLength(failed: seq<seq<Event>>, owner: seq<Name>, more: seq<seq<Event>>, owners: seq<Name>)
    requires Grows(failed, owner, more, owners)
    ensures |more| == |owners|
  {
  }

  /** A step that changes no segment that may come back leaves those explained. */
  lemma {:induction false} GhostsKept(disk: Disk, later: Disk, h: History, more: seq<seq<Event>>, owners: seq<Name>)
    requires GhostsOk(disk, h.ghosts, h.failed, h.owner) && Grows(h.failed, h.owner, more, owners)
    requires later.gone == disk.gone
    requires forall n :: n in disk.gone ==> n !in later.logs && later.AckJournal(n) == disk.AckJournal(n)
    ensures GhostsOk(later, h.ghosts, more, owners)
  {
    hide Traced, Explains, Waiting, Grows, Shadow.Ack;
    forall n | n in disk.gone
      ensures GhostOk(n, later.gone[n], later.AckJournal(n), h.ghosts[n], more, owners)
    {
      TracedMore(n, h.ghosts[n], h.failed, h.owner, more, owners);
    }
  }

  lemma {:induction false} SameRecord(h: History)
    requires |h.owner| == |h.failed|
    ensures Grows(h.failed, h.owner, h.failed, h.owner)
  {
  }

  lemma {:induction false} OriginsAt(disk: Disk, h: History)
    requires Invariant(disk, h)
    ensures OriginsOk(h.shadow, h.queue.accepted, h.failed, h.owner) && GhostsOk(disk, h.ghosts, h.failed, h.owner)
    ensures Numbered(h.queue.accepted) && |h.owner| == |h.failed| && h.shadow.Keys == disk.logs.Keys
    ensures forall n :: n in h.shadow ==> n !in disk.gone && Traced(n, h.shadow[n], h.failed, h.owner)
    ensures DoneOk(h.shadow, h.ghosts, h.failed, h.done) && forall n :: n in h.shadow ==> Spared(h.shadow[n], h.done)
  {
    hide HistoryOk, ExplainsLog, ExplainsJournal, Traced, GhostOk, Numbered, Spared;
  }

  // ---------- What is acknowledged ----------

  lemma {:induction false} DoneUpdate(h: History, n: Name, s: Shadow, more: seq<seq<Event>>)
    requires DoneOk(h.shadow, h.ghosts, h.failed, h.done) && |h.failed| <= |more| && Spared(s, h.done)
    ensures DoneOk(h.shadow[n := s], h.ghosts, more, h.done) && DoneOk(h.shadow, h.ghosts, more, h.done)
  {
    hide Spared;
  }

  lemma {:induction false} SparedSame(s: Shadow, t: Shadow, done: set<Origin>)
    requires Spared(s, done) && t.items == s.items && t.acks == s.acks && t.stray == s.stray && t.batch == s.batch
    ensures Spared(t, done)
  {
  }

  /** The batch of a new append has a number that nothing acknowledged has. */
  lemma {:induction false} SparedStray(h: History, s: Shadow, events: seq<Event>)
    requires DoneOk(h.shadow, h.ghosts, h.failed, h.done) && Spared(s, h.done)
    ensures Spared(Behind(s, events, |h.failed|), h.done)
  {
  }

  ghost predicate SourceSpared(h: History, events: seq<Event>, source: Source) {
    events != [] && source.Batch? ==> forall i :: Unconfirmed(source.number, i) !in h.done
  }

  lemma {:induction false} TagSpared(h: History, events: seq<Event>, source: Source)
    requires DoneOk(h.shadow, h.ghosts, h.failed, h.done) && SourceSpared(h, events, source)
    ensures Spares(Tag(events, source), h.done)
  {
    hide Spared;
  }

  lemma {:induction false} SparedMore(h: History, s: Shadow, events: seq<Event>, source: Source)
    requires DoneOk(h.shadow, h.ghosts, h.failed, h.done) && SourceSpared(h, events, source)
    requires s.Ack() <= |s.items| && Spared(s, h.done)
    ensures Spared(Longer(s, events, source), h.done)
  {
    hide DoneOk, Tag, Spares, SourceSpared;
    TagSpared(h, events, source);
    DropHead(s.items, Tag(events, source), s.Ack());
    SparesAppend(s.Pending(), Tag(events, source), h.done);
  }

  lemma {:induction false} SparedSingle(h: History, events: seq<Event>, confirmed: bool)
    requires DoneOk(h.shadow, h.ghosts, h.failed, h.done)
    ensures Spared(Single(events, NewSource(h, confirmed)), h.done)
  {
    hide Spared, Tag;
    TagSpared(h, events, NewSource(h, confirmed));
    SingleSpared(events, NewSource(h, confirmed), h.done);
  }

  lemma {:induction false} SingleSpared(events: seq<Event>, source: Source, done: set<Origin>)
    requires Spares(Tag(events, source), done)
    ensures Spared(Single(events, source), done)
  {
    hide Tag;
    assert Single(events, source).Pending() == Tag(events, source);
  }

  /** What one segment acknowledges is in no other. */
  lemma {:induction false} ClaimedElsewhere(n: Name, s: Shadow, m: Name, t: Shadow, failed: seq<seq<Event>>, owner: seq<Name>, done: set<Origin>)
    requires Traced(n, s, failed, owner) && Traced(m, t, failed, owner) && m != n && Spared(t, done)
    ensures Spared(t, done + Unaccepted(Claimed(s)))
  {
    hide Genuine, Named;
    assert forall o :: o in Unaccepted(Claimed(s)) ==> o.batch < |owner| && owner[o.batch] == n;
    assert forall i :: 0 <= i < |t.Pending()| ==> t.Pending()[i] in t.items;
  }

  /** What a segment acknowledges is not behind it in the same segment. */
  lemma {:induction false} ClaimedHere(n: Name, s: Shadow, failed: seq<seq<Event>>, owner: seq<Name>, done: set<Origin>)
    requires Traced(n, s, failed, owner) && Spared(s, done) && s.Ack() <= s.tried <= |s.items|
    ensures Spared(s.(acks := s.acks + [s.tried]), done + Unaccepted(Claimed(s)))
  {
    hide Named;
    var t := s.(acks := s.acks + [s.tried]);
    forall i | 0 <= i < |t.Pending()|
      ensures t.Pending()[i].origin !in done + Unaccepted(Claimed(s))
    {
      assert t.Pending()[i] == s.items[s.tried + i] == s.Pending()[s.tried - s.Ack() + i];
    }
  }

  lemma {:induction false} DoneSettled(h: History, n: Name)
    requires DoneOk(h.shadow, h.ghosts, h.failed, h.done) && OriginsOk(h.shadow, h.queue.accepted, h.failed, h.owner)
    requires n in h.shadow && n !in h.ghosts && h.shadow[n].Ack() <= h.shadow[n].tried <= |h.shadow[n].items|
    requires forall m :: m in h.ghosts ==> Traced(m, h.ghosts[m], h.failed, h.owner)
    ensures var s := h.shadow[n];
            DoneOk(h.shadow[n := s.(acks := s.acks + [s.tried])], h.ghosts, h.failed, h.done + Unaccepted(Claimed(s)))
  {
    hide Spared, Numbered, Claimed;
    var s := h.shadow[n];
    ClaimedNumbers(n, s, h.failed, h.owner);
    hide Traced, Unaccepted;
    ClaimedHere(n, s, h.failed, h.owner, h.done);
    forall m | m in h.shadow && m != n
      ensures Spared(h.shadow[m], h.done + Unaccepted(Claimed(s)))
    {
      ClaimedElsewhere(n, s, m, h.shadow[m], h.failed, h.owner, h.done);
    }
    forall m | m in h.ghosts
      ensures Spared(h.ghosts[m], h.done + Unaccepted(Claimed(s)))
    {
      ClaimedElsewhere(n, s, m, h.ghosts[m], h.failed, h.owner, h.done);
    }
  }

  lemma {:induction false} ClaimedNumbers(n: Name, s: Shadow, failed: seq<seq<Event>>, owner: seq<Name>)
    requires Traced(n, s, failed, owner)
    ensures forall o :: o in Unaccepted(Claimed(s)) ==> o.Unconfirmed? && o.batch < |failed|
  {
  }

  lemma {:induction false} GhostsTraced(disk: Disk, h: History)
    requires GhostsOk(disk, h.ghosts, h.failed, h.owner)
    ensures forall m :: m in h.ghosts ==> m in disk.gone && Traced(m, h.ghosts[m], h.failed, h.owner)
  {
    hide Traced, Explains, Waiting;
  }

  // ---------- Failed batches ----------

  /** A batch was refused before anything reached the disk. */
  function Refused(h: History, n: Name, events: seq<Event>): History {
    h.(failed := h.failed + [events], owner := h.owner + [n])
  }

  lemma {:induction false} RefusedRecord(h: History, n: Name, events: seq<Event>)
    requires |h.owner| == |h.failed|
    ensures Grows(h.failed, h.owner, h.failed + [events], h.owner + [n])
  {
  }

  lemma {:induction false} KeepRefused(disk: Disk, h: History, n: Name, events: seq<Event>)
    requires Invariant(disk, h)
    ensures Invariant(disk, Refused(h, n, events))
  {
    hide Linked, QueueOk, DiskOk, Traced, Numbered, GhostsOk, Spared;
    OriginsAt(disk, h);
    var g := Refused(h, n, events);
    GhostsKept(disk, disk, h, g.failed, g.owner);
    forall m | m in h.shadow
      ensures Traced(m, h.shadow[m], g.failed, g.owner)
    {
      TracedMore(m, h.shadow[m], h.failed, h.owner, g.failed, g.owner);
    }
  }

  /** Segment s with a new batch in doubt, under the next number. */
  lemma {:induction false} TracedStray(n: Name, s: Shadow, failed: seq<seq<Event>>, owner: seq<Name>, events: seq<Event>)
    requires Traced(n, s, failed, owner) && |owner| == |failed|
    ensures Traced(n, s.(stray := events, batch := |failed|), failed + [events], owner + [n])
  {
    hide Genuine;
    GenuineMore(s.items, failed, failed + [events]);
  }

  lemma {:induction false} TracedAccepted(n: Name, s: Shadow, failed: seq<seq<Event>>, owner: seq<Name>, events: seq<Event>, from: nat)
    requires Traced(n, s, failed, owner)
    ensures Traced(n, Longer(s, events, AcceptedFrom(from)), failed, owner)
  {
    hide Named;
    var more := Tag(events, AcceptedFrom(from));
    AcceptedGenuine(events, failed, from);
    GenuineAppend(s.items, more, failed);
    hide Genuine;
  }

  lemma {:induction false} AcceptedGenuine(events: seq<Event>, failed: seq<seq<Event>>, from: nat)
    ensures Genuine(Tag(events, AcceptedFrom(from)), failed)
  {
  }

  lemma {:induction false} TracedAdopted(n: Name, s: Shadow, failed: seq<seq<Event>>, owner: seq<Name>, j: nat)
    requires Traced(n, s, failed, owner) && j <= |s.stray|
    ensures Traced(n, Longer(s, s.stray[..j], Batch(s.batch)), failed, owner)
  {
    TracedLonger(n, s, failed, owner, 0, j);
    assert s.items[0..] == s.items;
    hide Genuine, Owned;
  }

  /** A segment that holds one batch. */
  function Single(events: seq<Event>, source: Source): Shadow {
    Shadow(Tag(events, source), [], 0, [], 0)
  }

  lemma {:induction false} TracedSingle(n: Name, failed: seq<seq<Event>>, owner: seq<Name>, events: seq<Event>, source: Source)
    requires source.Batch? ==> source.number < |failed| && source.number < |owner| && failed[source.number] == events && owner[source.number] == n
    ensures Traced(n, Single(events, source), failed, owner)
  {
    if source.Batch? {
      GenuineTag(events, |events|, failed, owner, n, source.number);
      assert events[..|events|] == events;
      hide Genuine, Owned;
    } else {
      AcceptedGenuine(events, failed, source.index);
      hide Genuine;
    }
  }

  lemma {:induction false} NumberedMore(accepted: seq<Item>, events: seq<Event>)
    requires Numbered(accepted)
    ensures Numbered(accepted + Tag(events, AcceptedFrom(|accepted|)))
  {
  }

  // ---------- Appending ----------

  /** An append of `events` to segment n may have left part of them behind. */
  function Stray(h: History, n: Name, events: seq<Event>): History
    requires n in h.shadow
  {
    Refused(h, n, events).(shadow := h.shadow[n := Behind(h.shadow[n], events, |h.failed|)])
  }

  /** Segment s with an append in doubt. */
  function Behind(s: Shadow, events: seq<Event>, batch: nat): Shadow {
    s.(stray := events, batch := batch)
  }

  lemma {:induction false} StraySegment(log: Bytes, journal: Bytes, s: Shadow, events: seq<Event>, batch: nat, k: nat)
    requires s.Ok() && ExplainsLog(log, s) && ExplainsJournal(journal, s)
    requires Storable(events) && |Lines(Events(s.items))| + |Lines(events)| <= SEGMENT_LIMIT && k <= |Lines(events)|
    ensures |Lines(Events(s.items))| <= |log|
    ensures Behind(s, events, batch).Ok()
    ensures Waiting(Behind(s, events, batch)) == Waiting(s) && Covered(Behind(s, events, batch)) == Covered(s)
    ensures ExplainsLog(log[..|Lines(Events(s.items))|] + Lines(events)[..k], Behind(s, events, batch))
    ensures ExplainsJournal(journal, Behind(s, events, batch))
  {
    var size := |Lines(Events(s.items))|;
    var more := log[..size] + Lines(events)[..k];
    assert more[..size] == Lines(Events(s.items)) && more[size..] == Lines(events)[..k];
  }

  lemma {:induction false} KeepStray(disk: Disk, h: History, n: Name, events: seq<Event>, k: nat)
    requires Invariant(disk, h) && n in h.shadow && Storable(events)
    requires |Lines(Events(h.shadow[n].items))| + |Lines(events)| <= SEGMENT_LIMIT
    requires k <= |Lines(events)|
    ensures n in disk.logs && |Lines(Events(h.shadow[n].items))| <= |disk.logs[n]|
    ensures Invariant(disk.(logs := disk.logs[n := disk.logs[n][..|Lines(Events(h.shadow[n].items))|] + Lines(events)[..k]]), Stray(h, n, events))
  {
    hide Linked, DiskOk, QueueOk, Shadow.Ok, ExplainsLog, ExplainsJournal, Waiting, Covered, Lines, Frame, Journal, OriginsOk, GhostsOk, DoneOk, Spared, Traced, Numbered, Grows;
    var s := h.shadow[n];
    SegmentAt(disk, h, n);
    StraySegment(disk.logs[n], disk.AckJournal(n), s, events, |h.failed|, k);
    OriginsAt(disk, h);
    RefusedRecord(h, n, events);
    TracedStray(n, s, h.failed, h.owner, events);
    var t, g := Behind(s, events, |h.failed|), Stray(h, n, events);
    LinkUpdate(h.shadow, h.queue, n, t, h.queue);
    OriginsUpdate(h, n, t, h.queue.accepted, g.failed, g.owner);
    SparedStray(h, s, events);
    DoneUpdate(h, n, t, g.failed);
    GhostsKept(disk, disk.(logs := disk.logs[n := disk.logs[n][..|Lines(Events(s.items))|] + Lines(events)[..k]]), h, g.failed, g.owner);
    LogUpdate(disk, h.shadow, n, t, disk.logs[n][..|Lines(Events(s.items))|] + Lines(events)[..k]);
  }

  /** The append to segment n reported success. */
  function Appended(h: History, n: Name, events: seq<Event>): History
    requires n in h.shadow
  {
    var s := h.shadow[n];
    var source := AcceptedFrom(|h.queue.accepted|);
    h.(shadow := h.shadow[n := Longer(s, events, source)], queue := Accept(h.queue, n, Tag(events, source)))
  }

  lemma {:induction false} AppendedFile(log: Bytes, journal: Bytes, s: Shadow, events: seq<Event>, source: Source)
    requires s.Ok() && ExplainsLog(log, s) && ExplainsJournal(journal, s)
    requires Storable(events) && |Lines(Events(s.items))| + |Lines(events)| <= SEGMENT_LIMIT
    ensures |Lines(Events(s.items))| <= |log|
    ensures ExplainsLog(log[..|Lines(Events(s.items))|] + Lines(events), Longer(s, events, source))
    ensures ExplainsJournal(journal, Longer(s, events, source))
  {
    LongerEvents(s, events, source);
    var more := log[..|Lines(Events(s.items))|] + Lines(events);
    assert more[..|more|] == more && more[|more|..] == [];
  }

  /** Segment s with more items behind it and no append in doubt. */
  function Longer(s: Shadow, events: seq<Event>, source: Source): Shadow {
    s.(items := s.items + Tag(events, source), stray := [])
  }

  lemma {:induction false} LongerEvents(s: Shadow, events: seq<Event>, source: Source)
    requires Storable(Events(s.items)) && Storable(events)
    ensures Events(Longer(s, events, source).items) == Events(s.items) + events
    ensures Lines(Events(s.items) + events) == Lines(Events(s.items)) + Lines(events)
    ensures Storable(Events(s.items) + events)
    ensures Lines([]) == [] && Storable([])
  {
    EventsAppend(s.items, Tag(events, source));
    ConfirmedTag(events, source);
    LinesAppend(Events(s.items), events);
  }

  lemma {:induction false} LongerSegment(s: Shadow, events: seq<Event>, source: Source)
    requires s.Ok() && Storable(events) && |Lines(Events(s.items))| + |Lines(events)| <= SEGMENT_LIMIT
    ensures Longer(s, events, source).Ok()
    ensures Waiting(Longer(s, events, source)) == Waiting(s) + if source.AcceptedFrom? then Tag(events, source) else []
    ensures Covered(Longer(s, events, source)) == Covered(s)
  {
    hide Lines, Confirmed, Storable, Events, Tag;
    var more := Tag(events, source);
    LongerEvents(s, events, source);
    DropHead(s.items, more, s.Ack());
    SliceHead(s.items, more, s.Ack(), s.tried);
    ConfirmedAppend(s.Pending(), more);
    ConfirmedTag(events, source);
  }

  lemma {:induction false} KeepAppended(disk: Disk, h: History, n: Name, events: seq<Event>)
    requires Invariant(disk, h) && n in h.shadow && Newest(h.queue, n)
    requires Storable(events) && |Lines(Events(h.shadow[n].items))| + |Lines(events)| <= SEGMENT_LIMIT
    ensures n in disk.logs && |Lines(Events(h.shadow[n].items))| <= |disk.logs[n]|
    ensures Invariant(disk.(logs := disk.logs[n := disk.logs[n][..|Lines(Events(h.shadow[n].items))|] + Lines(events)]), Appended(h, n, events))
  {
    hide Linked, DiskOk, QueueOk, Shadow.Ok, ExplainsLog, ExplainsJournal, Waiting, Covered, Lines, Frame, Journal, OriginsOk, GhostsOk, DoneOk, Spared, Traced, Numbered, Grows, Tag;
    var s, source := h.shadow[n], AcceptedFrom(|h.queue.accepted|);
    SegmentAt(disk, h, n);
    OriginsAt(disk, h);
    SameRecord(h);
    LongerSegment(s, events, source);
    AppendedFile(disk.logs[n], disk.AckJournal(n), s, events, source);
    TracedAccepted(n, s, h.failed, h.owner, events, |h.queue.accepted|);
    NumberedMore(h.queue.accepted, events);
    var g, log := Appended(h, n, events), disk.logs[n][..|Lines(Events(s.items))|] + Lines(events);
    KeepAccept(h.queue, n, Tag(events, source));
    LinkUpdate(h.shadow, h.queue, n, g.shadow[n], g.queue);
    OriginsUpdate(h, n, g.shadow[n], g.queue.accepted, h.failed, h.owner);
    InRange(s);
    SparedMore(h, s, events, source);
    DoneUpdate(h, n, g.shadow[n], h.failed);
    GhostsKept(disk, disk.(logs := disk.logs[n := log]), h, h.failed, h.owner);
    LogUpdate(disk, h.shadow, n, g.shadow[n], log);
  }

  function NewSource(h: History, confirmed: bool): Source {
    if confirmed then AcceptedFrom(|h.queue.accepted|) else Batch(|h.failed|)
  }

  /** A new segment file may have been created, or certainly was. */
  function Created(h: History, n: Name, events: seq<Event>, confirmed: bool): History {
    var s := Single(events, NewSource(h, confirmed));
    if confirmed then h.(shadow := h.shadow[n := s], queue := Accept(h.queue, n, s.items))
    else Refused(h, n, events).(shadow := h.shadow[n := s], queue := h.queue.(waiting := h.queue.waiting[n := []]))
  }

  lemma {:induction false} WholeFile(log: Bytes, s: Shadow)
    requires log == Lines(Events(s.items)) && s.acks == [] && s.tried == 0
    ensures ExplainsLog(log, s) && ExplainsJournal([], s)
  {
    hide Lines, Events, Frame;
    assert log[..|log|] == log && log[|log|..] == [];
    assert Journal([]) == [];
  }

  lemma {:induction false} NewSegment(events: seq<Event>, source: Source)
    requires Storable(events) && |Lines(events)| <= SEGMENT_LIMIT
    ensures Single(events, source).Ok()
    ensures Waiting(Single(events, source)) == if source.AcceptedFrom? then Tag(events, source) else []
    ensures Explains(Lines(events), [], Single(events, source))
  {
    var s := Single(events, source);
    ConfirmedTag(events, source);
    assert Lines([]) == [] && Storable([]);
    assert s.Pending() == s.items;
    hide Lines, Confirmed, Events, Tag, Storable, ExplainsLog, ExplainsJournal;
    WholeFile(Lines(events), s);
  }

  /** The queue and the record of failed batches with a new segment. */
  lemma {:induction false} CreatedParts(disk: Disk, h: History, n: Name, events: seq<Event>, confirmed: bool)
    requires Invariant(disk, h) && n !in disk.logs && (confirmed ==> Newest(h.queue, n))
    ensures var g := Created(h, n, events, confirmed);
            && QueueOk(g.queue) && Grows(h.failed, h.owner, g.failed, g.owner) && Numbered(g.queue.accepted)
            && Traced(n, g.shadow[n], g.failed, g.owner)
  {
    hide Linked, DiskOk, QueueOk, GhostsOk, Traced, Numbered, Tag, Newest;
    NotYet(disk, h, n);
    OriginsAt(disk, h);
    var g := Created(h, n, events, confirmed);
    TracedSingle(n, g.failed, g.owner, events, NewSource(h, confirmed));
    if confirmed {
      NumberedMore(h.queue.accepted, events);
      KeepAccept(h.queue, n, g.shadow[n].items);
    } else {
      KeepQuiet(h.queue, n);
    }
  }

  lemma {:induction false} KeepCreated(disk: Disk, h: History, n: Name, events: seq<Event>, confirmed: bool)
    requires Invariant(disk, h) && n !in disk.logs && n !in disk.acks && n !in disk.gone
    requires Storable(events) && |Lines(events)| <= SEGMENT_LIMIT
    requires confirmed ==> Newest(h.queue, n)
    ensures Invariant(disk.(logs := disk.logs[n := Lines(events)]), Created(h, n, events, confirmed))
  {
    hide Linked, DiskOk, QueueOk, Shadow.Ok, ExplainsLog, ExplainsJournal, Waiting, Covered, Lines, Frame, Journal, OriginsOk, GhostsOk, DoneOk, Spared, Traced, Numbered, Grows, Tag;
    NewSegment(events, NewSource(h, confirmed));
    NotYet(disk, h, n);
    OriginsAt(disk, h);
    CreatedParts(disk, h, n, events, confirmed);
    var g := Created(h, n, events, confirmed);
    assert [] + g.shadow[n].items == g.shadow[n].items;
    LinkUpdate(h.shadow, h.queue, n, g.shadow[n], g.queue);
    OriginsUpdate(h, n, g.shadow[n], g.queue.accepted, g.failed, g.owner);
    SparedSingle(h, events, confirmed);
    DoneUpdate(h, n, g.shadow[n], g.failed);
    GhostsKept(disk, disk.(logs := disk.logs[n := Lines(events)]), h, g.failed, g.owner);
    LogUpdate(disk, h.shadow, n, g.shadow[n], Lines(events));
  }

  lemma {:induction false} InRange(s: Shadow)
    requires s.Ok()
    ensures s.Ack() <= s.tried <= |s.items|
  {
  }

  lemma {:induction false} NotYet(disk: Disk, h: History, n: Name)
    requires Invariant(disk, h) && n !in disk.logs
    ensures n !in h.shadow && n !in h.queue.waiting && h.queue.doubt != Some(n) && At(h.queue.waiting, n) == []
  {
  }

  // ---------- Acknowledging ----------

  /** Acknowledging a segment changes neither what it holds nor what may come back. */
  lemma {:induction false} JournalKept(disk: Disk, h: History, n: Name, t: Shadow, journal: Bytes)
    requires Invariant(disk, h) && n in h.shadow
    requires t.items == h.shadow[n].items && t.stray == h.shadow[n].stray && t.batch == h.shadow[n].batch
    ensures OriginsOk(h.shadow[n := t], h.queue.accepted, h.failed, h.owner)
    ensures GhostsOk(disk, h.ghosts, h.failed, h.owner)
    ensures GhostsOk(disk.(acks := disk.acks[n := journal]), h.ghosts, h.failed, h.owner)
    ensures t.acks == h.shadow[n].acks ==> DoneOk(h.shadow[n := t], h.ghosts, h.failed, h.done)
  {
    hide Invariant, OriginsOk, GhostsOk, DoneOk, Spared, Traced, Numbered, Grows;
    OriginsAt(disk, h);
    SameRecord(h);
    TracedSame(n, h.shadow[n], t, h.failed, h.owner);
    OriginsUpdate(h, n, t, h.queue.accepted, h.failed, h.owner);
    GhostsKept(disk, disk.(acks := disk.acks[n := journal]), h, h.failed, h.owner);
    if t.acks == h.shadow[n].acks {
      SparedSame(h.shadow[n], t, h.done);
      DoneUpdate(h, n, t, h.failed);
    }
  }

  /** An acknowledgement up to `next` of the first live segment may be written. */
  function Tried(h: History, next: nat): History
    requires h.queue.live != [] && h.queue.live[0] in h.shadow
  {
    var n := h.queue.live[0];
    var t := h.shadow[n].(tried := next);
    h.(shadow := h.shadow[n := t], queue := Try(h.queue, Covered(t)))
  }

  lemma {:induction false} TriedSegment(s: Shadow, next: nat)
    requires s.Ok() && s.Ack() < next <= |s.items|
    ensures s.(tried := next).Ok() && Waiting(s.(tried := next)) == Waiting(s)
    ensures Covered(s.(tried := next)) <= |Waiting(s)|
  {
    var p, c := s.Pending(), next - s.Ack();
    assert p[..c] == s.items[s.Ack()..next];
    ConfirmedDrop(p, c);
  }

  lemma {:induction false} TriedFile(log: Bytes, journal: Bytes, s: Shadow, next: nat, k: nat)
    requires s.Ok() && ExplainsLog(log, s) && ExplainsJournal(journal, s)
    requires s.Ack() < next <= |s.items| && k <= ACK_FRAME_BYTES
    ensures ACK_FRAME_BYTES * |s.acks| <= |journal|
    ensures ExplainsLog(log, s.(tried := next))
    ensures ExplainsJournal(journal[..ACK_FRAME_BYTES * |s.acks|] + Frame(next)[..k], s.(tried := next))
  {
    hide Frame, Journal;
    var size := ACK_FRAME_BYTES * |s.acks|;
    var b := journal[..size] + Frame(next)[..k];
    assert b[..size] == Journal(s.acks) && b[size..] == Frame(next)[..k];
  }

  lemma {:induction false} KeepTried(disk: Disk, h: History, n: Name, next: nat, k: nat)
    requires Invariant(disk, h) && h.queue.live != [] && n == h.queue.live[0] && n in h.shadow
    requires h.queue.doubt == None || h.queue.doubt == Some(n)
    requires h.shadow[n].Ack() < next <= |h.shadow[n].items| && k <= ACK_FRAME_BYTES
    ensures ACK_FRAME_BYTES * |h.shadow[n].acks| <= |disk.AckJournal(n)|
    ensures Invariant(disk.(acks := disk.acks[n := disk.AckJournal(n)[..ACK_FRAME_BYTES * |h.shadow[n].acks|] + Frame(next)[..k]]), Tried(h, next))
  {
    hide Linked, DiskOk, QueueOk, Shadow.Ok, ExplainsLog, ExplainsJournal, Waiting, Covered, Lines, Frame, Journal, OriginsOk, GhostsOk, DoneOk, Spared, Traced, Numbered, Grows;
    var s := h.shadow[n];
    var t := s.(tried := next);
    TriedQueue(disk, h, next);
    SegmentAt(disk, h, n);
    TriedSegment(s, next);
    TriedFile(disk.logs[n], disk.AckJournal(n), s, next, k);
    LinkUpdate(h.shadow, h.queue, n, t, Try(h.queue, Covered(t)));
    JournalKept(disk, h, n, t, disk.AckJournal(n)[..ACK_FRAME_BYTES * |s.acks|] + Frame(next)[..k]);
    AckUpdate(disk, h.shadow, n, t, disk.AckJournal(n)[..ACK_FRAME_BYTES * |s.acks|] + Frame(next)[..k]);
  }

  lemma {:induction false} TriedQueue(disk: Disk, h: History, next: nat)
    requires Invariant(disk, h) && h.queue.live != [] && h.queue.live[0] in h.shadow
    requires h.shadow[h.queue.live[0]].Ack() < next <= |h.shadow[h.queue.live[0]].items|
    ensures QueueOk(Try(h.queue, Covered(h.shadow[h.queue.live[0]].(tried := next))))
  {
    hide ExplainsLog, ExplainsJournal, Covered, Waiting;
    SegmentAt(disk, h, h.queue.live[0]);
    TriedSegment(h.shadow[h.queue.live[0]], next);
    KeepTry(h.queue, Covered(h.shadow[h.queue.live[0]].(tried := next)));
  }

  /** The acknowledgement in doubt is known to be durable. */
  function Settled(h: History, n: Name): History
    requires n in h.shadow && h.queue.doubt == Some(n) && h.queue.covered <= |At(h.queue.waiting, n)|
  {
    var s := h.shadow[n];
    h.(shadow := h.shadow[n := s.(acks := s.acks + [s.tried])], queue := Settle(h.queue), done := h.done + Unaccepted(Claimed(s)))
  }

  lemma {:induction false} SettledSegment(s: Shadow)
    requires s.Ok() && s.Ack() < s.tried
    ensures s.(acks := s.acks + [s.tried]).Ok()
    ensures s.(acks := s.acks + [s.tried]).Ack() == s.tried
    ensures Covered(s) <= |Waiting(s)|
    ensures Waiting(s.(acks := s.acks + [s.tried])) == Waiting(s)[Covered(s)..]
    ensures Journal(s.acks + [s.tried]) == Journal(s.acks) + Frame(s.tried)
  {
    hide Lines, Confirmed, Frame, Journal;
    AdvancingSnoc(s.acks, s.tried, |s.items|);
    var p, c := s.Pending(), s.tried - s.Ack();
    assert p[..c] == s.items[s.Ack()..s.tried];
    assert p[c..] == s.items[s.tried..];
    ConfirmedDrop(p, c);
  }

  lemma {:induction false} SettledFile(log: Bytes, s: Shadow)
    requires s.Ok() && s.Ack() < s.tried && ExplainsLog(log, s)
    ensures ExplainsLog(log, s.(acks := s.acks + [s.tried]))
    ensures ExplainsJournal(Journal(s.acks) + Frame(s.tried), s.(acks := s.acks + [s.tried]))
  {
    SettledSegment(s);
    hide Frame, Journal;
    var b := Journal(s.acks) + Frame(s.tried);
    assert b[..|b|] == b && b[|b|..] == [];
  }

  lemma {:induction false} KeepSettled(disk: Disk, h: History, n: Name)
    requires Invariant(disk, h) && n in h.shadow && h.queue.doubt == Some(n)
    requires h.shadow[n].Ack() < h.shadow[n].tried
    requires disk.AckJournal(n) == Journal(h.shadow[n].acks) + Frame(h.shadow[n].tried)
    ensures h.queue.covered <= |At(h.queue.waiting, n)|
    ensures Invariant(disk, Settled(h, n))
  {
    hide Linked, DiskOk, QueueOk, Shadow.Ok, ExplainsLog, ExplainsJournal, Waiting, Covered, Lines, Frame, Journal, OriginsOk, GhostsOk, DoneOk, Spared, Traced, Numbered, Grows;
    var s := h.shadow[n];
    SegmentAt(disk, h, n);
    SettledSegment(s);
    SettledFile(disk.logs[n], s);
    KeepSettle(h.queue);
    LinkUpdate(h.shadow, h.queue, n, s.(acks := s.acks + [s.tried]), Settle(h.queue));
    JournalKept(disk, h, n, s.(acks := s.acks + [s.tried]), []);
    OriginsAt(disk, h);
    GhostsTraced(disk, h);
    InRange(s);
    DoneSettled(h, n);
    NoUpdate(disk, h.shadow, n, s.(acks := s.acks + [s.tried]));
  }

  // ---------- Removing and recovering ----------

  /** The segment is gone for good, and so are all unlinked before. */
  function Removed(h: History, n: Name): History {
    h.(shadow := h.shadow - {n}, queue := h.queue.(waiting := h.queue.waiting - {n}), ghosts := map[])
  }

  /** The segment is unlinked, but a crash may still bring it back. */
  function Unlinked(h: History, n: Name): History {
    Removed(h, n).(ghosts := if n in h.shadow then h.ghosts[n := h.shadow[n]] else h.ghosts)
  }

  lemma {:induction false} RemovedHistory(h: History, n: Name)
    requires HistoryOk(h) && n !in h.queue.live && h.queue.doubt != Some(n)
    ensures Linked(h.shadow - {n}, h.queue.(waiting := h.queue.waiting - {n})) && QueueOk(h.queue.(waiting := h.queue.waiting - {n}))
    ensures n in h.shadow ==> h.shadow[n].Ok() && Waiting(h.shadow[n]) == [] && h.shadow[n].tried == h.shadow[n].Ack()
  {
    hide Shadow.Ok, Waiting, Covered, All;
    KeepRemoved(h.queue, n);
  }

  lemma {:induction false} RemovedFiles(disk: Disk, h: History, n: Name)
    requires DiskOk(disk, h.shadow) && OriginsOk(h.shadow, h.queue.accepted, h.failed, h.owner)
    ensures forall gone :: DiskOk(Disk(disk.logs - {n}, disk.acks, gone), h.shadow - {n})
    ensures OriginsOk(h.shadow - {n}, h.queue.accepted, h.failed, h.owner)
    ensures n in h.shadow ==> ExplainsLog(disk.logs[n], h.shadow[n]) && ExplainsJournal(disk.AckJournal(n), h.shadow[n])
    ensures n in h.shadow ==> Traced(n, h.shadow[n], h.failed, h.owner)
  {
    hide ExplainsLog, ExplainsJournal, Traced, Numbered;
  }

  lemma {:induction false} KeepRemovedLog(disk: Disk, h: History, n: Name)
    requires Invariant(disk, h) && n !in h.queue.live && h.queue.doubt != Some(n)
    ensures Invariant(Disk(disk.logs - {n}, disk.acks, map[]), Removed(h, n))
  {
    hide QueueOk, Linked, DiskOk, OriginsOk, GhostsOk, Shadow.Ok, Waiting, Shadow.Ack, ExplainsLog, ExplainsJournal, Traced, Spared;
    RemovedHistory(h, n);
    RemovedFiles(disk, h, n);
    NoGhosts(Disk(disk.logs - {n}, disk.acks, map[]), h.failed, h.owner);
  }

  lemma {:induction false} GhostAdded(disk: Disk, h: History, n: Name)
    requires GhostsOk(disk, h.ghosts, h.failed, h.owner) && n in disk.logs
    requires n in h.shadow && GhostOk(n, disk.logs[n], disk.AckJournal(n), h.shadow[n], h.failed, h.owner)
    ensures GhostsOk(Disk(disk.logs - {n}, disk.acks, disk.gone[n := disk.logs[n]]), h.ghosts[n := h.shadow[n]], h.failed, h.owner)
  {
    hide GhostOk;
  }

  /** What is unlinked is drained, and it comes back with its journal if it does. */
  lemma {:induction false} KeepUnlinkedLog(disk: Disk, h: History, n: Name)
    requires Invariant(disk, h) && n !in h.queue.live && h.queue.doubt != Some(n)
    ensures n in disk.logs ==> Invariant(Disk(disk.logs - {n}, disk.acks, disk.gone[n := disk.logs[n]]), Unlinked(h, n))
    ensures n !in disk.logs ==> n !in h.shadow && Unlinked(h, n) == h
  {
    hide QueueOk, Linked, OriginsOk, GhostsOk, Shadow.Ok, Waiting, Shadow.Ack, ExplainsLog, ExplainsJournal, Traced, Spared;
    RemovedHistory(h, n);
    RemovedFiles(disk, h, n);
    if n in disk.logs {
      GhostAdded(disk, h, n);
    } else {
      NotYet(disk, h, n);
      assert h.shadow - {n} == h.shadow && h.queue.waiting - {n} == h.queue.waiting;
    }
  }

  /** An acknowledgement journal may go once its segment is gone for good. */
  lemma {:induction false} KeepRemovedAck(disk: Disk, h: History, n: Name)
    requires Invariant(disk, h) && n !in disk.logs && n !in disk.gone
    ensures Invariant(disk.(acks := disk.acks - {n}), h)
  {
    hide HistoryOk, ExplainsLog, ExplainsJournal, OriginsOk, GhostsOk, DoneOk, Spared, Traced, Numbered, Grows;
    OriginsAt(disk, h);
    SameRecord(h);
    GhostsKept(disk, disk.(acks := disk.acks - {n}), h, h.failed, h.owner);
  }

  /** A torn acknowledgement is cut off the journal: it never took effect. */
  function Abandoned(h: History, n: Name): History
    requires n in h.shadow
  {
    var s := h.shadow[n];
    h.(shadow := h.shadow[n := s.(tried := s.Ack())],
       queue := if h.queue.doubt == Some(n) then h.queue.(doubt := None, covered := 0) else h.queue)
  }

  lemma {:induction false} AbandonedFile(log: Bytes, journal: Bytes, s: Shadow)
    requires s.Ok() && ExplainsLog(log, s)
    ensures s.(tried := s.Ack()).Ok() && Waiting(s.(tried := s.Ack())) == Waiting(s)
    ensures ExplainsLog(log, s.(tried := s.Ack()))
    ensures ExplainsJournal(Journal(s.acks), s.(tried := s.Ack()))
  {
    hide Frame, Journal;
    var b := Journal(s.acks);
    assert b[..|b|] == b && b[|b|..] == [];
  }

  lemma {:induction false} AbandonedQueue(h: History, n: Name)
    requires HistoryOk(h) && n in h.shadow
    ensures QueueOk(Abandoned(h, n).queue)
  {
  }

  lemma {:induction false} KeepAbandoned(disk: Disk, h: History, n: Name)
    requires Invariant(disk, h) && n in h.shadow
    ensures Invariant(disk.(acks := disk.acks[n := Journal(h.shadow[n].acks)]), Abandoned(h, n))
    ensures disk.AckJournal(n) == Journal(h.shadow[n].acks) ==> Invariant(disk, Abandoned(h, n))
  {
    AbandonedQueue(h, n);
    hide Linked, DiskOk, QueueOk, Shadow.Ok, ExplainsLog, ExplainsJournal, Waiting, Covered, Lines, Frame, Journal, OriginsOk, GhostsOk, DoneOk, Spared, Traced, Numbered, Grows;
    var s := h.shadow[n];
    var t := s.(tried := s.Ack());
    SegmentAt(disk, h, n);
    AbandonedFile(disk.logs[n], disk.AckJournal(n), s);
    assert s.tried == s.Ack() ==> t == s;
    LinkUpdate(h.shadow, h.queue, n, t, Abandoned(h, n).queue);
    JournalKept(disk, h, n, t, Journal(s.acks));
    AckUpdate(disk, h.shadow, n, t, Journal(s.acks));
    if disk.AckJournal(n) == Journal(s.acks) {
      NoUpdate(disk, h.shadow, n, t);
    }
  }

  /** Whole events of a stray batch are adopted: they will be delivered too. */
  function Adopted(h: History, n: Name, j: nat): History
    requires n in h.shadow && j <= |h.shadow[n].stray|
  {
    var s := h.shadow[n];
    h.(shadow := h.shadow[n := Longer(s, s.stray[..j], Batch(s.batch))])
  }

  lemma {:induction false} StrayPrefix(s: Shadow, j: nat)
    requires s.Ok() && j <= |s.stray|
    ensures Storable(s.stray[..j]) && |Lines(Events(s.items))| + |Lines(s.stray[..j])| <= SEGMENT_LIMIT
  {
    assert s.stray == s.stray[..j] + s.stray[j..];
    LinesAppend(s.stray[..j], s.stray[j..]);
  }

  lemma {:induction false} AdoptedFile(journal: Bytes, s: Shadow, j: nat)
    requires s.Ok() && ExplainsJournal(journal, s) && j <= |s.stray|
    ensures ExplainsLog(Lines(Events(s.items) + s.stray[..j]), Longer(s, s.stray[..j], Batch(s.batch)))
    ensures ExplainsJournal(journal, Longer(s, s.stray[..j], Batch(s.batch)))
  {
    StrayPrefix(s, j);
    LongerEvents(s, s.stray[..j], Batch(s.batch));
    var log := Lines(Events(s.items) + s.stray[..j]);
    assert log[..|log|] == log && log[|log|..] == [];
  }

  lemma {:induction false} AdoptedSpared(h: History, s: Shadow, j: nat)
    requires DoneOk(h.shadow, h.ghosts, h.failed, h.done) && s.Ok() && Spared(s, h.done) && j <= |s.stray|
    ensures Spared(Longer(s, s.stray[..j], Batch(s.batch)), h.done)
  {
    hide DoneOk;
    assert SourceSpared(h, s.stray[..j], Batch(s.batch));
    SparedMore(h, s, s.stray[..j], Batch(s.batch));
  }

  lemma {:induction false} KeepAdopted(disk: Disk, h: History, n: Name, j: nat)
    requires Invariant(disk, h) && n in h.shadow && j <= |h.shadow[n].stray|
    ensures Invariant(disk.(logs := disk.logs[n := Lines(Events(h.shadow[n].items) + h.shadow[n].stray[..j])]), Adopted(h, n, j))
    ensures disk.logs[n] == Lines(Events(h.shadow[n].items) + h.shadow[n].stray[..j]) ==> Invariant(disk, Adopted(h, n, j))
  {
    hide Linked, DiskOk, QueueOk, Shadow.Ok, ExplainsLog, ExplainsJournal, Waiting, Covered, Lines, Frame, Journal, OriginsOk, GhostsOk, DoneOk, Spared, Traced, Numbered, Grows;
    var s := h.shadow[n];
    var log := Lines(Events(s.items) + s.stray[..j]);
    SegmentAt(disk, h, n);
    StrayPrefix(s, j);
    LongerSegment(s, s.stray[..j], Batch(s.batch));
    assert Waiting(s) + [] == Waiting(s);
    AdoptedFile(disk.AckJournal(n), s, j);
    var t := Adopted(h, n, j).shadow[n];
    OriginsAt(disk, h);
    SameRecord(h);
    TracedAdopted(n, s, h.failed, h.owner, j);
    AdoptedSpared(h, s, j);
    DoneUpdate(h, n, t, h.failed);
    OriginsUpdate(h, n, t, h.queue.accepted, h.failed, h.owner);
    GhostsKept(disk, disk.(logs := disk.logs[n := log]), h, h.failed, h.owner);
    LinkUpdate(h.shadow, h.queue, n, t, h.queue);
    LogUpdate(disk, h.shadow, n, t, log);
    if disk.logs[n] == log {
      NoUpdate(disk, h.shadow, n, t);
    }
  }

  /** Changing which segments count as live. */
  lemma {:induction false} KeepLive(disk: Disk, h: History, live: seq<Name>)
    requires Invariant(disk, h) && QueueOk(h.queue.(live := live))
    ensures Invariant(disk, h.(queue := h.queue.(live := live)))
  {
    hide DiskOk, OriginsOk, GhostsOk, DoneOk, Shadow.Ok, Waiting, Covered, LiveOk, DoubtOk, All;
  }

  // ---------- Where acknowledgement stands ----------

  /** What is acknowledged for certain, and the items that one more acknowledgement, which may
      or may not be durable, covers. */
  datatype Standing = Standing(acked: nat, done: set<Origin>, doubt: seq<Item>)

  function InDoubt(h: History): seq<Item> {
    if h.queue.doubt.Some? && h.queue.doubt.value in h.shadow then Claimed(h.shadow[h.queue.doubt.value]) else []
  }

  function StandingOf(h: History): Standing {
    Standing(h.queue.acked, h.done, InDoubt(h))
  }

  /** These items are acknowledged for certain, and none is in doubt. */
  function Certain(a: Standing, items: seq<Item>): Standing {
    Standing(a.acked + |Confirmed(items)|, a.done + Unaccepted(items), [])
  }

  /** What is in doubt stays so, turns out never to have happened, or turns out to have. */
  ghost predicate Resolves(a: Standing, b: Standing) {
    b == a || b == a.(doubt := []) || b == Certain(a, a.doubt)
  }

  /** The first `committed` of these items are acknowledged for certain. An acknowledgement is in
      doubt only if it was before and none of these is certain, or if it covers the next items,
      none of them beyond the limit. */
  ghost predicate Commits(a: Standing, items: seq<Item>, committed: nat, limit: int, b: Standing) {
    committed <= |items| &&
    var sure := if committed == 0 then a else Certain(a, items[..committed]);
    b == sure || (b == sure.(doubt := b.doubt) && b.doubt <= items[committed..] && committed + |b.doubt| <= limit)
  }

  lemma {:induction false} CertainMore(a: Standing, items: seq<Item>, c: nat, k: nat)
    requires c + k <= |items|
    ensures Certain(Certain(a, items[..c]), items[c..][..k]) == Certain(a, items[..c + k])
    ensures items[c..][k..] == items[c + k..]
  {
    hide Confirmed, Unaccepted;
    assert items[..c + k] == items[..c] + items[c..][..k];
    ConfirmedAppend(items[..c], items[c..][..k]);
    UnacceptedAppend(items[..c], items[c..][..k]);
  }

  lemma {:induction false} ResolvesTwice(a: Standing, b: Standing, c: Standing)
    requires Resolves(a, b) && Resolves(b, c)
    ensures Resolves(a, c)
  {
    assert Confirmed([]) == [] && Unaccepted([]) == {};
  }

  lemma {:induction false} UnacceptedAppend(a: seq<Item>, b: seq<Item>)
    ensures Unaccepted(a + b) == Unaccepted(a) + Unaccepted(b)
  {
    assert forall x :: x in a + b <==> x in a || x in b;
  }

  lemma {:induction false} ReachIs(disk: Disk, h: History)
    requires Invariant(disk, h)
    ensures LedgerOf(h).reach == h.queue.acked + |Confirmed(InDoubt(h))| <= |h.queue.accepted|
    ensures h.queue.doubt.None? ==> InDoubt(h) == []
  {
    hide DiskOk, OriginsOk, GhostsOk, DoneOk, Shadow.Ok, Waiting, LiveOk, All;
    assert Confirmed([]) == [];
  }

  lemma {:induction false} SettledStanding(disk: Disk, h: History, n: Name)
    requires Invariant(disk, h) && n in h.shadow && h.queue.doubt == Some(n) && h.queue.covered <= |At(h.queue.waiting, n)|
    ensures StandingOf(Settled(h, n)) == Certain(StandingOf(h), InDoubt(h))
  {
    hide Invariant, Confirmed;
    ReachIs(disk, h);
  }

  lemma {:induction false} AbandonedStanding(h: History, n: Name)
    requires n in h.shadow
    ensures StandingOf(Abandoned(h, n)) in {StandingOf(h), StandingOf(h).(doubt := [])}
  {
  }

  /** Standing does not change with what is written behind. */
  lemma {:induction false} LongerClaimed(s: Shadow, events: seq<Event>, source: Source)
    requires s.Ok()
    ensures Claimed(Longer(s, events, source)) == Claimed(s)
  {
    hide Tag, Lines, Storable;
    SliceHead(s.items, Tag(events, source), s.Ack(), s.tried);
  }

  lemma {:induction false} BehindClaimed(s: Shadow, events: seq<Event>, batch: nat)
    ensures Claimed(Behind(s, events, batch)) == Claimed(s)
  {
  }

  lemma {:induction false} AppendedStanding(disk: Disk, h: History, n: Name, events: seq<Event>)
    requires Invariant(disk, h) && n in h.shadow
    ensures StandingOf(Stray(h, n, events)) == StandingOf(h) == StandingOf(Appended(h, n, events))
  {
    hide Invariant, Longer, Tag, Accept, Claimed, Shadow.Ok, ExplainsLog, ExplainsJournal, Covered, Waiting, Behind;
    SegmentAt(disk, h, n);
    LongerClaimed(h.shadow[n], events, NewSource(h, true));
    BehindClaimed(h.shadow[n], events, |h.failed|);
    AcceptKeeps(h.queue, n, Tag(events, NewSource(h, true)));
  }

  lemma {:induction false} AcceptKeeps<T>(q: Queue<T>, n: Name, more: seq<T>)
    ensures Accept(q, n, more).doubt == q.doubt && Accept(q, n, more).acked == q.acked
  {
  }

  lemma {:induction false} CreatedStanding(disk: Disk, h: History, n: Name, events: seq<Event>, confirmed: bool)
    requires Invariant(disk, h) && n !in disk.logs
    ensures StandingOf(Created(h, n, events, confirmed)) == StandingOf(h)
  {
    hide Invariant, Tag, Claimed;
    NotYet(disk, h, n);
  }

  lemma {:induction false} AdoptedStanding(disk: Disk, h: History, n: Name, j: nat)
    requires Invariant(disk, h) && n in h.shadow && j <= |h.shadow[n].stray|
    ensures StandingOf(Adopted(h, n, j)) == StandingOf(h)
  {
    hide Invariant, Longer, Tag;
    SegmentAt(disk, h, n);
    LongerClaimed(h.shadow[n], h.shadow[n].stray[..j], Batch(h.shadow[n].batch));
  }

  lemma {:induction false} RemovedStanding(h: History, n: Name)
    requires h.queue.doubt != Some(n)
    ensures StandingOf(Removed(h, n)) == StandingOf(h) == StandingOf(Unlinked(h, n))
  {
    hide Claimed;
  }

  lemma {:induction false} ReturnedStanding(disk: Disk, h: History, names: set<Name>)
    requires Invariant(disk, h)
    ensures StandingOf(Returned(h, names)) == StandingOf(h)
  {
    hide Linked, DiskOk, OriginsOk, GhostsOk, DoneOk, Claimed, LiveOk, All;
    DoubtStored(h);
  }
}
