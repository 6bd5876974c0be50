/** What recovery makes of a spool directory, as a function of its bytes, and the
    history that explains those bytes. The main lemma is InvariantIsCrashSafe:
    a directory explained by a history always recovers, to exactly the accepted
    events beyond some acknowledgement attempt plus events of unconfirmed batches. */
module SpoolRecovery {
  import opened TelemetryCodec
  import opened Wrappers
  import opened Sequences
  import opened DeliveryQueue

  const SEGMENT_LIMIT: nat := 67108864

  /** gone: segments whose unlinking is not known to be durable, with their content. */
  datatype Disk = Disk(logs: map<Name, Bytes>, acks: map<Name, Bytes>, gone: map<Name, Bytes>) {
    function AckJournal(n: Name): Bytes {
      if n in acks then acks[n] else []
    }
  }

  // ---------- Recovery as a function ----------

  datatype AckScan = AckOk(ack: nat, validBytes: nat) | AckCorrupt

  function ScanAcks(b: Bytes, count: nat, ack: nat, pos: nat): AckScan
    requires pos <= |b|
    decreases |b| - pos
  {
    if pos == |b| then AckOk(ack, pos)
    else if |b| - pos < ACK_FRAME_BYTES then AckOk(ack, pos)
    else
      var frame := b[pos..pos + ACK_FRAME_BYTES];
      if !ValidFrame(frame) then
        if pos + ACK_FRAME_BYTES == |b| then AckOk(ack, pos) else AckCorrupt
      else if FrameNext(frame) <= ack || FrameNext(frame) > count then AckCorrupt
      else ScanAcks(b, count, FrameNext(frame), pos + ACK_FRAME_BYTES)
  }

  function RecoverAck(b: Bytes, count: nat): AckScan {
    if |b| > (count + 1) * ACK_FRAME_BYTES then AckCorrupt else ScanAcks(b, count, 0, 0)
  }

  predicate ReadableLines(lines: seq<Bytes>) {
    forall i :: 0 <= i < |lines| ==> |lines[i]| <= MAX_EVENT_BATCH_BYTES && WellFormed(lines[i])
  }

  datatype Recovered = Recovered(lines: seq<Bytes>, ack: nat) | Corrupt

  function RecoverFile(log: Bytes, journal: Bytes): (r: Recovered)
    ensures r.Recovered? ==> r.ack <= |r.lines|
  {
    var lines := SplitLines(log).lines;
    if |log| > SEGMENT_LIMIT || !ReadableLines(lines) then Corrupt
    else
      ScanBounded(journal, |lines|, 0, 0);
      match RecoverAck(journal, |lines|)
      case AckCorrupt => Corrupt
      case AckOk(ack, _) => Recovered(lines, ack)
  }

  lemma {:induction false} ScanBounded(b: Bytes, count: nat, ack: nat, pos: nat)
    requires pos <= |b| && ack <= count
    ensures ScanAcks(b, count, ack, pos).AckOk? ==> ScanAcks(b, count, ack, pos).ack <= count
    decreases |b| - pos
  {
    if |b| - pos >= ACK_FRAME_BYTES {
      var frame := b[pos..pos + ACK_FRAME_BYTES];
      if ValidFrame(frame) && ack < FrameNext(frame) <= count {
        ScanBounded(b, count, FrameNext(frame), pos + ACK_FRAME_BYTES);
      }
    }
  }

  /** The events a restarted Agent will deliver, or None if it refuses to start. */
  function RecoverAll(names: seq<Name>, disk: Disk): Option<seq<Bytes>>
    requires forall n :: n in names ==> n in disk.logs
  {
    if names == [] then Some([])
    else
      var rest := RecoverAll(names[1..], disk);
      var first := RecoverFile(disk.logs[names[0]], disk.AckJournal(names[0]));
      if first.Corrupt? || rest.None? then None
      else Some(first.lines[first.ack..] + rest.value)
  }

  // ---------- The history behind a directory ----------

  /** Where a stored event comes from: the append that reported success, as the index of
      the event among all accepted ones, or an append that never did, as its number among
      those and the index in its batch. */
  datatype Origin = Accepted(index: nat) | Unconfirmed(batch: nat, index: nat)

  datatype Item = Item(event: Event, origin: Origin)

  function Events(items: seq<Item>): (r: seq<Event>)
    ensures |r| == |items|
  {
    seq(|items|, i requires 0 <= i < |items| => items[i].event)
  }

  /** The accepted ones among these items. */
  function Confirmed(items: seq<Item>): (r: seq<Item>)
    ensures |r| <= |items|
  {
    if items == [] then []
    else OneConfirmed(items[0]) + Confirmed(items[1..])
  }

  function OneConfirmed(item: Item): (r: seq<Item>)
    ensures |r| <= 1
  {
    if item.origin.Accepted? then [item] else []
  }

  /** What a whole batch is marked with. */
  datatype Source = AcceptedFrom(index: nat) | Batch(number: nat)

  function OriginAt(source: Source, i: nat): Origin {
    match source
    case AcceptedFrom(index) => Accepted(index + i)
    case Batch(number) => Unconfirmed(number, i)
  }

  function Tag(events: seq<Event>, source: Source): (r: seq<Item>)
    ensures |r| == |events|
  {
    seq(|events|, i requires 0 <= i < |events| => Item(events[i], OriginAt(source, i)))
  }

  lemma {:induction false} ConfirmedAppend(a: seq<Item>, b: seq<Item>)
    ensures Confirmed(a + b) == Confirmed(a) + Confirmed(b)
  {
    hide OneConfirmed;
    if a == [] {
      assert a + b == b;
    } else {
      assert (a + b)[1..] == a[1..] + b;
      ConfirmedAppend(a[1..], b);
      Associate(OneConfirmed(a[0]), Confirmed(a[1..]), Confirmed(b));
    }
  }

  lemma {:induction false} ConfirmedUniform(items: seq<Item>, accepted: bool)
    requires forall i :: 0 <= i < |items| ==> items[i].origin.Accepted? == accepted
    ensures Confirmed(items) == if accepted then items else []
  {
    if items != [] {
      ConfirmedUniform(items[1..], accepted);
      assert items == [items[0]] + items[1..];
    }
  }

  lemma {:induction false} ConfirmedTag(events: seq<Event>, source: Source)
    ensures Confirmed(Tag(events, source)) == if source.AcceptedFrom? then Tag(events, source) else []
    ensures Events(Tag(events, source)) == events
  {
    ConfirmedUniform(Tag(events, source), source.AcceptedFrom?);
  }

  /** Dropping from the front of the items drops from the front of the confirmed ones. */
  lemma {:induction false} ConfirmedDrop(items: seq<Item>, k: nat)
    requires k <= |items|
    ensures |Confirmed(items[..k])| <= |Confirmed(items)|
    ensures Confirmed(items[k..]) == Confirmed(items)[|Confirmed(items[..k])|..]
  {
    assert items == items[..k] + items[k..];
    ConfirmedAppend(items[..k], items[k..]);
  }

  /** One segment: its committed items, the acknowledgements journalled for it, the
      acknowledgement whose write may have been interrupted, and the batch whose
      append may have been interrupted with its number. */
  datatype Shadow = Shadow(items: seq<Item>, acks: seq<nat>, tried: nat, stray: seq<Event>, batch: nat) {
    function Ack(): nat { Last(acks) }
    ghost predicate Ok() {
      && Storable(Events(items)) && Storable(stray)
      && |Lines(Events(items))| + |Lines(stray)| <= SEGMENT_LIMIT
      && Advancing(acks, |items|)
      && Ack() <= tried <= |items|
    }
    function Pending(): seq<Item> {
      if Ack() <= |items| then items[Ack()..] else []
    }
  }

  ghost predicate ExplainsLog(log: Bytes, s: Shadow) {
    var size := |Lines(Events(s.items))|;
    size <= |log| && log[..size] == Lines(Events(s.items)) && IsPrefix(log[size..], Lines(s.stray))
  }

  function Attempt(s: Shadow): Bytes {
    if s.tried == s.Ack() then [] else Frame(s.tried)
  }

  ghost predicate ExplainsJournal(b: Bytes, s: Shadow) {
    var size := ACK_FRAME_BYTES * |s.acks|;
    size <= |b| && b[..size] == Journal(s.acks) && IsPrefix(b[size..], Attempt(s))
  }

  ghost predicate Explains(log: Bytes, journal: Bytes, s: Shadow) {
    s.Ok() && ExplainsLog(log, s) && ExplainsJournal(journal, s)
  }

  /** What the segment contributes to the queue of accepted events. */
  function Waiting(s: Shadow): seq<Item> {
    Confirmed(s.Pending())
  }

  /** Confirmed events that an interrupted acknowledgement of this segment would cover. */
  function Covered(s: Shadow): nat {
    if s.Ack() <= s.tried <= |s.items| then |Confirmed(s.items[s.Ack()..s.tried])| else 0
  }

  /** The items that an acknowledgement in doubt covers. */
  function Claimed(s: Shadow): seq<Item> {
    if s.Ack() <= s.tried <= |s.items| then s.items[s.Ack()..s.tried] else []
  }

  /** The origins of the items that come from failed batches. */
  function Unaccepted(items: seq<Item>): set<Origin> {
    set x | x in items && x.origin.Unconfirmed? :: x.origin
  }

  /** The spool's history: what is in each segment file, and the queue it adds up to.
      failed: the batches whose append never reported success, by number, and the segment
      each was meant for. done: the events of these batches that were delivered after all
      and are acknowledged. ghosts: the segments that may come back. */
  datatype History = History(shadow: map<Name, Shadow>, queue: Queue<Item>, failed: seq<seq<Event>>, owner: seq<Name>,
                             done: set<Origin>, ghosts: map<Name, Shadow>)

  ghost predicate Linked(shadow: map<Name, Shadow>, q: Queue<Item>) {
    && shadow.Keys == q.waiting.Keys
    && (forall n :: n in shadow ==> shadow[n].Ok() && q.waiting[n] == Waiting(shadow[n]))
    && (forall n :: n in shadow && shadow[n].tried != shadow[n].Ack() ==> q.doubt == Some(n))
    && (forall n :: n in shadow && q.doubt == Some(n) ==> q.covered == Covered(shadow[n]))
  }

  ghost predicate HistoryOk(h: History) {
    Linked(h.shadow, h.queue) && QueueOk(h.queue)
  }

  ghost predicate DiskOk(disk: Disk, shadow: map<Name, Shadow>) {
    && shadow.Keys == disk.logs.Keys
    && (forall n :: n in shadow ==> ExplainsLog(disk.logs[n], shadow[n]) && ExplainsJournal(disk.AckJournal(n), shadow[n]))
  }

  // ---------- Origins ----------

  /** The accepted events are numbered in the order in which they were accepted. */
  ghost predicate Numbered(accepted: seq<Item>) {
    forall i :: 0 <= i < |accepted| ==> accepted[i].origin == Accepted(i)
  }

  /** This event is the one at this place of a recorded failed batch. */
  predicate Named(failed: seq<seq<Event>>, item: Item) {
    item.origin.Unconfirmed? ==>
      item.origin.batch < |failed| && item.origin.index < |failed[item.origin.batch]|
      && failed[item.origin.batch][item.origin.index] == item.event
  }

  /** No event of a failed batch occurs twice. */
  ghost predicate NoRepeats(items: seq<Item>) {
    forall i, j :: 0 <= i < j < |items| && items[i].origin.Unconfirmed? ==> items[i].origin != items[j].origin
  }

  /** Every item that is not accepted belongs to a failed batch, each at most once. */
  ghost predicate Genuine(items: seq<Item>, failed: seq<seq<Event>>) {
    (forall i :: 0 <= i < |items| ==> Named(failed, items[i])) && NoRepeats(items)
  }

  ghost predicate Owned(items: seq<Item>, owner: seq<Name>, n: Name) {
    forall i :: 0 <= i < |items| && items[i].origin.Unconfirmed? ==>
      items[i].origin.batch < |owner| && owner[items[i].origin.batch] == n
  }

  /** The items of a segment come from batches meant for it, and so does its stray batch. */
  ghost predicate Traced(n: Name, s: Shadow, failed: seq<seq<Event>>, owner: seq<Name>) {
    && Genuine(s.items, failed) && Owned(s.items, owner, n)
    && (s.stray != [] ==>
          && s.batch < |failed| && s.batch < |owner| && failed[s.batch] == s.stray && owner[s.batch] == n
          && forall i :: 0 <= i < |s.items| && s.items[i].origin.Unconfirmed? ==> s.items[i].origin.batch != s.batch)
  }

  ghost predicate OriginsOk(shadow: map<Name, Shadow>, accepted: seq<Item>, failed: seq<seq<Event>>, owner: seq<Name>) {
    && Numbered(accepted) && |owner| == |failed|
    && forall n :: n in shadow ==> Traced(n, shadow[n], failed, owner)
  }

  /** None of these items has one of these origins. */
  ghost predicate Spares(items: seq<Item>, done: set<Origin>) {
    forall i :: 0 <= i < |items| ==> items[i].origin !in done
  }

  /** Nothing that the segment would deliver is acknowledged, its stray batch included. */
  ghost predicate Spared(s: Shadow, done: set<Origin>) {
    && Spares(s.Pending(), done)
    && (s.stray != [] ==> forall i :: Unconfirmed(s.batch, i) !in done)
  }

  ghost predicate DoneOk(shadow: map<Name, Shadow>, ghosts: map<Name, Shadow>, failed: seq<seq<Event>>, done: set<Origin>) {
    && (forall o :: o in done ==> o.Unconfirmed? && o.batch < |failed|)
    && (forall n :: n in shadow ==> Spared(shadow[n], done))
    && (forall n :: n in ghosts ==> Spared(ghosts[n], done))
  }

  /** A segment that may come back is explained by its bytes and has nothing accepted to deliver. */
  ghost predicate GhostOk(n: Name, log: Bytes, journal: Bytes, s: Shadow, failed: seq<seq<Event>>, owner: seq<Name>) {
    Explains(log, journal, s) && Waiting(s) == [] && s.tried == s.Ack() && Traced(n, s, failed, owner)
  }

  ghost predicate GhostsOk(disk: Disk, ghosts: map<Name, Shadow>, failed: seq<seq<Event>>, owner: seq<Name>) {
    && ghosts.Keys == disk.gone.Keys
    && forall n :: n in disk.gone ==> n !in disk.logs && GhostOk(n, disk.gone[n], disk.AckJournal(n), ghosts[n], failed, owner)
  }

  ghost predicate Invariant(disk: Disk, h: History) {
    && HistoryOk(h) && DiskOk(disk, h.shadow)
    && OriginsOk(h.shadow, h.queue.accepted, h.failed, h.owner)
    && GhostsOk(disk, h.ghosts, h.failed, h.owner)
    && DoneOk(h.shadow, h.ghosts, h.failed, h.done)
  }

  // ---------- Crash safety ----------

  /** These items account for the accepted events from the k-th on: those and no other
      accepted ones, in order and each once, and apart from them only events of failed
      batches, each at most once and none that is done. */
  ghost predicate Accounts(items: seq<Item>, accepted: seq<Item>, failed: seq<seq<Event>>, done: set<Origin>, k: nat) {
    k <= |accepted| && Confirmed(items) == accepted[k..] && Genuine(items, failed) && Spares(items, done)
  }

  /** What recovery has to live up to: the accepted events, of which `acked` are acknowledged
      for certain and `reach` at most; the failed batches; and the events of these that are
      acknowledged for certain. */
  datatype Ledger = Ledger(accepted: seq<Item>, failed: seq<seq<Event>>, done: set<Origin>, acked: nat, reach: nat)

  function LedgerOf(h: History): Ledger {
    Ledger(h.queue.accepted, h.failed, h.done, h.queue.acked, h.queue.acked + h.queue.covered)
  }

  ghost predicate RecoversTo(names: seq<Name>, disk: Disk, items: seq<Item>)
    requires forall n :: n in names ==> n in disk.logs
  {
    RecoverAll(names, disk) == Some(Events(items))
  }

  ghost predicate SafeOutcome(names: seq<Name>, disk: Disk, g: Ledger, k: nat)
    requires forall n :: n in names ==> n in disk.logs
  {
    exists items :: RecoversTo(names, disk, items) && Accounts(items, g.accepted, g.failed, g.done, k)
  }

  /** What a crash may leave of the directory: any of the segments whose unlinking is not
      durable may be back. */
  ghost predicate Survivor(disk: Disk, left: Disk) {
    && left.acks == disk.acks && left.gone == map[]
    && disk.logs.Keys <= left.logs.Keys <= disk.logs.Keys + disk.gone.Keys
    && (forall n :: n in left.logs ==> left.logs[n] == if n in disk.logs then disk.logs[n] else disk.gone[n])
  }

  ghost predicate SafeDisk(disk: Disk, g: Ledger) {
    forall names: seq<Name> :: IsListing(names, disk.logs.Keys) ==>
      exists k :: g.acked <= k <= g.reach && SafeOutcome(names, disk, g, k)
  }

  /** A crash now loses no accepted event beyond the reach of an acknowledgement in doubt and
      returns nothing that is acknowledged: whatever it leaves, recovery succeeds, and what it
      yields accounts for the accepted events from some k between `acked` and `reach` on. */
  ghost predicate CrashSafe(disk: Disk, g: Ledger) {
    Numbered(g.accepted) && forall left :: Survivor(disk, left) ==> SafeDisk(left, g)
  }

  lemma {:induction false} ScanStep(b: Bytes, count: nat, ack: nat, pos: nat, next: nat)
    requires pos + ACK_FRAME_BYTES <= |b| && b[pos..pos + ACK_FRAME_BYTES] == Frame(next)
    requires ack < next <= count < 0x1_0000_0000_0000_0000
    ensures ScanAcks(b, count, ack, pos) == ScanAcks(b, count, next, pos + ACK_FRAME_BYTES)
  {
    FrameRoundTrip(next);
  }

  lemma {:induction false} ScanJournalFrom(acks: seq<nat>, tail: Bytes, count: nat, i: nat)
    requires Advancing(acks, count) && count < 0x1_0000_0000_0000_0000
    requires |tail| < ACK_FRAME_BYTES
    requires i <= |acks|
    ensures ScanAcks(Journal(acks) + tail, count, Last(acks[..i]), ACK_FRAME_BYTES * i) == AckOk(Last(acks), ACK_FRAME_BYTES * |acks|)
    decreases |acks| - i
  {
    hide Frame, Journal, ValidFrame, FrameNext;
    if i == |acks| {
      assert acks[..i] == acks;
    } else {
      hide ScanAcks;
      JournalFrame(acks, tail, i);
      assert Last(acks[..i + 1]) == acks[i];
      ScanStep(Journal(acks) + tail, count, Last(acks[..i]), ACK_FRAME_BYTES * i, acks[i]);
      ScanJournalFrom(acks, tail, count, i + 1);
    }
  }

  lemma {:induction false} ScanJournal(acks: seq<nat>, tail: Bytes, count: nat)
    requires Advancing(acks, count) && count < 0x1_0000_0000_0000_0000
    requires |tail| < ACK_FRAME_BYTES
    ensures RecoverAck(Journal(acks) + tail, count) == AckOk(Last(acks), ACK_FRAME_BYTES * |acks|)
  {
    AdvancingLength(acks, count);
    ScanJournalFrom(acks, tail, count, 0);
    assert acks[..0] == [];
  }

  /** The journal reader finds the last complete acknowledgement, torn tail or not. */
  lemma {:induction false} RecoverJournal(b: Bytes, s: Shadow, count: nat) returns (acks: seq<nat>)
    requires s.Ok() && ExplainsJournal(b, s)
    requires |s.items| <= count < 0x1_0000_0000_0000_0000
    ensures RecoverAck(b, count) == AckOk(Last(acks), ACK_FRAME_BYTES * |acks|)
    ensures Advancing(acks, |s.items|)
    ensures acks == s.acks || (s.tried > s.Ack() && acks == s.acks + [s.tried])
    ensures acks != s.acks ==> b == Journal(acks)
    ensures ACK_FRAME_BYTES * |acks| <= |b| && b[..ACK_FRAME_BYTES * |acks|] == Journal(acks)
  {
    hide Frame, Journal, RecoverAck;
    var size := ACK_FRAME_BYTES * |s.acks|;
    var tail := b[size..];
    assert b == Journal(s.acks) + tail;
    acks := s.acks;
    if |tail| == ACK_FRAME_BYTES {
      AdvancingSnoc(s.acks, s.tried, |s.items|);
      acks := s.acks + [s.tried];
      assert tail == Frame(s.tried);
      assert b == Journal(acks) && b[..|b|] == b && b + [] == b;
      ScanJournal(acks, [], count);
    } else {
      ScanJournal(acks, tail, count);
    }
  }

  /** The line reader finds the committed events and whole events of a stray batch. */
  lemma {:induction false} RecoverLines(log: Bytes, s: Shadow) returns (j: nat, torn: Bytes)
    requires s.Ok() && ExplainsLog(log, s)
    ensures j <= |s.stray| && NEWLINE !in torn
    ensures SplitLines(log) == Parsed(Events(s.items) + s.stray[..j], torn)
    ensures log == Lines(Events(s.items) + s.stray[..j]) + torn
    ensures |log| <= SEGMENT_LIMIT
    ensures ReadableLines(Events(s.items) + s.stray[..j])
  {
    var events := Events(s.items);
    var size := |Lines(events)|;
    j, torn := PrefixOfLines(log[size..], s.stray);
    var all := events + s.stray[..j];
    assert forall i :: 0 <= i < |all| ==> WellFormed(all[i]) && |all[i]| <= MAX_EVENT_BATCH_BYTES;
    LinesAppend(events, s.stray[..j]);
    assert log == Lines(all) + torn by {
      assert log == log[..size] + log[size..];
      Associate(Lines(events), Lines(s.stray[..j]), torn);
    }
    SplitJoined(all, torn);
  }

  lemma {:induction false} CountBounded(events: seq<Event>)
    ensures |events| <= |Lines(events)|
  {
    if events != [] {
      CountBounded(events[1..]);
    }
  }

  lemma {:induction false} RecoverExplained(log: Bytes, journal: Bytes, s: Shadow) returns (j: nat, ack: nat)
    requires Explains(log, journal, s)
    ensures j <= |s.stray| && (ack == s.Ack() || ack == s.tried)
    ensures RecoverFile(log, journal) == Recovered(Events(s.items) + s.stray[..j], ack)
  {
    var torn;
    j, torn := RecoverLines(log, s);
    CountBounded(Events(s.items));
    CountBounded(s.stray);
    var lines := SplitLines(log).lines;
    var acks := RecoverJournal(journal, s, |lines|);
    ack := Last(acks);
    assert RecoverAck(journal, |lines|).AckOk?;
  }

  /** What a recovered acknowledgement removes is a prefix of the confirmed events. */
  lemma {:induction false} DropTagged(s: Shadow, ack: nat, strays: seq<Event>)
    requires s.Ok() && (ack == s.Ack() || ack == s.tried)
    ensures Covered(s) <= |Waiting(s)|
    ensures Confirmed(s.items[ack..] + Tag(strays, Batch(s.batch))) == if ack == s.Ack() then Waiting(s) else Waiting(s)[Covered(s)..]
  {
    ConfirmedAppend(s.items[ack..], Tag(strays, Batch(s.batch)));
    ConfirmedTag(strays, Batch(s.batch));
    var p, c := s.Pending(), s.tried - s.Ack();
    assert p[..c] == s.items[s.Ack()..s.tried] && p[c..] == s.items[s.tried..];
    ConfirmedDrop(p, c);
  }

  lemma {:induction false} EventsSlice(items: seq<Item>, strays: seq<Event>, source: Source, k: nat)
    requires k <= |items|
    ensures Events(items[k..] + Tag(strays, source)) == (Events(items) + strays)[k..]
  {
  }

  /** The recovered items of one segment, with what recovery cannot see: their origins. */
  function TaggedItems(log: Bytes, journal: Bytes, s: Shadow): seq<Item> {
    var r := RecoverFile(log, journal);
    if r.Corrupt? || |r.lines| < |s.items| || r.ack > |s.items| then []
    else s.items[r.ack..] + Tag(r.lines[|s.items|..], Batch(s.batch))
  }

  lemma {:induction false} RecoverTagged(log: Bytes, journal: Bytes, s: Shadow) returns (effect: bool)
    requires Explains(log, journal, s)
    ensures RecoverFile(log, journal).Recovered?
    ensures RecoverFile(log, journal).lines[RecoverFile(log, journal).ack..] == Events(TaggedItems(log, journal, s))
    ensures Covered(s) <= |Waiting(s)|
    ensures Confirmed(TaggedItems(log, journal, s)) == if effect then Waiting(s)[Covered(s)..] else Waiting(s)
    ensures s.tried == s.Ack() ==> !effect
  {
    hide RecoverFile, ExplainsLog, ExplainsJournal, Waiting, Covered, Confirmed, Tag;
    var j, ack := RecoverExplained(log, journal, s);
    var strays := s.stray[..j];
    effect := ack != s.Ack();
    assert (Events(s.items) + strays)[|s.items|..] == strays;
    EventsSlice(s.items, strays, Batch(s.batch), ack);
    DropTagged(s, ack, strays);
  }

  /** Tagged recovery of a whole listing. */
  function TaggedAll(names: seq<Name>, disk: Disk, shadow: map<Name, Shadow>): seq<Item>
    requires forall n :: n in names ==> n in disk.logs && n in shadow
  {
    if names == [] then []
    else TaggedItems(disk.logs[names[0]], disk.AckJournal(names[0]), shadow[names[0]]) + TaggedAll(names[1..], disk, shadow)
  }

  ghost function Kept(disk: Disk, shadow: map<Name, Shadow>): map<Name, seq<Item>> {
    map n | n in shadow && n in disk.logs :: Confirmed(TaggedItems(disk.logs[n], disk.AckJournal(n), shadow[n]))
  }

  lemma {:induction false} EventsAppend(a: seq<Item>, b: seq<Item>)
    ensures Events(a + b) == Events(a) + Events(b)
  {
  }

  lemma {:induction false} RecoverListing(names: seq<Name>, disk: Disk, shadow: map<Name, Shadow>)
    requires DiskOk(disk, shadow) && forall n :: n in names ==> n in shadow && shadow[n].Ok()
    ensures RecoverAll(names, disk) == Some(Events(TaggedAll(names, disk, shadow)))
    ensures Confirmed(TaggedAll(names, disk, shadow)) == All(names, Kept(disk, shadow))
  {
    if names != [] {
      var n, rest := names[0], names[1..];
      RecoverListing(rest, disk, shadow);
      var first := TaggedItems(disk.logs[n], disk.AckJournal(n), shadow[n]);
      var _ := RecoverTagged(disk.logs[n], disk.AckJournal(n), shadow[n]);
      EventsAppend(first, TaggedAll(rest, disk, shadow));
      ConfirmedAppend(first, TaggedAll(rest, disk, shadow));
    }
  }

  /** What survives of one segment: everything, or everything but the attempt in doubt. */
  lemma {:induction false} KeptAt(disk: Disk, h: History, n: Name) returns (effect: bool)
    requires Invariant(disk, h) && n in h.shadow
    ensures !effect ==> At(Kept(disk, h.shadow), n) == At(h.queue.waiting, n)
    ensures effect ==>
      && h.queue.covered <= |At(h.queue.waiting, n)|
      && At(Kept(disk, h.shadow), n) == At(h.queue.waiting, n)[h.queue.covered..]
    ensures h.queue.doubt != Some(n) ==> !effect
  {
    effect := RecoverTagged(disk.logs[n], disk.AckJournal(n), h.shadow[n]);
  }

  lemma {:induction false} KeptQueue(names: seq<Name>, disk: Disk, h: History) returns (k: nat)
    requires Invariant(disk, h) && IsListing(names, disk.logs.Keys)
    ensures h.queue.acked <= k <= h.queue.acked + h.queue.covered && All(names, Kept(disk, h.shadow)) == h.queue.accepted[k..]
  {
    hide Kept, At, All, Covered, Waiting, ExplainsLog, ExplainsJournal, Shadow.Ok;
    var q := h.queue;
    forall n | n in names && q.doubt != Some(n)
      ensures At(Kept(disk, h.shadow), n) == At(q.waiting, n)
    {
      var _ := KeptAt(disk, h, n);
    }
    if q.doubt.Some? {
      var effect := KeptAt(disk, h, q.doubt.value);
      if effect {
        k := q.acked + q.covered;
        RecoveredSettled(q, names, Kept(disk, h.shadow), q.doubt.value);
        return;
      }
    }
    k := q.acked;
    RecoveredUnchanged(q, names, Kept(disk, h.shadow));
  }

  // ---------- Origins of recovered items ----------

  lemma {:induction false} NamedMore(failed: seq<seq<Event>>, more: seq<seq<Event>>, item: Item)
    requires Named(failed, item) && failed <= more
    ensures Named(more, item)
  {
  }

  lemma {:induction false} GenuineMore(items: seq<Item>, failed: seq<seq<Event>>, more: seq<seq<Event>>)
    requires Genuine(items, failed) && failed <= more
    ensures Genuine(items, more)
  {
    hide Named;
    forall i | 0 <= i < |items|
      ensures Named(more, items[i])
    {
      NamedMore(failed, more, items[i]);
    }
  }

  lemma {:induction false} GenuineDrop(items: seq<Item>, failed: seq<seq<Event>>, owner: seq<Name>, n: Name, k: nat)
    requires k <= |items| && Genuine(items, failed) && Owned(items, owner, n)
    ensures Genuine(items[k..], failed) && Owned(items[k..], owner, n)
  {
    hide Named;
  }

  /** Items from different batches do not repeat each other. */
  ghost predicate Apart(a: seq<Item>, b: seq<Item>) {
    forall i, j :: 0 <= i < |a| && 0 <= j < |b| && a[i].origin.Unconfirmed? ==> a[i].origin != b[j].origin
  }

  lemma {:induction false} GenuineAppend(a: seq<Item>, b: seq<Item>, failed: seq<seq<Event>>)
    requires Genuine(a, failed) && Genuine(b, failed) && Apart(a, b)
    ensures Genuine(a + b, failed)
  {
    hide Named;
  }

  /** The whole events of a recorded batch, as far as they were written. */
  lemma {:induction false} GenuineTag(events: seq<Event>, j: nat, failed: seq<seq<Event>>, owner: seq<Name>, n: Name, batch: nat)
    requires j <= |events| && batch < |failed| && batch < |owner| && failed[batch] == events && owner[batch] == n
    ensures Genuine(Tag(events[..j], Batch(batch)), failed) && Owned(Tag(events[..j], Batch(batch)), owner, n)
  {
  }

  lemma {:induction false} TracedLonger(n: Name, s: Shadow, failed: seq<seq<Event>>, owner: seq<Name>, k: nat, j: nat)
    requires Traced(n, s, failed, owner) && k <= |s.items| && j <= |s.stray|
    ensures var items := s.items[k..] + Tag(s.stray[..j], Batch(s.batch)); Genuine(items, failed) && Owned(items, owner, n)
  {
    GenuineDrop(s.items, failed, owner, n, k);
    var a, b := s.items[k..], Tag(s.stray[..j], Batch(s.batch));
    if s.stray != [] {
      GenuineTag(s.stray, j, failed, owner, n, s.batch);
      assert forall i :: 0 <= i < |a| && a[i].origin.Unconfirmed? ==> a[i].origin.batch != s.batch;
      GenuineAppend(a, b, failed);
      hide Genuine, Named;
    } else {
      assert a + b == a;
    }
  }

  lemma {:induction false} RecoverTraced(n: Name, log: Bytes, journal: Bytes, s: Shadow, failed: seq<seq<Event>>, owner: seq<Name>)
    requires Explains(log, journal, s) && Traced(n, s, failed, owner)
    ensures Genuine(TaggedItems(log, journal, s), failed) && Owned(TaggedItems(log, journal, s), owner, n)
  {
    hide Explains, Traced;
    var j, ack := RecoverExplained(log, journal, s);
    assert ack <= |s.items| by { AckInRange(log, journal, s); }
    assert (Events(s.items) + s.stray[..j])[|s.items|..] == s.stray[..j];
    TracedLonger(n, s, failed, owner, ack, j);
  }

  lemma {:induction false} AckInRange(log: Bytes, journal: Bytes, s: Shadow)
    requires Explains(log, journal, s)
    ensures s.Ack() <= s.tried <= |s.items|
  {
  }

  /** Every item that is not accepted belongs to a batch meant for one of these segments. */
  ghost predicate OwnedBy(items: seq<Item>, owner: seq<Name>, names: seq<Name>) {
    forall i :: 0 <= i < |items| && items[i].origin.Unconfirmed? ==>
      items[i].origin.batch < |owner| && owner[items[i].origin.batch] in names
  }

  lemma {:induction false} OwnersApart(a: seq<Item>, b: seq<Item>, owner: seq<Name>, n: Name, names: seq<Name>)
    requires Owned(a, owner, n) && OwnedBy(b, owner, names) && n !in names
    ensures Apart(a, b)
  {
  }

  lemma {:induction false} ListingGenuine(names: seq<Name>, disk: Disk, shadow: map<Name, Shadow>, failed: seq<seq<Event>>, owner: seq<Name>)
    requires Sorted(names) && DiskOk(disk, shadow) && forall n :: n in names ==> n in shadow && shadow[n].Ok() && Traced(n, shadow[n], failed, owner)
    ensures Genuine(TaggedAll(names, disk, shadow), failed) && OwnedBy(TaggedAll(names, disk, shadow), owner, names)
    decreases |names|
  {
    hide Shadow.Ok, ExplainsLog, ExplainsJournal, Traced, TaggedItems, Named, Genuine, Sorted;
    if names == [] {
      NothingGenuine(failed);
    } else {
      var n, rest := names[0], names[1..];
      SortedTail(names);
      ListingGenuine(rest, disk, shadow, failed, owner);
      RecoverTraced(n, disk.logs[n], disk.AckJournal(n), shadow[n], failed, owner);
      var first, more := TaggedItems(disk.logs[n], disk.AckJournal(n), shadow[n]), TaggedAll(rest, disk, shadow);
      OwnersApart(first, more, owner, n, rest);
      GenuineAppend(first, more, failed);
    }
  }

  lemma {:induction false} SparesAppend(a: seq<Item>, b: seq<Item>, done: set<Origin>)
    requires Spares(a, done) && Spares(b, done)
    ensures Spares(a + b, done)
  {
  }

  /** Whatever recovery adopts of the stray batch is not acknowledged either. */
  lemma {:induction false} SparedLonger(s: Shadow, done: set<Origin>, k: nat, j: nat)
    requires Spared(s, done) && s.Ack() <= k <= |s.items| && j <= |s.stray|
    ensures Spares(s.items[k..] + Tag(s.stray[..j], Batch(s.batch)), done)
  {
    var rest := s.items[k..];
    assert forall i :: 0 <= i < |rest| ==> rest[i] == s.Pending()[k - s.Ack() + i];
  }

  lemma {:induction false} RecoverSpared(log: Bytes, journal: Bytes, s: Shadow, done: set<Origin>)
    requires Explains(log, journal, s) && Spared(s, done)
    ensures Spares(TaggedItems(log, journal, s), done)
  {
    hide Explains, Spared, Spares;
    var j, ack := RecoverExplained(log, journal, s);
    AckInRange(log, journal, s);
    assert (Events(s.items) + s.stray[..j])[|s.items|..] == s.stray[..j];
    SparedLonger(s, done, ack, j);
  }

  lemma {:induction false} ListingSpared(names: seq<Name>, disk: Disk, shadow: map<Name, Shadow>, done: set<Origin>)
    requires DiskOk(disk, shadow) && forall n :: n in names ==> n in shadow && shadow[n].Ok() && Spared(shadow[n], done)
    ensures Spares(TaggedAll(names, disk, shadow), done)
    decreases |names|
  {
    hide Shadow.Ok, ExplainsLog, ExplainsJournal, Spared, TaggedItems;
    if names != [] {
      var n, rest := names[0], names[1..];
      ListingSpared(rest, disk, shadow, done);
      RecoverSpared(disk.logs[n], disk.AckJournal(n), shadow[n], done);
      SparesAppend(TaggedItems(disk.logs[n], disk.AckJournal(n), shadow[n]), TaggedAll(rest, disk, shadow), done);
    }
  }

  lemma {:induction false} NothingGenuine(failed: seq<seq<Event>>)
    ensures Genuine([], failed)
  {
  }

  // ---------- Segments that come back ----------

  /** The history of what a crash has left. */
  function Returned(h: History, names: set<Name>): History {
    var back := map n | n in h.ghosts && n in names && n !in h.shadow :: h.ghosts[n];
    h.(shadow := h.shadow + back,
       queue := h.queue.(waiting := h.queue.waiting + map n | n in back :: []),
       ghosts := map[])
  }

  lemma {:induction false} ReturnedQueue(q: Queue<Item>, back: set<Name>)
    requires QueueOk(q) && back !! q.waiting.Keys
    ensures QueueOk(q.(waiting := q.waiting + map n | n in back :: []))
  {
    AllSame(q.live, q.waiting, q.waiting + map n | n in back :: []);
  }

  lemma {:induction false} ReturnedLinked(h: History, names: set<Name>)
    requires Linked(h.shadow, h.queue) && (h.queue.doubt.Some? ==> h.queue.doubt.value in h.shadow)
    requires forall n :: n in h.ghosts ==> h.ghosts[n].Ok() && Waiting(h.ghosts[n]) == [] && h.ghosts[n].tried == h.ghosts[n].Ack()
    ensures Linked(Returned(h, names).shadow, Returned(h, names).queue)
  {
    hide Shadow.Ok, Waiting, Covered;
  }

  lemma {:induction false} GhostsDrained(disk: Disk, h: History)
    requires GhostsOk(disk, h.ghosts, h.failed, h.owner)
    ensures forall n :: n in h.ghosts ==> h.ghosts[n].Ok() && Waiting(h.ghosts[n]) == [] && h.ghosts[n].tried == h.ghosts[n].Ack()
  {
    hide Shadow.Ok, Waiting, ExplainsLog, ExplainsJournal, Traced;
  }

  lemma {:induction false} ReturnedAt(disk: Disk, left: Disk, h: History, n: Name)
    requires DiskOk(disk, h.shadow) && GhostsOk(disk, h.ghosts, h.failed, h.owner) && Survivor(disk, left) && n in left.logs
    ensures n in Returned(h, left.logs.Keys).shadow
    ensures var s := Returned(h, left.logs.Keys).shadow[n];
            ExplainsLog(left.logs[n], s) && ExplainsJournal(left.AckJournal(n), s)
  {
    hide Shadow.Ok, Waiting, ExplainsLog, ExplainsJournal, Traced;
    assert left.AckJournal(n) == disk.AckJournal(n);
  }

  lemma {:induction false} ReturnedNames(disk: Disk, left: Disk, h: History)
    requires DiskOk(disk, h.shadow) && Survivor(disk, left)
    ensures Returned(h, left.logs.Keys).shadow.Keys <= left.logs.Keys
  {
    hide ExplainsLog, ExplainsJournal;
  }

  lemma {:induction false} ReturnedDisk(disk: Disk, left: Disk, h: History)
    requires DiskOk(disk, h.shadow) && GhostsOk(disk, h.ghosts, h.failed, h.owner) && Survivor(disk, left)
    ensures DiskOk(left, Returned(h, left.logs.Keys).shadow)
  {
    hide Returned, Survivor, GhostsOk, ExplainsLog, ExplainsJournal;
    ReturnedNames(disk, left, h);
    forall n | n in left.logs
      ensures n in Returned(h, left.logs.Keys).shadow
      ensures var s := Returned(h, left.logs.Keys).shadow[n];
              ExplainsLog(left.logs[n], s) && ExplainsJournal(left.AckJournal(n), s)
    {
      ReturnedAt(disk, left, h, n);
    }
  }

  lemma {:induction false} ReturnedOrigins(disk: Disk, left: Disk, h: History)
    requires OriginsOk(h.shadow, h.queue.accepted, h.failed, h.owner) && GhostsOk(disk, h.ghosts, h.failed, h.owner)
    ensures OriginsOk(Returned(h, left.logs.Keys).shadow, h.queue.accepted, h.failed, h.owner)
  {
    hide Waiting, Explains, Traced, Numbered;
  }

  lemma {:induction false} ReturnedHistory(disk: Disk, left: Disk, h: History)
    requires HistoryOk(h)
    requires forall n :: n in h.ghosts ==> h.ghosts[n].Ok() && Waiting(h.ghosts[n]) == [] && h.ghosts[n].tried == h.ghosts[n].Ack()
    ensures HistoryOk(Returned(h, left.logs.Keys))
  {
    hide Shadow.Ok, Waiting, Covered, All, LiveOk;
    DoubtStored(h);
    var back := set n | n in h.ghosts && n in left.logs && n !in h.shadow;
    assert Returned(h, left.logs.Keys).queue == h.queue.(waiting := h.queue.waiting + map n | n in back :: []);
    ReturnedQueue(h.queue, back);
    ReturnedLinked(h, left.logs.Keys);
  }

  lemma {:induction false} DoubtStored(h: History)
    requires HistoryOk(h)
    ensures h.queue.doubt.Some? ==> h.queue.doubt.value in h.shadow
  {
    hide Shadow.Ok, Waiting, Covered, All, LiveOk;
  }

  lemma {:induction false} NoGhosts(left: Disk, failed: seq<seq<Event>>, owner: seq<Name>)
    requires left.gone == map[]
    ensures GhostsOk(left, map[], failed, owner)
  {
  }

  /** Whatever comes back is drained, so the directory stays explained. */
  lemma {:induction false} KeepReturned(disk: Disk, left: Disk, h: History)
    requires Invariant(disk, h) && Survivor(disk, left)
    ensures Invariant(left, Returned(h, left.logs.Keys))
  {
    hide HistoryOk, DiskOk, OriginsOk, GhostsOk, Shadow.Ok, Waiting, Shadow.Ack, Spared;
    GhostsDrained(disk, h);
    ReturnedDisk(disk, left, h);
    ReturnedOrigins(disk, left, h);
    ReturnedHistory(disk, left, h);
    NoGhosts(left, h.failed, h.owner);
  }

  // ---------- Main results ----------

  lemma {:induction false} ListingIsSafe(names: seq<Name>, disk: Disk, h: History) returns (k: nat)
    requires Invariant(disk, h) && IsListing(names, disk.logs.Keys)
    ensures LedgerOf(h).acked <= k <= LedgerOf(h).reach && SafeOutcome(names, disk, LedgerOf(h), k)
  {
    hide ExplainsLog, ExplainsJournal, Waiting, Covered, Shadow.Ok, Traced, Sorted, GhostOk, Genuine, LiveOk, DoubtOk, All, Numbered, Spared, Spares;
    k := KeptQueue(names, disk, h);
    RecoverListing(names, disk, h.shadow);
    ListingGenuine(names, disk, h.shadow, h.failed, h.owner);
    ListingSpared(names, disk, h.shadow, h.done);
    assert Accounts(TaggedAll(names, disk, h.shadow), h.queue.accepted, h.failed, h.done, k);
    assert RecoversTo(names, disk, TaggedAll(names, disk, h.shadow));
  }

  lemma {:induction false} ExplainedIsSafe(disk: Disk, h: History)
    requires Invariant(disk, h)
    ensures SafeDisk(disk, LedgerOf(h))
  {
    hide Invariant, SafeOutcome, LedgerOf;
    forall names: seq<Name> | IsListing(names, disk.logs.Keys)
      ensures exists k :: LedgerOf(h).acked <= k <= LedgerOf(h).reach && SafeOutcome(names, disk, LedgerOf(h), k)
    {
      var k := ListingIsSafe(names, disk, h);
    }
  }

  /** Main result: whatever was interrupted and whatever comes back, an explained
      directory recovers. */
  lemma {:induction false} InvariantIsCrashSafe(disk: Disk, h: History)
    requires Invariant(disk, h)
    ensures CrashSafe(disk, LedgerOf(h))
  {
    hide Invariant, SafeDisk, Survivor, Numbered, LedgerOf, Returned;
    ReturnedLedger(disk, h);
    forall left | Survivor(disk, left)
      ensures SafeDisk(left, LedgerOf(h))
    {
      KeepReturned(disk, left, h);
      ExplainedIsSafe(left, Returned(h, left.logs.Keys));
    }
  }

  lemma {:induction false} ReturnedLedger(disk: Disk, h: History)
    requires Invariant(disk, h)
    ensures Numbered(LedgerOf(h).accepted) && forall names :: LedgerOf(Returned(h, names)) == LedgerOf(h)
  {
    hide HistoryOk, DiskOk, GhostsOk, DoneOk, Traced, Numbered;
  }

  lemma {:induction false} ConfirmedHas(items: seq<Item>, i: nat)
    requires i < |items| && items[i].origin.Accepted?
    ensures items[i] in Confirmed(items)
  {
    if i > 0 {
      ConfirmedHas(items[1..], i - 1);
    }
  }

  /** What the accounting means for a single recovered event: an accepted one is beyond the
      first `k` and is that very event; any other is the named event of a failed batch that
      is not acknowledged either. */
  lemma {:induction false} AcknowledgedNeverReturn(items: seq<Item>, accepted: seq<Item>, failed: seq<seq<Event>>, done: set<Origin>, k: nat, i: nat)
    requires Numbered(accepted) && Accounts(items, accepted, failed, done, k) && i < |items|
    ensures match items[i].origin
            case Accepted(index) => k <= index < |accepted| && items[i] == accepted[index]
            case Unconfirmed(batch, index) =>
              batch < |failed| && index < |failed[batch]| && failed[batch][index] == items[i].event && items[i].origin !in done
    ensures forall j :: 0 <= j < |items| && j != i ==> items[j].origin != items[i].origin
  {
    if items[i].origin.Accepted? {
      ConfirmedHas(items, i);
      var rest := accepted[k..];
      var j :| 0 <= j < |rest| && rest[j] == items[i];
      assert rest[j] == accepted[k + j];
    }
    forall j | 0 <= j < |items| && j != i && items[j].origin.Accepted?
      ensures items[j].origin != items[i].origin
    {
      if items[i].origin.Accepted? {
        ConfirmedOnce(items, accepted, k, i, j);
      }
    }
  }

  /** Positions in the accepted part: two accepted items of a sequence are two of its confirmed ones. */
  lemma {:induction false} ConfirmedOnce(items: seq<Item>, accepted: seq<Item>, k: nat, i: nat, j: nat)
    requires Numbered(accepted) && k <= |accepted| && Confirmed(items) == accepted[k..]
    requires i < |items| && j < |items| && i != j && items[i].origin.Accepted? && items[j].origin.Accepted?
    ensures items[i].origin != items[j].origin
  {
    hide Confirmed;
    var a, b := if i < j then i else j, if i < j then j else i;
    assert items == items[..b] + items[b..];
    ConfirmedAppend(items[..b], items[b..]);
    ConfirmedHas(items[..b], a);
    ConfirmedHas(items[b..], 0);
    var front, back := Confirmed(items[..b]), Confirmed(items[b..]);
    var x :| 0 <= x < |front| && front[x] == items[a];
    var y :| 0 <= y < |back| && back[y] == items[b];
    NumberedApart(accepted, k, front, back, x, y);
  }

  lemma {:induction false} NumberedApart(accepted: seq<Item>, k: nat, front: seq<Item>, back: seq<Item>, x: nat, y: nat)
    requires Numbered(accepted) && k <= |accepted| && accepted[k..] == front + back && x < |front| && y < |back|
    ensures front[x].origin != back[y].origin
  {
    assert (front + back)[x] == accepted[k + x] && (front + back)[|front| + y] == accepted[k + |front| + y];
  }
}
