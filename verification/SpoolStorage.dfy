/** The spool directory as an object: each method is one storage step together
    with its sync, and may fail with or without having taken effect. The ghost
    history and the images of the disk survive a crash of the Agent. */
module SpoolStorage {
  import opened TelemetryCodec
  import opened Wrappers
  import opened Sequences
  import opened DeliveryQueue
  import opened SpoolRecovery
  import opened SpoolHistory

  /** The same accepted events with wider bounds: fewer acknowledged for certain, more in reach
      of an acknowledgement, and more batches that may have left events behind. */
  ghost predicate Within(g: Ledger, wide: Ledger) {
    && wide.accepted == g.accepted && g.failed <= wide.failed && wide.done <= g.done
    && wide.acked <= g.acked && g.reach <= wide.reach
  }

  lemma {:induction false} SafeOutcomeWider(names: seq<Name>, disk: Disk, g: Ledger, wide: Ledger, k: nat)
    requires (forall n :: n in names ==> n in disk.logs) && SafeOutcome(names, disk, g, k) && Within(g, wide)
    ensures SafeOutcome(names, disk, wide, k)
  {
    hide Genuine, RecoversTo, Confirmed;
    var items :| RecoversTo(names, disk, items) && Accounts(items, g.accepted, g.failed, g.done, k);
    GenuineMore(items, g.failed, wide.failed);
    assert Accounts(items, wide.accepted, wide.failed, wide.done, k);
  }

  lemma {:induction false} SafeDiskWider(disk: Disk, g: Ledger, wide: Ledger)
    requires SafeDisk(disk, g) && Within(g, wide)
    ensures SafeDisk(disk, wide)
  {
    hide SafeOutcome;
    forall names: seq<Name> | IsListing(names, disk.logs.Keys)
      ensures exists k :: wide.acked <= k <= wide.reach && SafeOutcome(names, disk, wide, k)
    {
      var k :| g.acked <= k <= g.reach && SafeOutcome(names, disk, g, k);
      SafeOutcomeWider(names, disk, g, wide, k);
    }
  }

  /** What is safe stays safe for wider bounds. */
  lemma {:induction false} CrashSafeWider(disk: Disk, g: Ledger, wide: Ledger)
    requires CrashSafe(disk, g) && Within(g, wide)
    ensures CrashSafe(disk, wide)
  {
    hide SafeDisk, Survivor, Numbered;
    forall left | Survivor(disk, left)
      ensures SafeDisk(left, wide)
    {
      SafeDiskWider(left, g, wide);
    }
  }

  ghost predicate SafeImages(images: seq<Disk>, from: nat, g: Ledger) {
    forall i :: from <= i < |images| ==> CrashSafe(images[i], g)
  }

  lemma {:induction false} SafeImagesWider(images: seq<Disk>, from: nat, g: Ledger, wide: Ledger)
    requires SafeImages(images, from, g) && Within(g, wide)
    ensures SafeImages(images, from, wide)
  {
    hide CrashSafe, Within;
    forall i | from <= i < |images|
      ensures CrashSafe(images[i], wide)
    {
      CrashSafeWider(images[i], g, wide);
    }
  }

  lemma {:induction false} NoSafeImages(images: seq<Disk>, g: Ledger)
    ensures SafeImages(images, |images|, g)
  {
  }

  lemma {:induction false} SafeImagesOne(images: seq<Disk>, disk: Disk, g: Ledger)
    requires CrashSafe(disk, g)
    ensures SafeImages(images + [disk], |images|, g)
  {
    hide CrashSafe;
  }

  lemma {:induction false} SafeImagesJoin(images: seq<Disk>, more: seq<Disk>, from: nat, g: Ledger)
    requires images <= more && from <= |images|
    requires SafeImages(images, from, g) && SafeImages(more, |images|, g)
    ensures SafeImages(more, from, g)
  {
    hide CrashSafe;
  }

  const EMPTY := History(map[], Queue(map[], [], None, 0, [], 0), [], [], {}, map[])

  class SpoolDirectory {
    var logs: map<Name, Bytes>
    var acks: map<Name, Bytes>
    /** Segments unlinked since the last directory sync: a crash may bring them back. */
    var gone: map<Name, Bytes>
    /** How many storage steps have failed so far. */
    ghost var faults: nat
    ghost var history: History
    ghost var images: seq<Disk>

    function Now(): Disk
      reads this
    {
      Disk(logs, acks, gone)
    }

    ghost predicate Valid()
      reads this
    {
      Invariant(Now(), history)
    }

    constructor ()
      ensures Valid() && logs == map[] && acks == map[] && gone == map[] && images == [] && faults == 0
      ensures history == EMPTY
    {
      logs, acks, gone, images, faults := map[], map[], map[], [], 0;
      history := EMPTY;
    }

    /** This step left one new image, safe for the queue as it was before the step, and
        counts as a fault unless it succeeded. `failed`: the batches that may have left
        events behind by now. */
    twostate predicate Recorded(ok: bool, new failed: seq<seq<Event>>)
      reads this
    {
      && CrashSafe(Now(), old(LedgerOf(history)).(failed := failed))
      && images == old(images) + [Now()] && faults == old(faults) + if ok then 0 else 1
    }

    /** Read something; the content is that of the fields. */
    method Read() returns (ok: bool)
      modifies this`faults
      ensures faults == old(faults) + if ok then 0 else 1
    {
      ok := *;
      faults := faults + if ok then 0 else 1;
    }

    /** The host goes down: any of the segments whose unlinking was not synced may be back. */
    method Crash()
      requires Valid()
      modifies this
      ensures Valid() && Survivor(old(Now()), Now()) && history == Returned(old(history), logs.Keys)
      ensures images == old(images) && faults == old(faults)
    {
      hide Invariant;
      var back: set<Name> := *;
      var left := logs + map n | n in gone && n in back && n !in logs :: gone[n];
      KeepReturned(Now(), Disk(left, acks, map[]), history);
      history := Returned(history, left.Keys);
      logs, gone := left, map[];
    }

    /** Write a temporary file, rename it to its final name and sync the directory. */
    method CreateLog(n: Name, data: Bytes, ghost events: seq<Event>) returns (ok: bool)
      requires Valid() && n !in logs && n !in acks && n !in gone
      requires data == Lines(events) && Storable(events) && |data| <= SEGMENT_LIMIT
      requires Newest(history.queue, n)
      modifies this
      ensures Valid() && Recorded(ok, old(history.failed) + [events]) && acks == old(acks)
      ensures ok ==> history == Created(old(history), n, events, true)
      ensures !ok ==> history == Refused(old(history), n, events) || history == Created(old(history), n, events, false)
    {
      hide Invariant, CrashSafe, Lines;
      var renamed: bool := *;
      if renamed {
        KeepCreated(Now(), history, n, events, false);
        KeepCreated(Now(), history, n, events, true);
        logs := logs[n := data];
        ghost var orphan := Created(history, n, events, false);
        InvariantIsCrashSafe(Now(), orphan);
        ok := *;
        history := if ok then Created(history, n, events, true) else orphan;
      } else {
        ok := false;
        KeepRefused(Now(), history, n, events);
        history := Refused(history, n, events);
        InvariantIsCrashSafe(Now(), history);
      }
      faults := faults + if ok then 0 else 1;
      images := images + [Now()];
    }

    /** Cut a failed tail off the segment, write the batch behind it and sync. */
    method AppendLog(n: Name, data: Bytes, offset: nat, ghost events: seq<Event>) returns (ok: bool)
      requires n in history.shadow && offset == |Lines(Events(history.shadow[n].items))|
      requires data == Lines(events) && Storable(events) && offset + |data| <= SEGMENT_LIMIT
      requires Valid() && Newest(history.queue, n)
      modifies this
      ensures ok ==> history == Appended(old(history), n, events)
      ensures !ok ==> history == Refused(old(history), n, events) || history == Stray(old(history), n, events)
      ensures Valid() && Recorded(ok, old(history.failed) + [events]) && acks == old(acks)
    {
      hide Invariant, CrashSafe, Lines;
      var usable: bool := *;
      if usable {
        KeepAppended(Now(), history, n, events);
        KeepStray(Now(), history, n, events, |data|);
        assert data[..|data|] == data;
        var log := logs[n][..offset];
        ok := *;
        if ok {
          logs := logs[n := log + data];
          InvariantIsCrashSafe(Now(), Stray(history, n, events));
          history := Appended(history, n, events);
        } else {
          var k := PartialWrite(|data|);
          KeepStray(Now(), history, n, events, k);
          logs := logs[n := log + data[..k]];
          history := Stray(history, n, events);
          InvariantIsCrashSafe(Now(), history);
        }
      } else {
        ok := false;
        KeepRefused(Now(), history, n, events);
        history := Refused(history, n, events);
        InvariantIsCrashSafe(Now(), history);
      }
      faults := faults + if ok then 0 else 1;
      images := images + [Now()];
    }

    /** How much of an interrupted write reached the file. */
    static method PartialWrite(size: nat) returns (k: nat)
      ensures k <= size
    {
      k :| 0 <= k <= size;
    }

    /** Cut a failed tail off the journal, write the frame behind it and sync. */
    method AppendAck(n: Name, next: nat, offset: nat) returns (ok: bool)
      requires Valid() && history.queue.live != [] && n == history.queue.live[0] && n in history.shadow
      requires history.queue.doubt == None || history.queue.doubt == Some(n)
      requires history.shadow[n].Ack() < next <= |history.shadow[n].items|
      requires offset == ACK_FRAME_BYTES * |history.shadow[n].acks|
      modifies this
      ensures Valid() && logs == old(logs)
      ensures images == old(images) + [Now()] && faults == old(faults) + if ok then 0 else 1
      ensures CrashSafe(Now(), if !ok && history == old(history) then old(LedgerOf(history)) else old(LedgerOf(Tried(history, next))))
      ensures history.queue.covered <= |At(history.queue.waiting, n)|
      ensures old(Tried(history, next).queue.covered) <= |old(At(history.queue.waiting, n))|
      ensures ok ==> history == Settled(old(Tried(history, next)), n)
      ensures !ok ==> history == old(history) || history == old(Tried(history, next))
    {
      hide Invariant, CrashSafe, Frame, Journal, Covered;
      ghost var tried := Tried(history, next);
      TriedFacts(Now(), history, n, next);
      var usable: bool := *;
      if usable {
        var journal := if n in acks then acks[n] else [];
        KeepTried(Now(), history, n, next, ACK_FRAME_BYTES);
        ok := *;
        if ok {
          acks := acks[n := journal[..offset] + Frame(next)];
          assert Frame(next)[..ACK_FRAME_BYTES] == Frame(next);
          SettledFacts(Now(), old(Now()), old(history), n, next);
          InvariantIsCrashSafe(Now(), tried);
          history := Settled(tried, n);
        } else {
          var k := PartialWrite(ACK_FRAME_BYTES);
          KeepTried(Now(), history, n, next, k);
          acks := acks[n := journal[..offset] + Frame(next)[..k]];
          history := tried;
          InvariantIsCrashSafe(Now(), history);
        }
      } else {
        ok := false;
        InvariantIsCrashSafe(Now(), history);
      }
      faults := faults + if ok then 0 else 1;
      images := images + [Now()];
    }

    /** Unlink a segment, if it is there, and sync the directory. A sync makes this and all
        earlier unlinks durable; without one a crash may bring the segment back. */
    method RemoveLog(n: Name) returns (ok: bool)
      requires Valid() && n !in history.queue.live && history.queue.doubt != Some(n)
      modifies this
      ensures Valid() && Recorded(ok, old(history.failed)) && acks == old(acks)
      ensures logs == old(logs) || logs == old(logs) - {n}
      ensures ok ==> history == Removed(old(history), n) && logs == old(logs) - {n} && gone == map[]
      ensures gone.Keys <= old(gone.Keys + logs.Keys)
      ensures !ok ==> history == old(history) || history == Unlinked(old(history), n)
    {
      hide Invariant, CrashSafe;
      ok := *;
      var unlinked: bool := *;
      if ok {
        KeepRemovedLog(Now(), history, n);
        logs, gone := logs - {n}, map[];
        history := Removed(history, n);
      } else if unlinked {
        KeepUnlinkedLog(Now(), history, n);
        if n in logs {
          logs, gone := logs - {n}, gone[n := logs[n]];
          history := Unlinked(history, n);
        }
      }
      InvariantIsCrashSafe(Now(), history);
      faults := faults + if ok then 0 else 1;
      images := images + [Now()];
    }

    /** Unlink the journal of a segment that is gone for good. */
    method RemoveAck(n: Name) returns (ok: bool)
      requires Valid() && n !in logs && n !in gone
      modifies this
      ensures Valid() && Recorded(ok, old(history.failed)) && logs == old(logs) && gone == old(gone) && history == old(history)
      ensures acks == if ok then old(acks) - {n} else old(acks)
    {
      hide Invariant, CrashSafe;
      ok := *;
      if ok {
        KeepRemovedAck(Now(), history, n);
        acks := acks - {n};
      }
      InvariantIsCrashSafe(Now(), history);
      faults := faults + if ok then 0 else 1;
      images := images + [Now()];
    }

    /** Delete a drained segment and, once that is durable, its journal. */
    method DeleteSegment(n: Name) returns (ok: bool)
      requires Valid() && n !in history.queue.live && history.queue.doubt != Some(n)
      modifies this
      ensures Valid() && old(images) <= images && old(faults) <= faults && (ok <==> faults == old(faults))
      ensures SafeImages(images, |old(images)|, old(LedgerOf(history)))
      ensures logs in {old(logs), old(logs) - {n}} && acks in {old(acks), old(acks) - {n}} && gone.Keys <= old(gone.Keys + logs.Keys)
      ensures history in {old(history), old(Removed(history, n)), old(Unlinked(history, n))}
      ensures ok ==> logs == old(logs) - {n} && acks == old(acks) - {n} && gone == map[] && history == old(Removed(history, n))
    {
      hide Invariant, CrashSafe, SafeImages;
      ghost var h := history;
      ok := RemoveLog(n);
      SafeImagesOne(old(images), Now(), LedgerOf(h));
      ghost var before := images;
      if ok {
        ok := RemoveAck(n);
        SafeImagesOne(before, Now(), LedgerOf(h));
        SafeImagesJoin(before, images, |old(images)|, LedgerOf(h));
      }
    }

    /** Cut the torn last frame off a journal and sync. */
    method TruncateAck(n: Name, size: nat) returns (ok: bool)
      requires Valid() && n in history.shadow && n in acks
      requires size == ACK_FRAME_BYTES * |history.shadow[n].acks|
      modifies this
      ensures Valid() && Recorded(ok, old(history.failed)) && logs == old(logs) && gone == old(gone) && acks.Keys == old(acks.Keys)
      ensures CrashSafe(Now(), LedgerOf(history))
      ensures acks == old(acks) || acks == old(acks)[n := Journal(old(history).shadow[n].acks)]
      ensures ok ==> history == Abandoned(old(history), n) && acks == old(acks)[n := Journal(old(history).shadow[n].acks)]
      ensures !ok ==> history == old(history) || history == Abandoned(old(history), n)
    {
      hide Invariant, CrashSafe, Journal, Frame;
      var cut: bool := *;
      if cut {
        JournalPrefix(Now(), history, n);
        KeepAbandoned(Now(), history, n);
        AbandonedIsSafe(Now(), history, n);
        acks := acks[n := acks[n][..size]];
        history := Abandoned(history, n);
      } else {
        InvariantIsCrashSafe(Now(), history);
      }
      ok := *;
      ok := ok && cut;
      faults := faults + if ok then 0 else 1;
      images := images + [Now()];
    }

    /** Cut the torn last line off a segment and sync. */
    method TruncateLog(n: Name, size: nat, ghost j: nat) returns (ok: bool)
      requires Valid() && n in history.shadow && n in logs && j <= |history.shadow[n].stray|
      requires size <= |logs[n]| && logs[n][..size] == Lines(Events(history.shadow[n].items) + history.shadow[n].stray[..j])
      modifies this
      ensures Valid() && Recorded(ok, old(history.failed)) && acks == old(acks) && gone == old(gone) && logs.Keys == old(logs.Keys)
      ensures logs == old(logs) || logs == old(logs)[n := old(logs)[n][..size]]
      ensures ok ==> history == Adopted(old(history), n, j) && logs == old(logs)[n := old(logs)[n][..size]]
      ensures !ok ==> history == old(history) || history == Adopted(old(history), n, j)
    {
      hide Invariant, CrashSafe, Lines;
      var cut: bool := *;
      if cut {
        KeepAdopted(Now(), history, n, j);
        logs := logs[n := logs[n][..size]];
        history := Adopted(history, n, j);
      }
      InvariantIsCrashSafe(Now(), history);
      ok := *;
      ok := ok && cut;
      faults := faults + if ok then 0 else 1;
      images := images + [Now()];
    }
  }

  lemma {:induction false} TriedFacts(disk: Disk, h: History, n: Name, next: nat)
    requires Invariant(disk, h) && h.queue.live != [] && n == h.queue.live[0] && n in h.shadow
    requires h.queue.doubt == None || h.queue.doubt == Some(n)
    requires h.shadow[n].Ack() < next <= |h.shadow[n].items|
    ensures Tried(h, next).queue.covered <= |At(h.queue.waiting, n)|
    ensures h.queue.covered <= |At(h.queue.waiting, n)|
    ensures At(Tried(h, next).queue.waiting, n) == At(h.queue.waiting, n)
  {
    hide Covered, Waiting, ExplainsLog, ExplainsJournal;
    SegmentAt(disk, h, n);
    TriedSegment(h.shadow[n], next);
  }

  lemma {:induction false} SettledFacts(disk: Disk, before: Disk, h: History, n: Name, next: nat)
    requires Invariant(before, h) && h.queue.live != [] && n == h.queue.live[0] && n in h.shadow
    requires h.queue.doubt == None || h.queue.doubt == Some(n)
    requires h.shadow[n].Ack() < next <= |h.shadow[n].items|
    requires Invariant(disk, Tried(h, next))
    requires ACK_FRAME_BYTES * |h.shadow[n].acks| <= |before.AckJournal(n)|
    requires disk.AckJournal(n) == before.AckJournal(n)[..ACK_FRAME_BYTES * |h.shadow[n].acks|] + Frame(next)
    ensures Tried(h, next).queue.covered <= |At(Tried(h, next).queue.waiting, n)|
    ensures Invariant(disk, Settled(Tried(h, next), n))
    ensures Settled(Tried(h, next), n).queue.covered == 0
  {
    hide Invariant, Frame, Journal, Covered;
    JournalPrefix(before, h, n);
    KeepSettled(disk, Tried(h, next), n);
  }

  lemma {:induction false} JournalPrefix(disk: Disk, h: History, n: Name)
    requires Invariant(disk, h) && n in h.shadow
    ensures ACK_FRAME_BYTES * |h.shadow[n].acks| <= |disk.AckJournal(n)|
    ensures disk.AckJournal(n)[..ACK_FRAME_BYTES * |h.shadow[n].acks|] == Journal(h.shadow[n].acks)
  {
    hide Covered, Waiting, ExplainsLog, QueueOk, Journal;
  }

  /** Abandoning a torn acknowledgement stays within the bounds of the attempt. */
  lemma {:induction false} AbandonedIsSafe(disk: Disk, h: History, n: Name)
    requires Invariant(disk, h) && n in h.shadow
    ensures CrashSafe(disk.(acks := disk.acks[n := Journal(h.shadow[n].acks)]), LedgerOf(h))
    ensures CrashSafe(disk.(acks := disk.acks[n := Journal(h.shadow[n].acks)]), LedgerOf(Abandoned(h, n)))
  {
    hide Invariant, CrashSafe, Journal;
    KeepAbandoned(disk, h, n);
    InvariantIsCrashSafe(disk.(acks := disk.acks[n := Journal(h.shadow[n].acks)]), Abandoned(h, n));
    CrashSafeWider(disk.(acks := disk.acks[n := Journal(h.shadow[n].acks)]), LedgerOf(Abandoned(h, n)), LedgerOf(h));
  }
}
