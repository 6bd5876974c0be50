/** What recovery makes of any bytes at all, damaged or not: exactly when it accepts a
    journal and a segment, and what it then reads. */
module JournalRecovery {
  import opened TelemetryCodec
  import opened Sequences
  import opened SpoolRecovery
  import opened FrameFormat

  // ---------- Journals ----------

  /** These bytes are the journal of these acknowledgements, with at most one frame behind
      them that is cut short or whose check fails. */
  ghost predicate Journalled(b: Bytes, count: nat, acks: seq<nat>) {
    var size := ACK_FRAME_BYTES * |acks|;
    && Advancing(acks, count) && size <= |b| && b[..size] == Journal(acks)
    && (|b| - size < ACK_FRAME_BYTES || (|b| - size == ACK_FRAME_BYTES && !ValidFrame(b[size..])))
  }

  /** Scanning behind these acknowledgements only ever ends with a journal of them and more. */
  lemma {:induction false} ScanFinds(b: Bytes, count: nat, acks: seq<nat>) returns (more: seq<nat>)
    requires count < 0x1_0000_0000_0000_0000 && Advancing(acks, count)
    requires ACK_FRAME_BYTES * |acks| <= |b| && b[..ACK_FRAME_BYTES * |acks|] == Journal(acks)
    ensures var r := ScanAcks(b, count, Last(acks), ACK_FRAME_BYTES * |acks|);
            r.AckOk? ==> Journalled(b, count, more) && r == AckOk(Last(more), ACK_FRAME_BYTES * |more|)
    decreases |b| - ACK_FRAME_BYTES * |acks|
  {
    hide ValidFrame, Frame, Journal, FrameNext;
    var pos := ACK_FRAME_BYTES * |acks|;
    more := acks;
    if |b| - pos >= ACK_FRAME_BYTES {
      var frame := b[pos..pos + ACK_FRAME_BYTES];
      if ValidFrame(frame) && Last(acks) < FrameNext(frame) <= count {
        ValidIsWritten(frame);
        AdvancingSnoc(acks, FrameNext(frame), count);
        assert b[..pos + ACK_FRAME_BYTES] == b[..pos] + frame;
        more := ScanFinds(b, count, acks + [FrameNext(frame)]);
      } else {
        assert pos + ACK_FRAME_BYTES == |b| ==> b[pos..] == frame;
      }
    }
  }

  /** Scanning a journal from any of its frames finds the last one. */
  lemma {:induction false} ScanReads(b: Bytes, count: nat, acks: seq<nat>, i: nat)
    requires count < 0x1_0000_0000_0000_0000 && Journalled(b, count, acks) && i <= |acks|
    ensures ScanAcks(b, count, Last(acks[..i]), ACK_FRAME_BYTES * i) == AckOk(Last(acks), ACK_FRAME_BYTES * |acks|)
    decreases |acks| - i
  {
    hide ValidFrame, Frame, Journal, FrameNext;
    if i == |acks| {
      assert acks[..i] == acks;
      ScanEnds(b, count, acks);
    } else {
      hide ScanAcks;
      var size := ACK_FRAME_BYTES * |acks|;
      assert b == Journal(acks) + b[size..];
      JournalFrame(acks, b[size..], i);
      assert Last(acks[..i + 1]) == acks[i];
      ScanStep(b, count, Last(acks[..i]), ACK_FRAME_BYTES * i, acks[i]);
      ScanReads(b, count, acks, i + 1);
    }
  }

  lemma {:induction false} ScanEnds(b: Bytes, count: nat, acks: seq<nat>)
    requires Journalled(b, count, acks)
    ensures ScanAcks(b, count, Last(acks), ACK_FRAME_BYTES * |acks|) == AckOk(Last(acks), ACK_FRAME_BYTES * |acks|)
  {
    hide ValidFrame, Frame, Journal, FrameNext;
    var pos := ACK_FRAME_BYTES * |acks|;
    assert |b| - pos == ACK_FRAME_BYTES ==> b[pos..pos + ACK_FRAME_BYTES] == b[pos..];
  }

  /** Main result on journals, for any bytes: a journal is accepted exactly when it is not too
      long for the segment and is a run of valid, advancing frames with at most one spoilt
      frame at its end; and then the last of them counts. */
  lemma {:induction false} JournalDecides(b: Bytes, count: nat, acks: seq<nat>)
    requires count < 0x1_0000_0000_0000_0000
    ensures |b| <= (count + 1) * ACK_FRAME_BYTES && Journalled(b, count, acks) ==>
      RecoverAck(b, count) == AckOk(Last(acks), ACK_FRAME_BYTES * |acks|)
    ensures RecoverAck(b, count).AckOk? ==> |b| <= (count + 1) * ACK_FRAME_BYTES && exists acks' :: Journalled(b, count, acks')
  {
    hide Journalled, ScanAcks;
    var more := ScanFinds(b, count, []) by { NoFrames(b, count); }
    NoFrames(b, count);
    if Journalled(b, count, acks) {
      assert acks[..0] == [];
      ScanReads(b, count, acks, 0);
    }
  }

  lemma {:induction false} NoFrames(b: Bytes, count: nat)
    ensures Advancing([], count) && b[..0] == Journal([]) && Last([]) == 0
  {
  }

  // ---------- Segments ----------

  ghost predicate Unbroken(lines: seq<Bytes>) {
    forall i :: 0 <= i < |lines| ==> NEWLINE !in lines[i]
  }

  lemma {:induction false} SplitNone(b: Bytes)
    requires LineEnd(b) == |b|
    ensures SplitLines(b) == Parsed([], b) && NEWLINE !in b && b == Lines([]) + b && Unbroken([])
  {
    assert b[..|b|] == b;
    assert Lines([]) + b == b;
  }

  lemma {:induction false} SplitOne(b: Bytes)
    requires LineEnd(b) < |b|
    ensures var n := LineEnd(b);
            var q := SplitLines(b[n + 1..]);
            SplitLines(b) == Parsed([b[..n]] + q.lines, q.tail) && b == b[..n] + [NEWLINE] + b[n + 1..] && NEWLINE !in b[..n]
  {
    hide LineEnd;
  }

  lemma {:induction false} JoinOne(line: Bytes, lines: seq<Bytes>, tail: Bytes)
    ensures line + [NEWLINE] + (Lines(lines) + tail) == Lines([line] + lines) + tail
    ensures NEWLINE !in line && Unbroken(lines) ==> Unbroken([line] + lines)
  {
    assert ([line] + lines)[1..] == lines;
    Associate(line + [NEWLINE], Lines(lines), tail);
  }

  /** Any bytes are complete lines and a tail without a newline, in one way. */
  lemma {:induction false} LinesAndTail(b: Bytes)
    ensures var p := SplitLines(b); b == Lines(p.lines) + p.tail && NEWLINE !in p.tail && Unbroken(p.lines)
    decreases |b|
  {
    hide LineEnd, Lines, SplitLines, Unbroken;
    var n := LineEnd(b);
    if n == |b| {
      SplitNone(b);
    } else {
      var rest := b[n + 1..];
      LinesAndTail(rest);
      SplitOne(b);
      JoinOne(b[..n], SplitLines(rest).lines, SplitLines(rest).tail);
    }
  }

  /** These bytes of a segment and its journal are readable: so many lines, of which the
      first `ack` are acknowledged. */
  ghost predicate ReadAs(log: Bytes, journal: Bytes, lines: seq<Bytes>, tail: Bytes, acks: seq<nat>) {
    && |log| <= SEGMENT_LIMIT && log == Lines(lines) + tail && NEWLINE !in tail
    && (forall i :: 0 <= i < |lines| ==> NEWLINE !in lines[i] && |lines[i]| <= MAX_EVENT_BATCH_BYTES && WellFormed(lines[i]))
    && |journal| <= (|lines| + 1) * ACK_FRAME_BYTES && Journalled(journal, |lines|, acks)
  }

  /** Main result on segments, for any bytes: recovery reads a segment exactly when it is
      readable, and refuses everything else. */
  lemma {:induction false} SegmentDecides(log: Bytes, journal: Bytes, lines: seq<Bytes>, tail: Bytes, acks: seq<nat>)
    ensures ReadAs(log, journal, lines, tail, acks) ==> RecoverFile(log, journal) == Recovered(lines, Last(acks))
    ensures RecoverFile(log, journal).Recovered? ==> exists lines', tail', acks' :: ReadAs(log, journal, lines', tail', acks')
  {
    hide Journalled, RecoverAck, WellFormed, Lines, SplitLines;
    if ReadAs(log, journal, lines, tail, acks) {
      SplitJoined(lines, tail);
      CountBounded(lines);
      assert |lines| <= |log|;
      JournalDecides(journal, |lines|, acks);
    }
    if RecoverFile(log, journal).Recovered? {
      var p := SplitLines(log);
      LinesAndTail(log);
      CountBounded(p.lines);
      JournalDecides(journal, |p.lines|, []);
      var acks' :| Journalled(journal, |p.lines|, acks');
      assert ReadAs(log, journal, p.lines, p.tail, acks');
    }
  }
}
