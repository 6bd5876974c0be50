/** The two on-disk formats of the Agent's telemetry spool: newline-terminated
    JSON events in a segment, and 16-byte checksummed frames in its
    acknowledgement journal. Both are append-only, so the lemmas are about what
    a reader makes of a valid file followed by an interrupted write. */
module TelemetryCodec {
  import opened Sequences

  type byte = b: int | 0 <= b < 256
  type Bytes = seq<byte>

  const NEWLINE: byte := 10
  const OPEN_BRACE: byte := 123
  const CLOSE_BRACE: byte := 125
  const MAX_EVENT_BATCH_BYTES: nat := 10485760
  const ACK_FRAME_BYTES: nat := 16
  const ACK_MAGIC: nat := 0x4b504c31

  // ---------- Events ----------

  /** Stands for a successful JSON decode of one event object: encoding an event
      gives an object literal without a raw newline. */
  predicate WellFormed(e: Bytes) {
    |e| >= 2 && e[0] == OPEN_BRACE && e[|e| - 1] == CLOSE_BRACE && NEWLINE !in e
  }

  /** Events are handled in encoded form. */
  type Event = Bytes

  /** Encoded events that one segment line may hold. */
  predicate Storable(events: seq<Event>) {
    forall i :: 0 <= i < |events| ==> WellFormed(events[i]) && |events[i]| <= MAX_EVENT_BATCH_BYTES
  }

  function Lines(events: seq<Bytes>): Bytes {
    if events == [] then [] else events[0] + [NEWLINE] + Lines(events[1..])
  }

  lemma {:induction false} LinesAppend(a: seq<Bytes>, b: seq<Bytes>)
    ensures Lines(a + b) == Lines(a) + Lines(b)
  {
    if a == [] {
      assert a + b == b;
    } else {
      assert (a + b)[1..] == a[1..] + b;
      LinesAppend(a[1..], b);
    }
  }

  /** An event's bytes are found in the segment at the length of what precedes it. */
  lemma {:induction false} LinesSlice(events: seq<Bytes>, k: nat)
    requires k < |events|
    ensures |Lines(events[..k])| + |events[k]| < |Lines(events)|
    ensures Lines(events)[|Lines(events[..k])|..|Lines(events[..k])| + |events[k]|] == events[k]
    ensures |Lines(events[..k + 1])| == |Lines(events[..k])| + |events[k]| + 1
  {
    var before, rest := events[..k], events[k..];
    assert events == before + rest;
    LinesAppend(before, rest);
    assert Lines(rest) == events[k] + [NEWLINE] + Lines(rest[1..]);
    assert events[..k + 1] == before + [events[k]];
    LinesAppend(before, [events[k]]);
    assert Lines([events[k]]) == events[k] + [NEWLINE];
  }

  /** Length of the first line without its newline, or the whole length. */
  function LineEnd(b: Bytes): (n: nat)
    ensures n <= |b|
    ensures NEWLINE !in b[..n]
    ensures n < |b| ==> b[n] == NEWLINE
  {
    if b == [] || b[0] == NEWLINE then 0
    else
      var n := 1 + LineEnd(b[1..]);
      assert b[..n] == [b[0]] + b[1..][..n - 1];
      n
  }

  datatype Parsed = Parsed(lines: seq<Bytes>, tail: Bytes)

  /** What a line reader sees: complete lines, then an unterminated tail. */
  function SplitLines(b: Bytes): Parsed
    decreases |b|
  {
    var n := LineEnd(b);
    if n == |b| then Parsed([], b)
    else
      var rest := SplitLines(b[n + 1..]);
      Parsed([b[..n]] + rest.lines, rest.tail)
  }

  lemma {:induction false} LineEndAt(line: Bytes, rest: Bytes)
    requires NEWLINE !in line
    ensures LineEnd(line + [NEWLINE] + rest) == |line|
  {
    var b := line + [NEWLINE] + rest;
    var n := LineEnd(b);
    assert b[|line|] == NEWLINE;
    forall i | 0 <= i < n
      ensures b[i] != NEWLINE
    {
      assert b[..n][i] == b[i];
    }
    assert forall i :: 0 <= i < |line| ==> b[i] == line[i] && line[i] in line;
  }

  lemma {:induction false} SplitFirst(line: Bytes, rest: Bytes)
    requires NEWLINE !in line
    ensures SplitLines(line + [NEWLINE] + rest) == Parsed([line] + SplitLines(rest).lines, SplitLines(rest).tail)
  {
    var b := line + [NEWLINE] + rest;
    LineEndAt(line, rest);
    assert b[..|line|] == line;
    assert b[|line| + 1..] == rest;
  }

  lemma {:induction false} SplitTail(tail: Bytes)
    requires NEWLINE !in tail
    ensures SplitLines(tail) == Parsed([], tail)
  {
    assert forall i :: 0 <= i < |tail| ==> tail[i] in tail;
  }

  /** Splitting undoes joining, whatever unterminated bytes follow. */
  lemma {:induction false} SplitJoined(lines: seq<Bytes>, tail: Bytes)
    requires forall i :: 0 <= i < |lines| ==> NEWLINE !in lines[i]
    requires NEWLINE !in tail
    ensures SplitLines(Lines(lines) + tail) == Parsed(lines, tail)
    decreases |lines|
  {
    if lines == [] {
      assert Lines(lines) + tail == tail;
      SplitTail(tail);
    } else {
      var rest := Lines(lines[1..]) + tail;
      SplitJoined(lines[1..], tail);
      SplitFirst(lines[0], rest);
      Associate(lines[0] + [NEWLINE], Lines(lines[1..]), tail);
      assert lines == [lines[0]] + lines[1..];
    }
  }

  predicate IsPrefix(p: Bytes, b: Bytes) {
    |p| <= |b| && p == b[..|p|]
  }

  /** An interrupted append leaves whole events followed by at most one torn line. */
  lemma {:induction false} PrefixOfLines(p: Bytes, events: seq<Event>) returns (j: nat, torn: Bytes)
    requires IsPrefix(p, Lines(events)) && Storable(events)
    ensures j <= |events|
    ensures p == Lines(events[..j]) + torn
    ensures NEWLINE !in torn
    decreases |events|
  {
    if events == [] {
      j, torn := 0, [];
      assert p == [];
    } else {
      var e := events[0];
      var all := Lines(events);
      assert all == e + [NEWLINE] + Lines(events[1..]);
      if |p| <= |e| {
        j, torn := 0, p;
        assert p == e[..|p|];
        assert forall x :: x in p ==> x in e;
        assert events[..0] == [];
      } else {
        var p' := p[|e| + 1..];
        assert p[..|e| + 1] == e + [NEWLINE];
        assert p' == Lines(events[1..])[..|p'|];
        var i;
        i, torn := PrefixOfLines(p', events[1..]);
        j := i + 1;
        assert events[..j] == [e] + events[1..][..i];
        assert events[..j][1..] == events[1..][..i];
        assert p == e + [NEWLINE] + p';
      }
    }
  }

  // ---------- Acknowledgement frames ----------

  /** Big-endian encoding in exactly k bytes. */
  function BigEndian(n: nat, k: nat): (b: Bytes)
    ensures |b| == k
  {
    if k == 0 then [] else BigEndian(n / 256, k - 1) + [n % 256]
  }

  function FromBigEndian(b: Bytes): nat {
    if b == [] then 0 else FromBigEndian(b[..|b| - 1]) * 256 + b[|b| - 1]
  }

  function Pow256(k: nat): (r: nat)
    ensures r > 0
  {
    if k == 0 then 1 else 256 * Pow256(k - 1)
  }

  lemma {:induction false} BigEndianRoundTrip(n: nat, k: nat)
    requires n < Pow256(k)
    ensures FromBigEndian(BigEndian(n, k)) == n
  {
    if k > 0 {
      BigEndianRoundTrip(n / 256, k - 1);
      var b := BigEndian(n, k);
      assert b[..k - 1] == BigEndian(n / 256, k - 1);
    }
  }

  lemma {:induction false} Pow256Values()
    ensures Pow256(4) == 0x1_0000_0000
    ensures Pow256(8) == 0x1_0000_0000_0000_0000
  {
    assert Pow256(2) == 0x1_0000;
    assert Pow256(4) == 0x1_0000_0000;
    assert Pow256(6) == 0x1_0000_0000_0000;
  }

  /** The bit of this weight in a byte. */
  function Digit(b: byte, weight: nat): nat
    requires weight > 0
  {
    b / weight % 2
  }

  predicate Bit(b: byte, weight: nat)
    requires weight > 0
  {
    Digit(b, weight) == 1
  }

  /** Eight bits as the low bits of a word. */
  function Pack(b7: bool, b6: bool, b5: bool, b4: bool, b3: bool, b2: bool, b1: bool, b0: bool): bv32 {
    (if b7 then 128 else 0) | (if b6 then 64 else 0) | (if b5 then 32 else 0) | (if b4 then 16 else 0)
    | (if b3 then 8 else 0) | (if b2 then 4 else 0) | (if b1 then 2 else 0) | (if b0 then 1 else 0)
  }

  function Xor(a: bv32, b: bv32): bv32 {
    a ^ b
  }

  /** A byte enters the checksum. */
  function Mix(c: bv32, b: byte): bv32 {
    Xor(c, Pack(Bit(b, 128), Bit(b, 64), Bit(b, 32), Bit(b, 16), Bit(b, 8), Bit(b, 4), Bit(b, 2), Bit(b, 1)))
  }

  function Shift(c: bv32): bv32 {
    if c & 1 == 1 then (c >> 1) ^ 0xEDB88320 else c >> 1
  }

  /** CRC-32 with the IEEE polynomial: `bits` more shifts, then the next byte. */
  function Crc(data: Bytes, bits: nat, c: bv32): bv32
    decreases |data|, bits
  {
    if bits > 0 then Crc(data, bits - 1, Shift(c))
    else if data == [] then c
    else Crc(data[1..], 8, Mix(c, data[0]))
  }

  function Final(c: bv32): (r: nat)
    ensures r < 0x1_0000_0000
  {
    (c ^ 0xFFFF_FFFF) as nat
  }

  function Checksum(data: Bytes): (r: nat)
    ensures r < 0x1_0000_0000
  {
    Final(Crc(data, 0, 0xFFFF_FFFF))
  }

  function FrameBody(next: nat): (b: Bytes)
    ensures |b| == 12
  {
    BigEndian(ACK_MAGIC, 4) + BigEndian(next, 8)
  }

  function Frame(next: nat): (b: Bytes)
    ensures |b| == ACK_FRAME_BYTES
  {
    FrameBody(next) + BigEndian(Checksum(FrameBody(next)), 4)
  }

  predicate ValidFrame(b: Bytes) {
    |b| == ACK_FRAME_BYTES
    && FromBigEndian(b[..4]) == ACK_MAGIC
    && FromBigEndian(b[12..]) == Checksum(b[..12])
  }

  function FrameNext(b: Bytes): nat
    requires |b| == ACK_FRAME_BYTES
  {
    FromBigEndian(b[4..12])
  }

  lemma {:induction false} FrameRoundTrip(next: nat)
    requires next < 0x1_0000_0000_0000_0000
    ensures ValidFrame(Frame(next))
    ensures FrameNext(Frame(next)) == next
  {
    var f, body := Frame(next), FrameBody(next);
    Pow256Values();
    BigEndianRoundTrip(ACK_MAGIC, 4);
    BigEndianRoundTrip(next, 8);
    BigEndianRoundTrip(Checksum(body), 4);
    assert f[..4] == BigEndian(ACK_MAGIC, 4);
    assert f[4..12] == BigEndian(next, 8);
    assert f[..12] == body;
    assert f[12..] == BigEndian(Checksum(body), 4);
  }

  /** The journal written for a run of acknowledgements. */
  function Journal(acks: seq<nat>): (b: Bytes)
    ensures |b| == ACK_FRAME_BYTES * |acks|
  {
    if acks == [] then [] else Journal(acks[..|acks| - 1]) + Frame(acks[|acks| - 1])
  }

  function Last(acks: seq<nat>): nat {
    if acks == [] then 0 else acks[|acks| - 1]
  }

  /** Acknowledgements of a segment with `count` records only ever move forward. */
  predicate Advancing(acks: seq<nat>, count: nat) {
    && (forall i :: 0 <= i < |acks| ==> 0 < acks[i] <= count)
    && (forall i, j :: 0 <= i < j < |acks| ==> acks[i] < acks[j])
  }

  lemma {:induction false} AdvancingLength(acks: seq<nat>, count: nat)
    requires Advancing(acks, count)
    ensures |acks| <= Last(acks) <= count
  {
    if acks != [] {
      var front := acks[..|acks| - 1];
      AdvancingLength(front, count);
    }
  }

  lemma {:induction false} AdvancingSnoc(acks: seq<nat>, next: nat, count: nat)
    requires Advancing(acks, count) && Last(acks) < next <= count
    ensures Advancing(acks + [next], count)
    ensures Last(acks + [next]) == next
    ensures Journal(acks + [next]) == Journal(acks) + Frame(next)
  {
    var more := acks + [next];
    assert more[..|more| - 1] == acks;
    forall i, j | 0 <= i < j < |more|
      ensures more[i] < more[j]
    {
      assert i < |acks| && acks[i] <= Last(acks);
    }
  }

  lemma {:induction false} JournalFrame(acks: seq<nat>, tail: Bytes, i: nat)
    requires i < |acks|
    ensures 16 * i + 16 <= |Journal(acks) + tail|
    ensures (Journal(acks) + tail)[16 * i..16 * i + 16] == Frame(acks[i])
    decreases |acks|
  {
    var last := |acks| - 1;
    var front, f := Journal(acks[..last]), Frame(acks[last]);
    if i == last {
    } else {
      JournalFrame(acks[..last], f + tail, i);
      Associate(front, f, tail);
    }
  }
}
