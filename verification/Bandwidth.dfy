/** Bandwidth accounting from cumulative counters. Every source session reports totals;
    only a sample that extends the session's last one is accepted, and what it adds is
    one interval of the session. */
module Bandwidth {
  import opened Wrappers
  import opened SetSums

  const MAX_INT64: int := 0x7FFF_FFFF_FFFF_FFFF

  type int64 = x: int | -MAX_INT64 - 1 <= x <= MAX_INT64

  datatype Protocol = Protocol(name: nat, received: int64, sent: int64)

  /** What a session has counted since it began. */
  datatype Sample = Sample(elapsed: int64, received: int64, sent: int64, protocols: seq<Protocol>, final: bool)

  datatype Key = Key(node: nat, session: nat)

  datatype Interval = Interval(at: int, duration: int64, received: int64, sent: int64, protocols: seq<Protocol>)

  /** The quantities that are accounted for. */
  datatype Channel = Received | Sent | ReceivedBy(name: nat) | SentBy(name: nat)

  // ---------- Samples ----------

  function SumReceived(ps: seq<Protocol>): int {
    if ps == [] then 0 else SumReceived(ps[..|ps| - 1]) + ps[|ps| - 1].received
  }

  function SumSent(ps: seq<Protocol>): int {
    if ps == [] then 0 else SumSent(ps[..|ps| - 1]) + ps[|ps| - 1].sent
  }

  ghost predicate Names(ps: seq<Protocol>) {
    forall i, j :: 0 <= i < j < |ps| ==> ps[i].name != ps[j].name
  }

  ghost predicate NonNegative(ps: seq<Protocol>) {
    forall i :: 0 <= i < |ps| ==> ps[i].received >= 0 && ps[i].sent >= 0
  }

  /** Protocols are listed once and together do not exceed the whole. */
  ghost predicate Valid(s: Sample) {
    && s.elapsed > 0 && s.received >= 0 && s.sent >= 0
    && Names(s.protocols) && NonNegative(s.protocols)
    && SumReceived(s.protocols) <= s.received && SumSent(s.protocols) <= s.sent
  }

  lemma {:induction false} SumsGrow(ps: seq<Protocol>, k: nat)
    requires NonNegative(ps) && k <= |ps|
    ensures 0 <= SumReceived(ps[..k]) <= SumReceived(ps) && 0 <= SumSent(ps[..k]) <= SumSent(ps)
    decreases |ps|
  {
    if k == |ps| {
      assert ps[..k] == ps;
      if k > 0 {
        SumsGrow(ps[..k - 1], 0);
      }
    } else {
      var rest := ps[..|ps| - 1];
      assert rest[..k] == ps[..k];
      SumsGrow(rest, k);
    }
  }

  /** Checked by subtraction, so that no sum of untrusted counters overflows. */
  method CheckSample(s: Sample) returns (ok: bool)
    ensures ok <==> Valid(s)
  {
    if s.elapsed <= 0 || s.received < 0 || s.sent < 0 {
      return false;
    }
    var remainingIn: int64, remainingOut: int64 := s.received, s.sent;
    var seen: set<nat> := {};
    assert s.protocols[..0] == [];
    for i := 0 to |s.protocols|
      invariant forall n :: n in seen <==> exists j :: 0 <= j < i && s.protocols[j].name == n
      invariant Names(s.protocols[..i]) && NonNegative(s.protocols[..i])
      invariant 0 <= remainingIn == s.received - SumReceived(s.protocols[..i])
      invariant 0 <= remainingOut == s.sent - SumSent(s.protocols[..i])
    {
      var p := s.protocols[i];
      assert s.protocols[..i + 1][..i] == s.protocols[..i];
      if p.name in seen || p.received < 0 || p.sent < 0 || p.received > remainingIn || p.sent > remainingOut {
        if Names(s.protocols) && NonNegative(s.protocols) {
          SumsGrow(s.protocols, i + 1);
        }
        return false;
      }
      seen := seen + {p.name};
      remainingIn := remainingIn - p.received;
      remainingOut := remainingOut - p.sent;
    }
    assert s.protocols[..|s.protocols|] == s.protocols;
    return true;
  }

  /** The counter of one protocol in a list; zero when it is not listed. */
  function Find(ps: seq<Protocol>, name: nat): (p: Protocol)
    ensures p.name == name
  {
    if ps == [] then Protocol(name, 0, 0)
    else if ps[|ps| - 1].name == name then ps[|ps| - 1]
    else Find(ps[..|ps| - 1], name)
  }

  function Listed(ps: seq<Protocol>): set<nat> {
    set p | p in ps :: p.name
  }

  lemma {:induction false} FindAt(ps: seq<Protocol>, i: nat)
    requires Names(ps) && i < |ps|
    ensures Find(ps, ps[i].name) == ps[i]
  {
    if i < |ps| - 1 {
      FindAt(ps[..|ps| - 1], i);
    }
  }

  lemma {:induction false} FindNone(ps: seq<Protocol>, name: nat)
    requires forall i :: 0 <= i < |ps| ==> ps[i].name != name
    ensures Find(ps, name) == Protocol(name, 0, 0)
  {
    if ps != [] {
      FindNone(ps[..|ps| - 1], name);
    }
  }

  ghost predicate Has(ps: seq<Protocol>, name: nat) {
    exists i :: 0 <= i < |ps| && ps[i].name == name
  }

  /** No protocol counts backwards, and none disappears. */
  ghost predicate Grows(prev: seq<Protocol>, now: seq<Protocol>) {
    && (forall i :: 0 <= i < |now| ==> Find(prev, now[i].name).received <= now[i].received && Find(prev, now[i].name).sent <= now[i].sent)
    && (forall i :: 0 <= i < |prev| ==> Has(now, prev[i].name))
  }

  ghost predicate IsDifference(prev: seq<Protocol>, now: seq<Protocol>, diff: seq<Protocol>) {
    |diff| == |now| && forall i :: 0 <= i < |now| ==>
      && diff[i].name == now[i].name && diff[i].received == now[i].received - Find(prev, now[i].name).received
      && diff[i].sent == now[i].sent - Find(prev, now[i].name).sent
  }

  /** Counter by counter, what was there plus what was added is what is there. */
  lemma {:induction false} DifferenceFinds(prev: seq<Protocol>, now: seq<Protocol>, diff: seq<Protocol>, name: nat)
    requires Names(now) && Names(prev) && Grows(prev, now) && IsDifference(prev, now, diff)
    ensures Find(prev, name).received + Find(diff, name).received == Find(now, name).received
    ensures Find(prev, name).sent + Find(diff, name).sent == Find(now, name).sent
  {
    if Has(now, name) {
      var i :| 0 <= i < |now| && now[i].name == name;
      FindAt(now, i);
      assert Names(diff);
      FindAt(diff, i);
    } else {
      assert forall i :: 0 <= i < |prev| ==> prev[i].name != name;
      FindNone(prev, name);
      FindNone(now, name);
      FindNone(diff, name);
    }
  }

  function Remaining(prev: seq<Protocol>): map<nat, Protocol> {
    map name | name in Listed(prev) :: Find(prev, name)
  }

  lemma {:induction false} ListedAll(prev: seq<Protocol>)
    ensures forall i :: 0 <= i < |prev| ==> prev[i].name in Listed(prev)
    ensures forall name :: name in Listed(prev) ==> Has(prev, name)
    ensures forall name :: name !in Listed(prev) ==> Find(prev, name) == Protocol(name, 0, 0)
  {
    forall i | 0 <= i < |prev|
      ensures prev[i].name in Listed(prev)
    {
      assert prev[i] in prev;
    }
    forall name | name in Listed(prev)
      ensures Has(prev, name)
    {
      var p :| p in prev && p.name == name;
      var i :| 0 <= i < |prev| && prev[i] == p;
    }
    forall name | name !in Listed(prev)
      ensures Find(prev, name) == Protocol(name, 0, 0)
    {
      FindNone(prev, name);
    }
  }

  lemma {:induction false} NonNegativeFind(ps: seq<Protocol>, name: nat)
    requires NonNegative(ps)
    ensures Find(ps, name).received >= 0 && Find(ps, name).sent >= 0
  {
    if ps != [] {
      NonNegativeFind(ps[..|ps| - 1], name);
    }
  }

  /** Previously listed protocols that do not occur among the first i. */
  ghost function Unseen(prev: seq<Protocol>, now: seq<Protocol>, i: nat): set<nat>
    requires i <= |now|
  {
    set name | name in Listed(prev) && forall j :: 0 <= j < i ==> now[j].name != name
  }

  lemma {:induction false} UnseenNext(prev: seq<Protocol>, now: seq<Protocol>, i: nat)
    requires i < |now| && Names(now)
    ensures Unseen(prev, now, i + 1) == Unseen(prev, now, i) - {now[i].name}
    ensures now[i].name in Unseen(prev, now, i) <==> now[i].name in Listed(prev)
  {
  }

  lemma {:induction false} DifferenceMore(prev: seq<Protocol>, now: seq<Protocol>, i: nat, diff: seq<Protocol>, p: Protocol)
    requires i < |now| && IsDifference(prev, now[..i], diff)
    requires p.name == now[i].name && p.received == now[i].received - Find(prev, p.name).received && p.sent == now[i].sent - Find(prev, p.name).sent
    ensures IsDifference(prev, now[..i + 1], diff + [p])
  {
  }

  /** Subtract the previous counters, crossing each protocol off as it is found. */
  method Difference(prev: seq<Protocol>, now: seq<Protocol>) returns (ok: bool, diff: seq<Protocol>)
    requires Names(prev) && Names(now) && NonNegative(prev) && NonNegative(now)
    ensures ok <==> Grows(prev, now)
    ensures ok ==> IsDifference(prev, now, diff)
  {
    hide Grows, Listed, Unseen, IsDifference, Names, Find;
    var unseen := Remaining(prev);
    ListedAll(prev);
    NothingSeen(prev, now);
    diff := [];
    for i := 0 to |now|
      invariant unseen.Keys == Unseen(prev, now, i)
      invariant forall name :: name in unseen ==> unseen[name] == Find(prev, name)
      invariant IsDifference(prev, now[..i], diff)
      invariant forall j :: 0 <= j < i ==> Find(prev, now[j].name).received <= now[j].received && Find(prev, now[j].name).sent <= now[j].sent
    {
      var p := now[i];
      UnseenNext(prev, now, i);
      var before := if p.name in unseen then unseen[p.name] else Protocol(p.name, 0, 0);
      assert before == Find(prev, p.name);
      NonNegativeFind(prev, p.name);
      if p.received < before.received || p.sent < before.sent {
        Shrinks(prev, now, i);
        return false, diff;
      }
      var d := Protocol(p.name, p.received - before.received, p.sent - before.sent);
      DifferenceMore(prev, now, i, diff, d);
      diff := diff + [d];
      unseen := unseen - {p.name};
    }
    assert now[..|now|] == now;
    ok := unseen == map[];
    if ok {
      AllFound(prev, now);
    } else {
      var name :| name in unseen.Keys;
      Missing(prev, now, name);
    }
  }

  lemma {:induction false} NothingSeen(prev: seq<Protocol>, now: seq<Protocol>)
    ensures Unseen(prev, now, 0) == Listed(prev) && IsDifference(prev, now[..0], [])
  {
  }

  lemma {:induction false} Shrinks(prev: seq<Protocol>, now: seq<Protocol>, i: nat)
    requires i < |now| && (now[i].received < Find(prev, now[i].name).received || now[i].sent < Find(prev, now[i].name).sent)
    ensures !Grows(prev, now)
  {
  }

  lemma {:induction false} Missing(prev: seq<Protocol>, now: seq<Protocol>, name: nat)
    requires name in Unseen(prev, now, |now|)
    ensures !Grows(prev, now)
  {
    ListedAll(prev);
    var i :| 0 <= i < |prev| && prev[i].name == name;
    assert !Has(now, prev[i].name);
  }

  lemma {:induction false} AllFound(prev: seq<Protocol>, now: seq<Protocol>)
    requires Unseen(prev, now, |now|) == {}
    requires forall j :: 0 <= j < |now| ==> Find(prev, now[j].name).received <= now[j].received && Find(prev, now[j].name).sent <= now[j].sent
    ensures Grows(prev, now)
  {
    ListedAll(prev);
    forall i | 0 <= i < |prev|
      ensures Has(now, prev[i].name)
    {
      assert prev[i].name in Listed(prev);
      assert prev[i].name !in Unseen(prev, now, |now|);
    }
  }

  // ---------- Sessions ----------

  const NOTHING: Sample := Sample(0, 0, 0, [], false)

  /** A sample that extends what its session has reported. A new session extends NOTHING. */
  ghost predicate Extends(prev: Sample, s: Sample) {
    && prev.elapsed < s.elapsed && !prev.final && prev.received <= s.received && prev.sent <= s.sent
    && Grows(prev.protocols, s.protocols)
  }

  function Amount(s: Sample, c: Channel): int {
    match c
    case Received => s.received
    case Sent => s.sent
    case ReceivedBy(name) => Find(s.protocols, name).received
    case SentBy(name) => Find(s.protocols, name).sent
  }

  function Part(i: Interval, c: Channel): int {
    match c
    case Received => i.received
    case Sent => i.sent
    case ReceivedBy(name) => Find(i.protocols, name).received
    case SentBy(name) => Find(i.protocols, name).sent
  }

  function Durations(intervals: seq<Interval>): int {
    if intervals == [] then 0 else Durations(intervals[..|intervals| - 1]) + intervals[|intervals| - 1].duration
  }

  function Parts(intervals: seq<Interval>, c: Channel): int {
    if intervals == [] then 0 else Parts(intervals[..|intervals| - 1], c) + Part(intervals[|intervals| - 1], c)
  }

  /** The intervals lie end to end from the beginning of the session to its last sample,
      and add up to it on every channel. */
  ghost predicate Tiles(intervals: seq<Interval>, s: Sample) {
    && Durations(intervals) == s.elapsed
    && (forall c :: Parts(intervals, c) == Amount(s, c))
    && (forall i :: 0 <= i < |intervals| ==> intervals[i].duration > 0)
  }

  lemma {:induction false} TilesSnoc(intervals: seq<Interval>, prev: Sample, s: Sample, i: Interval)
    requires Tiles(intervals, prev) && i.duration > 0 && prev.elapsed + i.duration == s.elapsed
    requires forall c :: Amount(prev, c) + Part(i, c) == Amount(s, c)
    ensures Tiles(intervals + [i], s)
  {
    hide Amount, Part;
    var more := intervals + [i];
    assert more[..|intervals|] == intervals;
    forall c
      ensures Parts(more, c) == Amount(s, c)
    {
      assert Amount(prev, c) + Part(i, c) == Amount(s, c);
      assert Parts(intervals, c) == Amount(prev, c);
    }
  }

  // ---------- The accumulator ----------

  function At(sessions: map<Key, Sample>, k: Key): Sample {
    if k in sessions then sessions[k] else NOTHING
  }

  function Amounts(sessions: map<Key, Sample>, c: Channel): Key -> real {
    k => Amount(At(sessions, k), c) as real
  }

  /** The sum of the latest counters of all sessions. */
  ghost function Total(sessions: map<Key, Sample>, c: Channel): real {
    SumOf(sessions.Keys, Amounts(sessions, c))
  }

  lemma {:induction false} TotalPut(sessions: map<Key, Sample>, k: Key, s: Sample, c: Channel)
    ensures Total(sessions[k := s], c) == Total(sessions, c) + (Amount(s, c) - Amount(At(sessions, k), c)) as real
  {
    hide Amount;
    assert Amount(NOTHING, c) == 0 by { NothingIsZero(c); }
    SumPut(sessions.Keys, Amounts(sessions, c), Amounts(sessions[k := s], c), k);
    assert sessions[k := s].Keys == sessions.Keys + {k};
  }

  lemma {:induction false} NothingIsZero(c: Channel)
    ensures Amount(NOTHING, c) == 0
  {
  }

  /** What the accepted sample adds, channel by channel. */
  lemma {:induction false} ExtendsBy(prev: Sample, s: Sample, i: Interval)
    requires Names(prev.protocols) && Names(s.protocols) && Grows(prev.protocols, s.protocols) && IsDifference(prev.protocols, s.protocols, i.protocols)
    requires i.received == s.received - prev.received && i.sent == s.sent - prev.sent
    ensures forall c :: Amount(prev, c) + Part(i, c) == Amount(s, c)
  {
    forall c
      ensures Amount(prev, c) + Part(i, c) == Amount(s, c)
    {
      match c
      case Received =>
      case Sent =>
      case ReceivedBy(name) => DifferenceFinds(prev.protocols, s.protocols, i.protocols, name);
      case SentBy(name) => DifferenceFinds(prev.protocols, s.protocols, i.protocols, name);
    }
  }

  ghost predicate History(sessions: map<Key, Sample>, emitted: map<Key, seq<Interval>>) {
    && emitted.Keys == sessions.Keys
    && forall k :: k in sessions ==> Valid(sessions[k]) && Tiles(emitted[k], sessions[k])
  }

  lemma {:induction false} HistoryPut(sessions: map<Key, Sample>, emitted: map<Key, seq<Interval>>, k: Key, s: Sample, i: Interval)
    requires History(sessions, emitted) && Valid(s) && i.duration > 0 && At(sessions, k).elapsed + i.duration == s.elapsed
    requires forall c :: Amount(At(sessions, k), c) + Part(i, c) == Amount(s, c)
    ensures History(sessions[k := s], emitted[k := (if k in emitted then emitted[k] else []) + [i]])
  {
    hide Valid, Amount, Part;
    if k in sessions {
      TilesSnoc(emitted[k], sessions[k], s, i);
    } else {
      NoTiles();
      TilesSnoc([], NOTHING, s, i);
    }
    hide Tiles;
  }

  lemma {:induction false} NoTiles()
    ensures Tiles([], NOTHING)
  {
    forall c
      ensures Parts([], c) == Amount(NOTHING, c)
    {
      NothingIsZero(c);
    }
  }

  /** Whether the totals of the whole run can still be represented. */
  predicate Fits(total: int, more: int) {
    more <= MAX_INT64 - total
  }

  class Accumulator {
    var sessions: map<Key, Sample>
    var received: int64
    var sent: int64
    var samples: nat
    var rejected: nat
    var superseded: nat
    /** The intervals of every session, in order. */
    ghost var emitted: map<Key, seq<Interval>>

    /** Totals are the sums of the latest accepted counters, and sessions are tiled. */
    ghost predicate Ok()
      reads this
    {
      && History(sessions, emitted) && received >= 0 && sent >= 0
      && received as real == Total(sessions, Received) && sent as real == Total(sessions, Sent)
    }

    constructor ()
      ensures Ok() && sessions == map[] && samples == rejected == superseded == 0
    {
      sessions, received, sent, samples, rejected, superseded, emitted := map[], 0, 0, 0, 0, 0, map[];
    }

    /** Account for one sample: it is superseded if it is not newer, rejected if it does not
        extend its session or would overflow the totals, and accepted otherwise. */
    method Observe(key: Key, at: int, s: Sample) returns (interval: Option<Interval>)
      requires Ok()
      modifies this
      ensures Ok()
      ensures var prev := At(old(sessions), key);
        interval.Some? <==> Valid(s) && Extends(prev, s) && Fits(old(received), s.received - prev.received) && Fits(old(sent), s.sent - prev.sent)
      ensures interval.None? ==> sessions == old(sessions) && emitted == old(emitted) && received == old(received) && sent == old(sent) && samples == old(samples)
      ensures interval.None? ==> rejected + superseded == old(rejected) + old(superseded) + 1
      ensures superseded == old(superseded) + if Valid(s) && key in old(sessions) && s.elapsed <= old(sessions)[key].elapsed then 1 else 0
      ensures interval.Some? ==>
        && samples == old(samples) + 1 && rejected == old(rejected) && sessions == old(sessions)[key := s]
        && interval.value.at == at && interval.value.duration == s.elapsed - At(old(sessions), key).elapsed > 0 && Names(interval.value.protocols)
        && (forall c :: Amount(At(old(sessions), key), c) + Part(interval.value, c) == Amount(s, c))
        && emitted == old(emitted)[key := (if key in old(emitted) then old(emitted)[key] else []) + [interval.value]]
        && forall c :: Total(sessions, c) == Total(old(sessions), c) + Part(interval.value, c) as real
    {
      hide Valid, Extends, History, Grows, IsDifference, Part, Total;
      var valid := CheckSample(s);
      if !valid {
        rejected := rejected + 1;
        return None;
      }
      var prev := if key in sessions then sessions[key] else NOTHING;
      PreviousOk(sessions, emitted, key);
      ValidParts(s);
      ExtendsMeans(prev, s);
      if key in sessions && s.elapsed <= prev.elapsed {
        superseded := superseded + 1;
        return None;
      }
      if key in sessions && (prev.final || s.received < prev.received || s.sent < prev.sent) {
        rejected := rejected + 1;
        return None;
      }
      var moreReceived, moreSent := s.received - prev.received, s.sent - prev.sent;
      if moreReceived > MAX_INT64 - received || moreSent > MAX_INT64 - sent {
        rejected := rejected + 1;
        return None;
      }
      var ok, diff := Difference(prev.protocols, s.protocols);
      if !ok {
        rejected := rejected + 1;
        return None;
      }
      var i := Interval(at, s.elapsed - prev.elapsed, moreReceived, moreSent, diff);
      ExtendsBy(prev, s, i);
      DifferenceNames(prev.protocols, s.protocols, diff);
      HistoryPut(sessions, emitted, key, s, i);
      AddsUp(sessions, key, s, i);
      sessions := sessions[key := s];
      emitted := emitted[key := (if key in emitted then emitted[key] else []) + [i]];
      received, sent := received + moreReceived, sent + moreSent;
      samples := samples + 1;
      return Some(i);
    }
  }

  lemma {:induction false} DifferenceNames(prev: seq<Protocol>, now: seq<Protocol>, diff: seq<Protocol>)
    requires Names(now) && IsDifference(prev, now, diff)
    ensures Names(diff)
  {
  }

  lemma {:induction false} PreviousOk(sessions: map<Key, Sample>, emitted: map<Key, seq<Interval>>, k: Key)
    requires History(sessions, emitted)
    ensures var prev := At(sessions, k);
      && Names(prev.protocols) && NonNegative(prev.protocols) && 0 <= prev.received && 0 <= prev.sent && 0 <= prev.elapsed
  {
  }

  lemma {:induction false} ValidParts(s: Sample)
    requires Valid(s)
    ensures Names(s.protocols) && NonNegative(s.protocols) && s.elapsed > 0 && s.received >= 0 && s.sent >= 0
  {
  }

  lemma {:induction false} ExtendsMeans(prev: Sample, s: Sample)
    ensures Extends(prev, s) <==> prev.elapsed < s.elapsed && !prev.final && prev.received <= s.received && prev.sent <= s.sent && Grows(prev.protocols, s.protocols)
  {
  }

  lemma {:induction false} AddsUp(sessions: map<Key, Sample>, k: Key, s: Sample, i: Interval)
    requires forall c :: Amount(At(sessions, k), c) + Part(i, c) == Amount(s, c)
    ensures forall c :: Total(sessions[k := s], c) == Total(sessions, c) + Part(i, c) as real
    ensures Part(i, Received) == i.received && Part(i, Sent) == i.sent
  {
    hide Amount, Total;
    forall c
      ensures Total(sessions[k := s], c) == Total(sessions, c) + Part(i, c) as real
    {
      TotalPut(sessions, k, s, c);
      assert Amount(At(sessions, k), c) + Part(i, c) == Amount(s, c);
    }
  }

  // ---------- Totals by protocol ----------

  function Get(totals: map<nat, Protocol>, name: nat): Protocol {
    if name in totals then totals[name] else Protocol(name, 0, 0)
  }

  /** The sum so far: some sessions in full, and the first protocols of one more. */
  ghost predicate Running(sessions: map<Key, Sample>, done: set<Key>, ps: seq<Protocol>, totals: map<nat, Protocol>) {
    && (forall name :: Get(totals, name).received as real == SumOf(done, Amounts(sessions, ReceivedBy(name))) + Find(ps, name).received as real)
    && (forall name :: Get(totals, name).sent as real == SumOf(done, Amounts(sessions, SentBy(name))) + Find(ps, name).sent as real)
    && (forall name :: name in totals ==> totals[name].name == name)
  }

  lemma {:induction false} FindLess(ps: seq<Protocol>, name: nat)
    requires NonNegative(ps)
    ensures 0 <= Find(ps, name).received <= SumReceived(ps) && 0 <= Find(ps, name).sent <= SumSent(ps)
  {
    if ps != [] {
      FindLess(ps[..|ps| - 1], name);
    }
  }

  /** A channel that is part of another in every session, summed over some of them. */
  lemma {:induction false} PartBounded(sessions: map<Key, Sample>, done: set<Key>, k: Key, c: Channel, whole: Channel)
    requires done <= sessions.Keys && k in sessions && k !in done
    requires forall x :: x in sessions ==> 0 <= Amount(sessions[x], c) <= Amount(sessions[x], whole)
    ensures SumOf(done, Amounts(sessions, c)) + Amount(sessions[k], c) as real <= Total(sessions, whole)
  {
    hide Amount;
    SumPick(done + {k}, Amounts(sessions, c), k);
    assert done + {k} - {k} == done;
    SumPart(done + {k}, sessions.Keys, Amounts(sessions, c));
    SumLess(sessions.Keys, Amounts(sessions, c), Amounts(sessions, whole));
  }

  lemma {:induction false} ProtocolsAreParts(sessions: map<Key, Sample>, emitted: map<Key, seq<Interval>>, name: nat)
    requires History(sessions, emitted)
    ensures forall x :: x in sessions ==> 0 <= Amount(sessions[x], ReceivedBy(name)) <= Amount(sessions[x], Received)
    ensures forall x :: x in sessions ==> 0 <= Amount(sessions[x], SentBy(name)) <= Amount(sessions[x], Sent)
  {
    forall x | x in sessions
      ensures 0 <= Amount(sessions[x], ReceivedBy(name)) <= Amount(sessions[x], Received)
      ensures 0 <= Amount(sessions[x], SentBy(name)) <= Amount(sessions[x], Sent)
    {
      FindLess(sessions[x].protocols, name);
    }
  }

  /** A protocol's total never exceeds the whole, so it cannot overflow either. */
  lemma {:induction false} ProtocolBounded(sessions: map<Key, Sample>, emitted: map<Key, seq<Interval>>, done: set<Key>, k: Key, name: nat)
    requires History(sessions, emitted) && done <= sessions.Keys && k in sessions && k !in done
    ensures SumOf(done, Amounts(sessions, ReceivedBy(name))) + Find(sessions[k].protocols, name).received as real <= Total(sessions, Received)
    ensures SumOf(done, Amounts(sessions, SentBy(name))) + Find(sessions[k].protocols, name).sent as real <= Total(sessions, Sent)
  {
    hide History, Total, SumOf;
    ProtocolsAreParts(sessions, emitted, name);
    PartBounded(sessions, done, k, ReceivedBy(name), Received);
    PartBounded(sessions, done, k, SentBy(name), Sent);
  }

  lemma {:induction false} FindPrefix(ps: seq<Protocol>, i: nat, name: nat)
    requires Names(ps) && i < |ps|
    ensures Find(ps[..i + 1], name) == if name == ps[i].name then ps[i] else Find(ps[..i], name)
    ensures name == ps[i].name ==> Find(ps[..i], name) == Protocol(name, 0, 0) && Find(ps, name) == ps[i]
  {
    assert ps[..i + 1][..i] == ps[..i];
    if name == ps[i].name {
      FindNone(ps[..i], name);
      FindAt(ps, i);
    }
  }

  lemma {:induction false} RunningMore(sessions: map<Key, Sample>, done: set<Key>, ps: seq<Protocol>, i: nat, totals: map<nat, Protocol>, total: Protocol)
    requires Names(ps) && i < |ps| && Running(sessions, done, ps[..i], totals) && total.name == ps[i].name
    requires total.received == Get(totals, ps[i].name).received + ps[i].received && total.sent == Get(totals, ps[i].name).sent + ps[i].sent
    ensures Running(sessions, done, ps[..i + 1], totals[ps[i].name := total])
  {
    var next := totals[ps[i].name := total];
    forall name
      ensures Get(next, name).received as real == SumOf(done, Amounts(sessions, ReceivedBy(name))) + Find(ps[..i + 1], name).received as real
      ensures Get(next, name).sent as real == SumOf(done, Amounts(sessions, SentBy(name))) + Find(ps[..i + 1], name).sent as real
    {
      FindPrefix(ps, i, name);
      hide SumOf;
    }
  }

  lemma {:induction false} RunningNext(sessions: map<Key, Sample>, done: set<Key>, k: Key, totals: map<nat, Protocol>)
    requires k in sessions && k !in done && Running(sessions, done, sessions[k].protocols, totals)
    ensures Running(sessions, done + {k}, [], totals)
  {
    forall name
      ensures Get(totals, name).received as real == SumOf(done + {k}, Amounts(sessions, ReceivedBy(name)))
      ensures Get(totals, name).sent as real == SumOf(done + {k}, Amounts(sessions, SentBy(name)))
    {
      SumPick(done + {k}, Amounts(sessions, ReceivedBy(name)), k);
      SumPick(done + {k}, Amounts(sessions, SentBy(name)), k);
      assert done + {k} - {k} == done;
      hide SumOf;
    }
  }

  /** Per-protocol totals over all sessions: exact, and within the machine's integers at
      every addition. */
  method Summarize(a: Accumulator) returns (totals: map<nat, Protocol>)
    requires a.Ok()
    ensures forall name ::
      && Get(totals, name).received as real == Total(a.sessions, ReceivedBy(name)) <= a.received as real
      && Get(totals, name).sent as real == Total(a.sessions, SentBy(name)) <= a.sent as real
  {
    hide Running, History, Valid, SumOf;
    totals := map[];
    var rest := a.sessions.Keys;
    RunningStart(a.sessions);
    assert a.sessions.Keys - rest == {};
    while rest != {}
      invariant rest <= a.sessions.Keys && Running(a.sessions, a.sessions.Keys - rest, [], totals)
    {
      var k :| k in rest;
      var ps := a.sessions[k].protocols;
      ghost var done := a.sessions.Keys - rest;
      PreviousOk(a.sessions, a.emitted, k);
      assert ps[..0] == [];
      for i := 0 to |ps|
        invariant Running(a.sessions, done, ps[..i], totals)
      {
        var p := ps[i];
        ProtocolBounded(a.sessions, a.emitted, done, k, p.name);
        FindPrefix(ps, i, p.name);
        RunningAt(a.sessions, done, ps[..i], totals, p.name);
        var total := Get(totals, p.name);
        assert total.received + p.received <= a.received && total.sent + p.sent <= a.sent;
        SumsNotNegative(a.sessions, a.emitted, done, p.name);
        total := Protocol(p.name, total.received + p.received, total.sent + p.sent);
        RunningMore(a.sessions, done, ps, i, totals, total);
        totals := totals[p.name := total];
      }
      assert ps[..|ps|] == ps;
      RunningNext(a.sessions, done, k, totals);
      assert done + {k} == a.sessions.Keys - (rest - {k});
      rest := rest - {k};
    }
    assert a.sessions.Keys - rest == a.sessions.Keys;
    SummaryDone(a.sessions, a.emitted, totals);
  }

  lemma {:induction false} RunningStart(sessions: map<Key, Sample>)
    ensures Running(sessions, {}, [], map[])
  {
  }

  lemma {:induction false} RunningAt(sessions: map<Key, Sample>, done: set<Key>, ps: seq<Protocol>, totals: map<nat, Protocol>, name: nat)
    requires Running(sessions, done, ps, totals)
    ensures Get(totals, name).received as real == SumOf(done, Amounts(sessions, ReceivedBy(name))) + Find(ps, name).received as real
    ensures Get(totals, name).sent as real == SumOf(done, Amounts(sessions, SentBy(name))) + Find(ps, name).sent as real
  {
  }

  lemma {:induction false} SumsNotNegative(sessions: map<Key, Sample>, emitted: map<Key, seq<Interval>>, done: set<Key>, name: nat)
    requires History(sessions, emitted) && done <= sessions.Keys
    ensures SumOf(done, Amounts(sessions, ReceivedBy(name))) >= 0.0 && SumOf(done, Amounts(sessions, SentBy(name))) >= 0.0
  {
    forall x | x in sessions
      ensures 0.0 <= Amounts(sessions, ReceivedBy(name))(x) && 0.0 <= Amounts(sessions, SentBy(name))(x)
    {
      FindLess(sessions[x].protocols, name);
    }
    SumPart({}, done, Amounts(sessions, ReceivedBy(name)));
    SumPart({}, done, Amounts(sessions, SentBy(name)));
  }

  lemma {:induction false} SummaryDone(sessions: map<Key, Sample>, emitted: map<Key, seq<Interval>>, totals: map<nat, Protocol>)
    requires History(sessions, emitted) && Running(sessions, sessions.Keys, [], totals)
    ensures forall name ::
      && Get(totals, name).received as real == Total(sessions, ReceivedBy(name)) <= Total(sessions, Received)
      && Get(totals, name).sent as real == Total(sessions, SentBy(name)) <= Total(sessions, Sent)
  {
    forall name
      ensures Total(sessions, ReceivedBy(name)) <= Total(sessions, Received) && Total(sessions, SentBy(name)) <= Total(sessions, Sent)
    {
      forall x | x in sessions
        ensures Amounts(sessions, ReceivedBy(name))(x) <= Amounts(sessions, Received)(x)
        ensures Amounts(sessions, SentBy(name))(x) <= Amounts(sessions, Sent)(x)
      {
        FindLess(sessions[x].protocols, name);
      }
      SumLess(sessions.Keys, Amounts(sessions, ReceivedBy(name)), Amounts(sessions, Received));
      SumLess(sessions.Keys, Amounts(sessions, SentBy(name)), Amounts(sessions, Sent));
    }
  }
}
