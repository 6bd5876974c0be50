/** The delivery queue behind the spool, spread over named segments. Segments
    with nothing waiting may lie anywhere between the live ones, and at most one
    segment has an acknowledgement that may or may not have taken effect. */
module DeliveryQueue {
  import opened Wrappers
  import opened Sequences

  /** A segment file name: a zero-padded timestamp and a random tag. */
  datatype Name = Name(stamp: nat, tag: nat)

  predicate Less(a: Name, b: Name) {
    a.stamp < b.stamp || (a.stamp == b.stamp && a.tag < b.tag)
  }

  ghost predicate Sorted(names: seq<Name>) {
    forall i, j :: 0 <= i < j < |names| ==> Less(names[i], names[j])
  }

  /** The sorted directory listing. */
  ghost predicate IsListing(names: seq<Name>, all: set<Name>) {
    Sorted(names) && (forall n :: n in names <==> n in all)
  }

  lemma {:induction false} SortedTail(names: seq<Name>)
    requires Sorted(names) && names != []
    ensures Sorted(names[1..])
    ensures forall m :: m in names <==> m == names[0] || m in names[1..]
    ensures forall m :: m in names[1..] ==> Less(names[0], m)
  {
    assert names == [names[0]] + names[1..];
  }

  /** waiting: what each segment still has to deliver of the accepted elements.
      acked: how many accepted elements are acknowledged for certain. The segment in
      doubt has an attempt on its first `covered` waiting elements. */
  datatype Queue<T> = Queue(waiting: map<Name, seq<T>>, live: seq<Name>, doubt: Option<Name>, covered: nat,
                            accepted: seq<T>, acked: nat)

  function At<T>(waiting: map<Name, seq<T>>, n: Name): seq<T> {
    if n in waiting then waiting[n] else []
  }

  function All<T>(names: seq<Name>, waiting: map<Name, seq<T>>): seq<T> {
    if names == [] then [] else At(waiting, names[0]) + All(names[1..], waiting)
  }

  ghost predicate LiveOk<T>(waiting: map<Name, seq<T>>, live: seq<Name>) {
    && Sorted(live)
    && (forall n :: n in live ==> n in waiting)
    && (forall n :: n in waiting && n !in live ==> waiting[n] == [])
  }

  ghost predicate DoubtOk<T>(waiting: map<Name, seq<T>>, doubt: Option<Name>, covered: nat) {
    match doubt
    case None => covered == 0
    case Some(d) =>
      && d in waiting && covered <= |waiting[d]|
      && (forall m :: m in waiting && Less(m, d) ==> waiting[m] == [])
  }

  ghost predicate QueueOk<T>(q: Queue<T>) {
    && LiveOk(q.waiting, q.live)
    && DoubtOk(q.waiting, q.doubt, q.covered)
    && q.acked + q.covered <= |q.accepted|
    && All(q.live, q.waiting) == q.accepted[q.acked..]
  }

  // ---------- Reading a whole listing ----------

  lemma {:induction false} AllAppend<T>(a: seq<Name>, b: seq<Name>, waiting: map<Name, seq<T>>)
    ensures All(a + b, waiting) == All(a, waiting) + All(b, waiting)
  {
    if a == [] {
      assert a + b == b;
    } else {
      assert (a + b)[1..] == a[1..] + b;
      AllAppend(a[1..], b, waiting);
    }
  }

  lemma {:induction false} AllSame<T>(names: seq<Name>, s: map<Name, seq<T>>, t: map<Name, seq<T>>)
    requires forall n :: n in names ==> At(s, n) == At(t, n)
    ensures All(names, s) == All(names, t)
  {
    if names != [] {
      AllSame(names[1..], s, t);
    }
  }

  /** Only live segments contribute to a listing. */
  lemma {:induction false} LiveIsEnough<T>(names: seq<Name>, live: seq<Name>, waiting: map<Name, seq<T>>)
    requires Sorted(names) && Sorted(live)
    requires forall n :: n in live ==> n in names
    requires forall n :: n in names && n !in live ==> At(waiting, n) == []
    ensures All(names, waiting) == All(live, waiting)
    decreases |names|
  {
    assert live != [] ==> live[0] in live;
    if names != [] {
      SortedTail(names);
      if live != [] {
        SortedTail(live);
      }
      if live != [] && live[0] == names[0] {
        LiveIsEnough(names[1..], live[1..], waiting);
      } else {
        LiveIsEnough(names[1..], live, waiting);
      }
    }
  }

  /** Shortening one segment from the front, when nothing waits before it, drops
      from the front of the whole. */
  lemma {:induction false} DropAll<T>(names: seq<Name>, s: map<Name, seq<T>>, t: map<Name, seq<T>>, n: Name, drop: nat)
    requires Sorted(names) && n in names
    requires forall m :: m in names && m != n ==> At(s, m) == At(t, m)
    requires forall m :: m in names && Less(m, n) ==> At(s, m) == []
    requires drop <= |At(s, n)| && At(t, n) == At(s, n)[drop..]
    ensures drop <= |All(names, s)|
    ensures All(names, t) == All(names, s)[drop..]
    decreases |names|
  {
    SortedTail(names);
    if names[0] == n {
      AllSame(names[1..], s, t);
      DropHead(At(s, n), All(names[1..], s), drop);
    } else {
      DropAll(names[1..], s, t, n, drop);
    }
  }

  /** After a crash in which the attempt in doubt had no effect. */
  lemma {:induction false} RecoveredUnchanged<T>(q: Queue<T>, names: seq<Name>, kept: map<Name, seq<T>>)
    requires QueueOk(q) && IsListing(names, q.waiting.Keys)
    requires forall n :: n in names ==> At(kept, n) == At(q.waiting, n)
    ensures All(names, kept) == q.accepted[q.acked..]
  {
    LiveIsEnough(names, q.live, q.waiting);
    AllSame(names, q.waiting, kept);
  }

  /** After a crash in which it had. */
  lemma {:induction false} RecoveredSettled<T>(q: Queue<T>, names: seq<Name>, kept: map<Name, seq<T>>, d: Name)
    requires QueueOk(q) && IsListing(names, q.waiting.Keys) && q.doubt == Some(d)
    requires forall n :: n in names && n != d ==> At(kept, n) == At(q.waiting, n)
    requires q.covered <= |At(q.waiting, d)| && At(kept, d) == At(q.waiting, d)[q.covered..]
    ensures All(names, kept) == q.accepted[q.acked + q.covered..]
  {
    LiveIsEnough(names, q.live, q.waiting);
    DropAll(names, q.waiting, kept, d, q.covered);
    DropTwice(q.accepted, q.acked, q.covered);
  }

  /** Shortening the first live segment, or dropping it when nothing is left. */
  lemma {:induction false} HeadShortened<T>(live: seq<Name>, rest: seq<Name>, s: map<Name, seq<T>>, v: seq<T>, k: nat, drained: bool)
    requires Sorted(live) && live != []
    requires k <= |At(s, live[0])| && v == At(s, live[0])[k..]
    requires rest == if drained then live[1..] else live
    requires drained ==> v == []
    ensures k <= |All(live, s)| && All(rest, s[live[0] := v]) == All(live, s)[k..]
  {
    var t := s[live[0] := v];
    SortedTail(live);
    AllSame(live[1..], s, t);
    DropHead(At(s, live[0]), All(live[1..], s), k);
    assert [] + All(live[1..], t) == All(live[1..], t);
  }

  // ---------- Steps ----------

  /** A segment with nothing waiting appears or changes. */
  lemma {:induction false} KeepQuiet<T>(q: Queue<T>, n: Name)
    requires QueueOk(q) && n !in q.waiting
    ensures QueueOk(q.(waiting := q.waiting[n := []]))
  {
    AllSame(q.live, q.waiting, q.waiting[n := []]);
  }

  lemma {:induction false} KeepRemoved<T>(q: Queue<T>, n: Name)
    requires QueueOk(q) && n !in q.live && q.doubt != Some(n)
    ensures QueueOk(q.(waiting := q.waiting - {n}))
  {
    AllSame(q.live, q.waiting, q.waiting - {n});
  }

  /** Nothing is live or in doubt beyond this segment. */
  ghost predicate Newest<T>(q: Queue<T>, n: Name) {
    && (forall m :: m in q.live ==> m == n || Less(m, n))
    && (q.doubt.Some? ==> !Less(n, q.doubt.value))
  }

  function Extend(live: seq<Name>, n: Name): seq<Name> {
    if live != [] && live[|live| - 1] == n then live else live + [n]
  }

  function Accept<T>(q: Queue<T>, n: Name, more: seq<T>): Queue<T> {
    q.(waiting := q.waiting[n := At(q.waiting, n) + more], live := Extend(q.live, n), accepted := q.accepted + more)
  }

  lemma {:induction false} ExtendOk<T>(q: Queue<T>, n: Name) returns (front: seq<Name>)
    requires QueueOk(q) && Newest(q, n)
    ensures Extend(q.live, n) == front + [n] && Sorted(front + [n])
    ensures n in q.live ==> q.live == front + [n]
    ensures n !in q.live ==> q.live == front
    ensures n !in front
  {
    if n in q.live {
      var i :| 0 <= i < |q.live| && q.live[i] == n;
      var last := q.live[|q.live| - 1];
      assert last in q.live && (i < |q.live| - 1 ==> Less(n, last));
      front := q.live[..|q.live| - 1];
    } else {
      front := q.live;
      assert forall i :: 0 <= i < |front| ==> front[i] in q.live;
    }
  }

  /** More elements behind the newest segment are more elements behind the whole. */
  lemma {:induction false} ExtendAll<T, U>(q: Queue<U>, n: Name, s: map<Name, seq<T>>, t: map<Name, seq<T>>, more: seq<T>)
    requires QueueOk(q) && Newest(q, n)
    requires forall m :: m in q.live && m != n ==> At(s, m) == At(t, m)
    requires At(t, n) == At(s, n) + more
    requires n !in q.live ==> At(s, n) == []
    ensures All(Extend(q.live, n), t) == All(q.live, s) + more
  {
    hide QueueOk, All;
    var front := ExtendOk(q, n);
    assert forall m :: m in front ==> m in q.live && m != n;
    AllSame(front, s, t);
    AllAppend(front, [n], t);
    AllAppend(front, [n], s);
    AllOne(n, s);
    AllOne(n, t);
    Associate(All(front, s), At(s, n), more);
    assert All(front, s) + [] == All(front, s);
  }

  lemma {:induction false} AllOne<T>(n: Name, waiting: map<Name, seq<T>>)
    ensures All([n], waiting) == At(waiting, n)
  {
    assert All([n][1..], waiting) == [];
  }

  lemma {:induction false} KeepAccept<T>(q: Queue<T>, n: Name, more: seq<T>)
    requires QueueOk(q) && Newest(q, n)
    ensures QueueOk(Accept(q, n, more))
  {
    var front := ExtendOk(q, n);
    assert forall m :: m in front + [n] <==> m in q.live || m == n;
    ExtendAll(q, n, q.waiting, Accept(q, n, more).waiting, more);
    DropHead(q.accepted, more, q.acked);
  }

  /** An acknowledgement of the first `covered` waiting elements may be written. */
  function Try<T>(q: Queue<T>, covered: nat): Queue<T>
    requires q.live != []
  {
    q.(doubt := Some(q.live[0]), covered := covered)
  }

  lemma {:induction false} KeepTry<T>(q: Queue<T>, covered: nat)
    requires QueueOk(q) && q.live != [] && covered <= |At(q.waiting, q.live[0])|
    ensures QueueOk(Try(q, covered))
  {
    SortedTail(q.live);
    assert |All(q.live, q.waiting)| == |q.accepted| - q.acked;
    assert |All(q.live, q.waiting)| == |At(q.waiting, q.live[0])| + |All(q.live[1..], q.waiting)|;
    assert forall m :: m in q.waiting && Less(m, q.live[0]) ==> m !in q.live;
  }

  /** The attempt in doubt turns out to be effective. */
  function Settle<T>(q: Queue<T>): Queue<T>
    requires q.doubt.Some? && q.covered <= |At(q.waiting, q.doubt.value)|
  {
    var d := q.doubt.value;
    q.(waiting := q.waiting[d := At(q.waiting, d)[q.covered..]], doubt := None, covered := 0, acked := q.acked + q.covered)
  }

  lemma {:induction false} KeepSettle<T>(q: Queue<T>)
    requires QueueOk(q) && q.doubt.Some?
    ensures QueueOk(Settle(q))
  {
    var d, g := q.doubt.value, Settle(q);
    if d in q.live {
      DropAll(q.live, q.waiting, g.waiting, d, q.covered);
    } else {
      AllSame(q.live, q.waiting, g.waiting);
    }
    DropTwice(q.accepted, q.acked, q.covered);
  }

  function Without(live: seq<Name>, n: Name): seq<Name> {
    if live == [] then []
    else if live[0] == n then live[1..]
    else [live[0]] + Without(live[1..], n)
  }

  lemma {:induction false} WithoutOk<T>(live: seq<Name>, n: Name, waiting: map<Name, seq<T>>)
    requires Sorted(live) && At(waiting, n) == []
    ensures Sorted(Without(live, n))
    ensures forall m :: m in Without(live, n) <==> m in live && m != n
    ensures All(Without(live, n), waiting) == All(live, waiting)
    decreases |live|
  {
    if live != [] {
      SortedTail(live);
      if live[0] != n {
        WithoutOk(live[1..], n, waiting);
        assert Without(live, n)[1..] == Without(live[1..], n);
      }
    }
  }

  lemma {:induction false} KeepWithout<T>(q: Queue<T>, n: Name)
    requires QueueOk(q) && At(q.waiting, n) == []
    ensures QueueOk(q.(live := Without(q.live, n)))
  {
    WithoutOk(q.live, n, q.waiting);
  }

  /** At the start of recovery every stored segment counts as live. */
  lemma {:induction false} KeepListing<T>(q: Queue<T>, names: seq<Name>)
    requires QueueOk(q) && IsListing(names, q.waiting.Keys)
    ensures QueueOk(q.(live := names))
  {
    LiveIsEnough(names, q.live, q.waiting);
  }
}
