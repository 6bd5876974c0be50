/** What delivery achieves while every request arrives, every answer is positive and storage
    works: the queue empties up to the first event that no request can carry. */
module TelemetryDrain {
  import opened TelemetryCodec
  import opened Wrappers
  import opened DeliveryQueue
  import opened SpoolRecovery
  import opened SpoolHistory
  import opened RequestBody
  import opened Spool
  import opened TelemetryDelivery

  /** A request with this event alone is within the limit. */
  predicate Fits(header: nat, x: Item) {
    header + |x.event| + 2 <= MAX_EVENT_BATCH_BYTES
  }

  /** How many events come before the first that does not fit. */
  function Leading(header: nat, items: seq<Item>): (n: nat)
    ensures n <= |items|
  {
    if items != [] && Fits(header, items[0]) then 1 + Leading(header, items[1..]) else 0
  }

  function Arrived(deliveries: seq<Delivery>): seq<Item> {
    if deliveries == [] then []
    else Arrived(deliveries[..|deliveries| - 1]) + deliveries[|deliveries| - 1].items
  }

  /** A request that arrives, if there is one to be made, and its answer. */
  ghost predicate Round(header: nat, v: State, x: State) {
    exists sent: bool, acknowledged: bool, w: State ::
      Sends(header, v, true, sent, w) && Answers(w, true, acknowledged, x)
  }

  ghost predicate Rounds(header: nat, trace: seq<State>) {
    forall k :: 0 <= k < |trace| - 1 ==> Round(header, trace[k], trace[k + 1])
  }

  lemma {:induction false} TotalBounds(events: seq<Event>, i: nat)
    requires i < |events|
    ensures |events[i]| <= Total(events)
  {
    if i < |events| - 1 {
      TotalBounds(events[..|events| - 1], i);
    }
  }

  /** Whatever a window holds fits on its own. */
  lemma {:induction false} WindowLeads(header: nat, items: seq<Item>, count: nat)
    requires 0 < count <= |items| && Admits(header, Events(items), count)
    ensures Leading(header, items) == count + Leading(header, items[count..])
  {
    forall i | 0 <= i < count
      ensures Fits(header, items[i])
    {
      TotalBounds(Events(items)[..count], i);
    }
    LeadingSkips(header, items, count);
  }

  lemma {:induction false} LeadingSkips(header: nat, items: seq<Item>, count: nat)
    requires count <= |items| && forall i :: 0 <= i < count ==> Fits(header, items[i])
    ensures Leading(header, items) == count + Leading(header, items[count..])
    decreases count
  {
    if count > 0 {
      LeadingSkips(header, items[1..], count - 1);
      assert items[1..][count - 1..] == items[count..];
    } else {
      assert items[0..] == items;
    }
  }

  /** One round delivers and removes a maximal window, or finds that nothing can be sent. */
  lemma {:induction false} RoundDecides(header: nat, v: State, x: State) returns (count: nat)
    requires v.up && v.inFlight == 0 && Round(header, v, x)
    ensures v.faults <= x.faults && x.up && x.inFlight == 0
    ensures x.faults == v.faults ==>
      && count <= |v.pending| && x.pending == v.pending[count..]
      && (count == 0 <==> v.pending == [] || !Fits(header, v.pending[0]))
      && (count > 0 ==> IsWindow(header, Events(v.pending), count))
      && Arrived(x.deliveries) == Arrived(v.deliveries) + v.pending[..count]
  {
    hide IsWindow, Commits;
    var sent, acknowledged, w :| Sends(header, v, true, sent, w) && Answers(w, true, acknowledged, x);
    count := |v.pending| - |x.pending|;
    if sent {
      var d := Delivery(v.pending[..w.inFlight], v.standing.acked);
      assert (v.deliveries + [d])[..|v.deliveries|] == v.deliveries;
      assert IsWindow(header, Events(v.pending), w.inFlight);
      WindowFirst(header, v.pending, w.inFlight);
    } else {
      assert v.pending[0..] == v.pending && v.pending[..0] == [];
    }
  }

  lemma {:induction false} WindowFirst(header: nat, items: seq<Item>, count: nat)
    requires 0 < count <= |items| && IsWindow(header, Events(items), count)
    ensures Fits(header, items[0])
  {
    TotalBounds(Events(items)[..count], 0);
  }

  lemma {:induction false} Later(header: nat, trace: seq<State>)
    requires trace != [] && Rounds(header, trace) && trace[0].up && trace[0].inFlight == 0
    ensures trace[0].faults <= trace[|trace| - 1].faults
    decreases |trace|
  {
    if |trace| > 1 {
      assert Round(header, trace[0], trace[1]);
      var _ := RoundDecides(header, trace[0], trace[1]);
      RoundsRest(header, trace);
      Later(header, trace[1..]);
    }
  }

  lemma {:induction false} RoundsRest(header: nat, trace: seq<State>)
    requires |trace| > 1 && Rounds(header, trace)
    ensures Rounds(header, trace[1..])
  {
    hide Round;
    forall k | 0 <= k < |trace| - 2
      ensures Round(header, trace[1..][k], trace[1..][k + 1])
    {
      assert Round(header, trace[k + 1], trace[k + 2]);
    }
  }

  lemma {:induction false} WholeSlices<T>(before: seq<T>, items: seq<T>, count: nat, n: nat)
    requires count + n <= |items|
    ensures items[count..][n..] == items[count + n..]
    ensures before + items[..count] + items[count..][..n] == before + items[..count + n]
  {
    assert items[..count] + items[count..][..n] == items[..count + n];
  }

  lemma {:induction false} DrainMoves(header: nat, trace: seq<State>)
    requires trace != [] && Rounds(header, trace) && trace[0].up && trace[0].inFlight == 0
    requires |trace| > |trace[0].pending| && trace[|trace| - 1].faults == trace[0].faults
    ensures var v, w := trace[0], trace[|trace| - 1]; var n := Leading(header, v.pending);
      w.pending == v.pending[n..] && Arrived(w.deliveries) == Arrived(v.deliveries) + v.pending[..n]
    decreases |trace|
  {
    hide Round, Arrived, Rounds, Leading, Fits, IsWindow;
    var v := trace[0];
    if |trace| == 1 {
      assert v.pending == [] && v.pending[..0] == [];
    } else {
      FirstRound(header, trace);
      var count := RoundDecides(header, v, trace[1]);
      Later(header, trace[1..]);
      if count == 0 {
        Blocked(header, trace[1..]);
        NothingLeads(header, v.pending);
        assert v.pending[0..] == v.pending && v.pending[..0] == [];
      } else {
        WindowGoes(header, v.pending, count);
        WholeSlices(Arrived(v.deliveries), v.pending, count, Leading(header, v.pending[count..]));
        DrainMoves(header, trace[1..]);
      }
    }
  }

  lemma {:induction false} FirstRound(header: nat, trace: seq<State>)
    requires |trace| > 1 && Rounds(header, trace)
    ensures Round(header, trace[0], trace[1]) && Rounds(header, trace[1..])
  {
    assert Round(header, trace[0], trace[1]);
    RoundsRest(header, trace);
  }

  lemma {:induction false} NothingLeads(header: nat, items: seq<Item>)
    requires items == [] || !Fits(header, items[0])
    ensures Leading(header, items) == 0
  {
  }

  lemma {:induction false} WindowGoes(header: nat, items: seq<Item>, count: nat)
    requires 0 < count <= |items| && IsWindow(header, Events(items), count)
    ensures Leading(header, items) == count + Leading(header, items[count..])
  {
    WindowLeads(header, items, count);
  }

  /** Main result: with as many rounds as events and no fault, exactly the events before the
      first that does not fit have arrived and left the queue. So the queue is empty if and
      only if every event fits; an event that is small enough to be stored and too large to
      be sent blocks it for good. */
  lemma {:induction false} DrainDecides(header: nat, trace: seq<State>)
    requires trace != [] && Rounds(header, trace) && trace[0].up && trace[0].inFlight == 0
    requires |trace| > |trace[0].pending| && trace[|trace| - 1].faults == trace[0].faults
    ensures var v, w := trace[0], trace[|trace| - 1]; var n := Leading(header, v.pending);
      && w.pending == v.pending[n..] && Arrived(w.deliveries) == Arrived(v.deliveries) + v.pending[..n]
      && (w.pending == [] <==> forall i :: 0 <= i < |v.pending| ==> Fits(header, v.pending[i]))
  {
    hide Rounds, Arrived, Fits;
    DrainMoves(header, trace);
    LeadingIsAll(header, trace[0].pending);
  }

  lemma {:induction false} LeadingIsAll(header: nat, items: seq<Item>)
    ensures Leading(header, items) == |items| <==> forall i :: 0 <= i < |items| ==> Fits(header, items[i])
  {
    if items != [] {
      LeadingIsAll(header, items[1..]);
      assert forall i :: 1 <= i < |items| ==> items[i] == items[1..][i - 1];
    }
  }

  /** Nothing moves while nothing can be sent. */
  lemma {:induction false} Blocked(header: nat, trace: seq<State>)
    requires trace != [] && Rounds(header, trace) && trace[0].up && trace[0].inFlight == 0
    requires trace[|trace| - 1].faults == trace[0].faults
    requires trace[0].pending == [] || !Fits(header, trace[0].pending[0])
    ensures trace[|trace| - 1].pending == trace[0].pending && Arrived(trace[|trace| - 1].deliveries) == Arrived(trace[0].deliveries)
    decreases |trace|
  {
    hide Round, Arrived;
    if |trace| > 1 {
      assert Round(header, trace[0], trace[1]);
      RoundsRest(header, trace);
      var count := RoundDecides(header, trace[0], trace[1]);
      Later(header, trace[1..]);
      assert trace[0].pending[..0] == [] && trace[0].pending[0..] == trace[0].pending;
      Blocked(header, trace[1..]);
    }
  }
}
