/** Delivering the spool to the Controller: one request in flight, appends while it
    travels, lost answers, storage errors and restarts. Step says what each action does
    to the queue, with a cause for every failure; Delivering carries the actions out on
    the spool; the lemmas about Step show that the Controller sees the accepted events
    in order without a gap, and that nothing leaves the spool before that. */
module TelemetryDelivery {
  import opened TelemetryCodec
  import opened Wrappers
  import opened Sequences
  import opened DeliveryQueue
  import opened SpoolRecovery
  import opened SpoolHistory
  import opened SpoolStorage
  import opened SpoolMemory
  import opened RequestBody
  import opened Spool
  import opened SpoolRestart

  /** One request body that reached the Controller: its events, and how many accepted
      events were acknowledged when it was built. */
  datatype Delivery = Delivery(items: seq<Item>, from: nat) {
    function Until(): nat { from + |Confirmed(items)| }
  }

  /** How far into the accepted events the Controller has seen. */
  function Mark(deliveries: seq<Delivery>): nat {
    if deliveries == [] then 0
    else
      var last, before := deliveries[|deliveries| - 1], Mark(deliveries[..|deliveries| - 1]);
      if last.Until() > before then last.Until() else before
  }

  /** This body repeats or continues what the Controller has seen: no event is skipped. */
  ghost predicate Continues(deliveries: seq<Delivery>, i: nat, accepted: seq<Item>)
    requires i < |deliveries|
  {
    var d := deliveries[i];
    && d.from <= Mark(deliveries[..i])
    && d.Until() <= |accepted| && Confirmed(d.items) == accepted[d.from..d.Until()]
  }

  ghost predicate NoGaps(deliveries: seq<Delivery>, accepted: seq<Item>) {
    forall i :: 0 <= i < |deliveries| ==> Continues(deliveries, i, accepted)
  }

  function Bodies(header: Bytes, deliveries: seq<Delivery>): seq<Bytes> {
    seq(|deliveries|, i requires 0 <= i < |deliveries| => Body(header, Events(deliveries[i].items)))
  }

  lemma {:induction false} MarkBounded(deliveries: seq<Delivery>, accepted: seq<Item>)
    requires NoGaps(deliveries, accepted)
    ensures Mark(deliveries) <= |accepted|
  {
    hide Confirmed;
    if deliveries != [] {
      var n := |deliveries| - 1;
      NoGapsPrefix(deliveries, accepted);
      MarkBounded(deliveries[..n], accepted);
      assert Continues(deliveries, n, accepted);
    }
  }

  lemma {:induction false} NoGapsPrefix(deliveries: seq<Delivery>, accepted: seq<Item>)
    requires NoGaps(deliveries, accepted) && deliveries != []
    ensures NoGaps(deliveries[..|deliveries| - 1], accepted)
  {
    hide Confirmed;
    var shorter := deliveries[..|deliveries| - 1];
    forall i | 0 <= i < |shorter|
      ensures Continues(shorter, i, accepted)
    {
      assert Continues(deliveries, i, accepted);
      assert shorter[..i] == deliveries[..i];
    }
  }

  lemma {:induction false} NoGapsAppend(deliveries: seq<Delivery>, accepted: seq<Item>, d: Delivery)
    requires NoGaps(deliveries, accepted) && d.from <= Mark(deliveries)
    requires d.Until() <= |accepted| && Confirmed(d.items) == accepted[d.from..d.Until()]
    ensures NoGaps(deliveries + [d], accepted)
    ensures Mark(deliveries + [d]) >= Mark(deliveries) && Mark(deliveries + [d]) >= d.Until()
  {
    hide Confirmed;
    var more := deliveries + [d];
    assert more[..|deliveries|] == deliveries;
    forall i | 0 <= i < |more|
      ensures Continues(more, i, accepted)
    {
      assert more[..i] == deliveries[..i];
      assert i < |deliveries| ==> Continues(deliveries, i, accepted);
      assert i == |deliveries| ==> deliveries[..i] == deliveries;
    }
  }

  lemma {:induction false} NoGapsAccepted(deliveries: seq<Delivery>, accepted: seq<Item>, more: seq<Item>)
    requires NoGaps(deliveries, accepted)
    ensures NoGaps(deliveries, accepted + more)
  {
    hide Confirmed, Mark;
    forall i | 0 <= i < |deliveries|
      ensures Continues(deliveries, i, accepted + more)
    {
      assert Continues(deliveries, i, accepted);
    }
  }

  /** Everything up to the mark really is in some body. */
  lemma {:induction false} SeenIsDelivered(deliveries: seq<Delivery>, accepted: seq<Item>, k: nat) returns (i: nat)
    requires NoGaps(deliveries, accepted) && k < Mark(deliveries)
    ensures i < |deliveries| && deliveries[i].from <= k < deliveries[i].Until()
    ensures k < |accepted| && accepted[k] == Confirmed(deliveries[i].items)[k - deliveries[i].from]
  {
    hide Confirmed;
    var n := |deliveries| - 1;
    assert Continues(deliveries, n, accepted);
    if k < Mark(deliveries[..n]) {
      NoGapsPrefix(deliveries, accepted);
      i := SeenIsDelivered(deliveries[..n], accepted, k);
      assert deliveries[..n][i] == deliveries[i];
    } else {
      i := n;
    }
  }

  lemma {:induction false} ConfirmedSlice(items: seq<Item>, count: nat, accepted: seq<Item>, from: nat)
    requires count <= |items| && from <= |accepted| && Confirmed(items) == accepted[from..]
    ensures var c := |Confirmed(items[..count])|;
            && from + c <= |accepted| && Confirmed(items[..count]) == accepted[from..from + c]
            && Confirmed(items[count..]) == accepted[from + c..]
  {
    hide Confirmed;
    assert items == items[..count] + items[count..];
    ConfirmedAppend(items[..count], items[count..]);
  }

  lemma {:induction false} GenuineParts(items: seq<Item>, failed: seq<seq<Event>>, count: nat)
    requires count <= |items| && Genuine(items, failed)
    ensures Genuine(items[..count], failed) && Genuine(items[count..], failed)
  {
    hide Named;
  }

  // ---------- What each action does ----------

  datatype Action =
    | Enqueue(events: seq<Event>, now: nat, tag: nat)
    | Send(arrives: bool)
    | Answer(ok: bool)
    | Restart(hostCrashed: bool)

  /** The Agent and the Controller as far as delivery is concerned. */
  datatype State = State(up: bool, pending: seq<Item>, inFlight: nat, arrived: bool, deliveries: seq<Delivery>,
                         accepted: seq<Item>, failed: seq<seq<Event>>, standing: Standing, faults: nat)

  const START := State(false, [], 0, false, [], [], [], Standing(0, {}, []), 0)

  /** The Agent takes all of the events, behind everything else, or none of them: because it
      is down, the batch is too large, or storage failed. */
  ghost predicate Enqueues(v: State, events: seq<Event>, ok: bool, w: State) {
    var more := Tag(events, AcceptedFrom(|v.accepted|));
    if ok then
      v.up && w == v.(pending := v.pending + more, accepted := v.accepted + more)
    else
      && w == v.(failed := v.failed + [events], faults := w.faults)
      && v.faults <= w.faults && (!v.up || !Storable(events) || |Lines(events)| > SEGMENT_LIMIT || v.faults < w.faults)
  }

  /** A maximal window of the queue goes out as one request, unless one is out already, there
      is nothing to send, the first event does not fit or storage failed. */
  ghost predicate Sends(header: nat, v: State, arrives: bool, ok: bool, w: State) {
    if !v.up || v.inFlight > 0 then w == v && !ok
    else if ok then
      && 0 < w.inFlight <= |v.pending| && IsWindow(header, Events(v.pending), w.inFlight)
      && w == v.(inFlight := w.inFlight, arrived := arrives,
                 deliveries := if arrives then v.deliveries + [Delivery(v.pending[..w.inFlight], v.standing.acked)] else v.deliveries)
    else
      && w == v.(arrived := false, faults := w.faults)
      && v.faults <= w.faults && (v.pending == [] || header + |v.pending[0].event| + 2 > MAX_EVENT_BATCH_BYTES || v.faults < w.faults)
  }

  /** A positive answer to a request that arrived acknowledges what was in flight. Only if
      storage failed is it a prefix of that, and only then can an acknowledgement be in doubt.
      Any other answer acknowledges nothing. */
  ghost predicate Answers(v: State, positive: bool, ok: bool, w: State) {
    if !v.up then w == v && !ok
    else if positive && v.arrived then
      var count := |v.pending| - |w.pending|;
      && 0 <= count <= v.inFlight <= |v.pending|
      && w == v.(pending := v.pending[count..], inFlight := 0, arrived := false, standing := w.standing, faults := w.faults)
      && Commits(v.standing, v.pending, count, v.inFlight, w.standing)
      && v.faults <= w.faults && (ok <==> w.faults == v.faults)
      && (ok ==> count == v.inFlight && (v.inFlight > 0 ==> w.standing.doubt == []))
    else
      w == v.(inFlight := 0, arrived := false) && !ok
  }

  /** A restarted Agent has the accepted events from the acknowledged ones on, and apart from
      them only events of failed batches that are not acknowledged. The acknowledgement in
      doubt, if there is one, has taken effect or has not, and is in doubt no more. The Agent
      stays down only if storage failed. */
  ghost predicate Restarts(v: State, ok: bool, w: State) {
    && w == v.(up := ok, pending := w.pending, inFlight := 0, arrived := false, standing := w.standing, faults := w.faults)
    && Resolves(v.standing, w.standing)
    && v.faults <= w.faults && (ok <==> w.faults == v.faults)
    && if ok then w.standing.doubt == [] && Accounts(w.pending, v.accepted, v.failed, w.standing.done, w.standing.acked) else w.pending == []
  }

  ghost predicate Step(header: nat, v: State, action: Action, ok: bool, w: State) {
    match action
    case Enqueue(events, _, _) => Enqueues(v, events, ok, w)
    case Send(arrives) => Sends(header, v, arrives, ok, w)
    case Answer(positive) => Answers(v, positive, ok, w)
    case Restart(_) => Restarts(v, ok, w)
  }

  // ---------- What every run keeps ----------

  /** Beside accepted events, the Controller receives only events of failed batches. */
  ghost predicate OnlyOffered(deliveries: seq<Delivery>, failed: seq<seq<Event>>) {
    forall i :: 0 <= i < |deliveries| ==> Genuine(deliveries[i].items, failed)
  }

  /** The origins of all events that the Controller has received. */
  function Received(deliveries: seq<Delivery>): set<Origin> {
    set d, x | d in deliveries && x in d.items :: x.origin
  }

  /** The Controller has received all of these, if the first follows the first `from` accepted events. */
  ghost predicate Seen(deliveries: seq<Delivery>, from: nat, items: seq<Item>) {
    from + |Confirmed(items)| <= Mark(deliveries) && Unaccepted(items) <= Received(deliveries)
  }

  /** The queue continues the accepted events, and what is in flight and arrived was seen. */
  ghost predicate QueueSound(v: State) {
    && Accounts(v.pending, v.accepted, v.failed, v.standing.done, v.standing.acked) && v.inFlight <= |v.pending|
    && (v.arrived ==> Seen(v.deliveries, v.standing.acked, v.pending[..v.inFlight]))
  }

  /** Nothing is acknowledged, for certain or in doubt, that the Controller has not seen. */
  ghost predicate Sound(v: State) {
    && Numbered(v.accepted) && NoGaps(v.deliveries, v.accepted) && OnlyOffered(v.deliveries, v.failed)
    && Seen(v.deliveries, v.standing.acked, v.standing.doubt) && v.standing.done <= Received(v.deliveries)
    && (forall o :: o in v.standing.done ==> o.Unconfirmed?)
    && (v.up ==> QueueSound(v))
  }

  lemma {:induction false} StartIsSound()
    ensures Sound(START)
  {
  }

  lemma {:induction false} AccountsMore(v: State, events: seq<Event>)
    requires Accounts(v.pending, v.accepted, v.failed, v.standing.done, v.standing.acked)
    requires forall o :: o in v.standing.done ==> o.Unconfirmed?
    ensures var more := Tag(events, AcceptedFrom(|v.accepted|));
            Accounts(v.pending + more, v.accepted + more, v.failed, v.standing.done, v.standing.acked)
  {
    hide Confirmed, Named, Tag, Spares;
    var source := AcceptedFrom(|v.accepted|);
    var more := Tag(events, source);
    ConfirmedTag(events, source);
    ConfirmedAppend(v.pending, more);
    DropHead(v.accepted, more, v.standing.acked);
    AcceptedTag(v.pending, events, |v.accepted|, v.standing.done);
    SparesAppend(v.pending, more, v.standing.done);
    AcceptedGenuine(events, v.failed, |v.accepted|);
    GenuineAppend(v.pending, more, v.failed);
  }

  lemma {:induction false} AcceptedTag(items: seq<Item>, events: seq<Event>, from: nat, done: set<Origin>)
    requires forall o :: o in done ==> o.Unconfirmed?
    ensures Spares(Tag(events, AcceptedFrom(from)), done) && Apart(items, Tag(events, AcceptedFrom(from)))
  {
  }

  lemma {:induction false} OfferedMore(deliveries: seq<Delivery>, failed: seq<seq<Event>>, events: seq<Event>)
    requires OnlyOffered(deliveries, failed)
    ensures OnlyOffered(deliveries, failed + [events])
  {
    hide Genuine;
    forall i | 0 <= i < |deliveries|
      ensures Genuine(deliveries[i].items, failed + [events])
    {
      GenuineMore(deliveries[i].items, failed, failed + [events]);
    }
  }

  lemma {:induction false} KeepEnqueued(v: State, events: seq<Event>, ok: bool, w: State)
    requires Sound(v) && Enqueues(v, events, ok, w)
    ensures Sound(w)
  {
    hide NoGaps, Mark, Confirmed, Genuine, OnlyOffered, Tag, Numbered, Seen, Spares;
    if ok {
      var more := Tag(events, AcceptedFrom(|v.accepted|));
      NumberedMore(v.accepted, events);
      NoGapsAccepted(v.deliveries, v.accepted, more);
      AccountsMore(v, events);
      assert (v.pending + more)[..v.inFlight] == v.pending[..v.inFlight];
    } else {
      OfferedMore(v.deliveries, v.failed, events);
      if v.up {
        GenuineMore(v.pending, v.failed, w.failed);
      }
    }
  }

  lemma {:induction false} ReceivedMore(deliveries: seq<Delivery>, d: Delivery)
    ensures Received(deliveries) <= Received(deliveries + [d]) && Unaccepted(d.items) <= Received(deliveries + [d])
  {
    var more := deliveries + [d];
    assert d in more && forall e :: e in deliveries ==> e in more;
  }

  lemma {:induction false} KeepSent(header: nat, v: State, arrives: bool, ok: bool, w: State)
    requires Sound(v) && Sends(header, v, arrives, ok, w)
    ensures Sound(w)
  {
    hide NoGaps, Mark, Confirmed, Genuine, IsWindow, Numbered, Received, Unaccepted, Spares;
    if ok {
      ConfirmedSlice(v.pending, w.inFlight, v.accepted, v.standing.acked);
      GenuineParts(v.pending, v.failed, w.inFlight);
      var d := Delivery(v.pending[..w.inFlight], v.standing.acked);
      NoGapsAppend(v.deliveries, v.accepted, d);
      ReceivedMore(v.deliveries, d);
    }
  }

  /** A part of what was seen was seen. */
  lemma {:induction false} SeenPart(deliveries: seq<Delivery>, from: nat, items: seq<Item>, c: nat, more: seq<Item>)
    requires Seen(deliveries, from, items) && c <= |items| && more <= items[c..]
    ensures Seen(deliveries, from + |Confirmed(items[..c])|, more) && Seen(deliveries, from, items[..c])
  {
    hide Confirmed, Mark, Received;
    var rest := items[c..];
    assert items == items[..c] + rest && rest == more + rest[|more|..];
    ConfirmedAppend(items[..c], rest);
    ConfirmedAppend(more, rest[|more|..]);
    UnacceptedAppend(items[..c], rest);
    UnacceptedAppend(more, rest[|more|..]);
  }

  lemma {:induction false} SeenCertain(deliveries: seq<Delivery>, a: Standing, items: seq<Item>)
    requires Seen(deliveries, a.acked, items) && a.done <= Received(deliveries) && forall o :: o in a.done ==> o.Unconfirmed?
    ensures var b := Certain(a, items);
            && Seen(deliveries, b.acked, b.doubt) && b.done <= Received(deliveries) && forall o :: o in b.done ==> o.Unconfirmed?
  {
    hide Mark, Received;
  }

  lemma {:induction false} AnswerStands(v: State, count: nat, b: Standing)
    requires Sound(v) && v.up && v.arrived && count <= v.inFlight && Commits(v.standing, v.pending, count, v.inFlight, b)
    ensures Seen(v.deliveries, b.acked, b.doubt) && b.done <= Received(v.deliveries) && forall o :: o in b.done ==> o.Unconfirmed?
    ensures b.acked == v.standing.acked + |Confirmed(v.pending[..count])| && b.done == v.standing.done + Unaccepted(v.pending[..count])
  {
    hide NoGaps, Mark, Genuine, OnlyOffered, Numbered, Received, Seen, Spares;
    var flight := v.pending[..v.inFlight];
    assert flight[..count] == v.pending[..count] && v.pending[..0] == [];
    assert b.doubt <= v.pending[count..] && count + |b.doubt| <= v.inFlight ==> b.doubt <= flight[count..];
    SeenPart(v.deliveries, v.standing.acked, flight, count, []);
    SeenCertain(v.deliveries, v.standing, v.pending[..count]);
    if b.doubt <= v.pending[count..] && count + |b.doubt| <= v.inFlight {
      SeenPart(v.deliveries, v.standing.acked, flight, count, b.doubt);
    }
  }

  /** What is behind the acknowledged items of a queue is not acknowledged with them. */
  lemma {:induction false} SparedBehind(items: seq<Item>, done: set<Origin>, count: nat)
    requires count <= |items| && NoRepeats(items) && Spares(items, done)
    ensures Spares(items[count..], done + Unaccepted(items[..count]))
  {
    forall i | 0 <= i < |items| - count
      ensures items[count..][i].origin !in Unaccepted(items[..count])
    {
      assert items[count..][i] == items[count + i];
    }
  }

  lemma {:induction false} KeepAnswered(v: State, positive: bool, ok: bool, w: State)
    requires Sound(v) && Answers(v, positive, ok, w)
    ensures Sound(w)
  {
    hide NoGaps, Mark, Confirmed, Named, OnlyOffered, Numbered, Received, Seen, Spares, Commits, Unaccepted;
    if v.up && positive && v.arrived {
      var count := |v.pending| - |w.pending|;
      AnswerStands(v, count, w.standing);
      ConfirmedSlice(v.pending, count, v.accepted, v.standing.acked);
      GenuineParts(v.pending, v.failed, count);
      SparedBehind(v.pending, v.standing.done, count);
    }
  }

  lemma {:induction false} KeepRestarted(v: State, ok: bool, w: State)
    requires Sound(v) && Restarts(v, ok, w)
    ensures Sound(w)
  {
    hide NoGaps, Mark, Genuine, OnlyOffered, Numbered, Received, Spares;
    SeenCertain(v.deliveries, v.standing, v.standing.doubt);
    assert Confirmed([]) == [] && Unaccepted([]) == {};
  }

  /** Every action keeps the delivery sound. */
  lemma {:induction false} KeepSound(header: nat, v: State, action: Action, ok: bool, w: State)
    requires Sound(v) && Step(header, v, action, ok, w)
    ensures Sound(w)
  {
    hide Sound, Enqueues, Sends, Answers, Restarts;
    match action
    case Enqueue(events, _, _) => KeepEnqueued(v, events, ok, w);
    case Send(arrives) => KeepSent(header, v, arrives, ok, w);
    case Answer(positive) => KeepAnswered(v, positive, ok, w);
    case Restart(_) => KeepRestarted(v, ok, w);
  }

  /** A run: every action has led from one state to the next, with this outcome. */
  ghost predicate Follows(header: nat, actions: seq<Action>, outcomes: seq<bool>, trace: seq<State>) {
    && |outcomes| == |actions| && |trace| == |actions| + 1 && trace[0] == START
    && forall i :: 0 <= i < |actions| ==> Step(header, trace[i], actions[i], outcomes[i], trace[i + 1])
  }

  /** The events of all batches that were reported as stored. */
  function Admitted(actions: seq<Action>, outcomes: seq<bool>): seq<Event>
    requires |outcomes| == |actions|
  {
    if actions == [] then []
    else
      var n := |actions| - 1;
      Admitted(actions[..n], outcomes[..n]) + if actions[n].Enqueue? && outcomes[n] then actions[n].events else []
  }

  /** All batches that were not. */
  function Rejected(actions: seq<Action>, outcomes: seq<bool>): seq<seq<Event>>
    requires |outcomes| == |actions|
  {
    if actions == [] then []
    else
      var n := |actions| - 1;
      Rejected(actions[..n], outcomes[..n]) + if actions[n].Enqueue? && !outcomes[n] then [actions[n].events] else []
  }

  lemma {:induction false} StepAdmits(header: nat, v: State, action: Action, ok: bool, w: State)
    requires Step(header, v, action, ok, w)
    ensures Events(w.accepted) == Events(v.accepted) + if action.Enqueue? && ok then action.events else []
    ensures w.failed == v.failed + if action.Enqueue? && !ok then [action.events] else []
  {
    hide Events, Tag, Confirmed, IsWindow, Accounts, Commits, Resolves;
    if action.Enqueue? && ok {
      var source := AcceptedFrom(|v.accepted|);
      EventsAppend(v.accepted, Tag(action.events, source));
      ConfirmedTag(action.events, source);
    } else {
      assert Events(v.accepted) + [] == Events(v.accepted) && v.failed + [] == v.failed;
    }
  }

  /** Over a whole run: the accepted events are those of the batches reported as stored, the
      others are the failed ones, and the delivery stays sound. */
  lemma {:induction false} RunIsSound(header: nat, actions: seq<Action>, outcomes: seq<bool>, trace: seq<State>)
    requires Follows(header, actions, outcomes, trace)
    ensures var w := trace[|actions|];
            && Sound(w) && Events(w.accepted) == Admitted(actions, outcomes) && w.failed == Rejected(actions, outcomes)
    decreases |actions|
  {
    hide Sound, Step, Events;
    if actions == [] {
      StartIsSound();
      assert Events([]) == [];
    } else {
      var n := |actions| - 1;
      RunIsSound(header, actions[..n], outcomes[..n], trace[..n + 1]);
      assert trace[..n + 1][n] == trace[n];
      KeepSound(header, trace[n], actions[n], outcomes[n], trace[n + 1]);
      StepAdmits(header, trace[n], actions[n], outcomes[n], trace[n + 1]);
    }
  }

  // ---------- Nothing acknowledged comes back ----------

  /** This event is acknowledged for certain. */
  predicate Acknowledged(a: Standing, o: Origin) {
    match o
    case Accepted(index) => index < a.acked
    case Unconfirmed(_, _) => o in a.done
  }

  /** Acknowledgements are not taken back. */
  lemma {:induction false} StepAdvances(header: nat, v: State, action: Action, ok: bool, w: State)
    requires Step(header, v, action, ok, w)
    ensures v.standing.acked <= w.standing.acked && v.standing.done <= w.standing.done && v.deliveries <= w.deliveries
  {
    hide Tag, Confirmed, IsWindow, Accounts, Unaccepted;
  }

  /** Only what waits is delivered. */
  lemma {:induction false} StepDelivers(header: nat, v: State, action: Action, ok: bool, w: State, d: nat, x: Item)
    requires Step(header, v, action, ok, w) && |v.deliveries| <= d < |w.deliveries| && x in w.deliveries[d].items
    ensures v.up && x in v.pending
  {
    hide Tag, Confirmed, IsWindow, Accounts, Unaccepted, Commits, Resolves;
    if action.Send? && ok {
      assert w.deliveries[d].items == v.pending[..w.inFlight];
    }
  }

  lemma {:induction false} WaitingIsNot(v: State, x: Item)
    requires Sound(v) && v.up && x in v.pending
    ensures !Acknowledged(v.standing, x.origin)
  {
    hide NoGaps, Mark, OnlyOffered, Accounts, Confirmed, Received, Seen;
    var i :| 0 <= i < |v.pending| && v.pending[i] == x;
    AcknowledgedNeverReturn(v.pending, v.accepted, v.failed, v.standing.done, v.standing.acked, i);
  }

  lemma {:induction false} TraceAdvances(header: nat, actions: seq<Action>, outcomes: seq<bool>, trace: seq<State>, i: nat, j: nat)
    requires Follows(header, actions, outcomes, trace) && i <= j < |trace|
    ensures trace[i].standing.acked <= trace[j].standing.acked && trace[i].standing.done <= trace[j].standing.done
    ensures trace[i].deliveries <= trace[j].deliveries
    decreases j - i
  {
    hide Step;
    if i < j {
      StepAdvances(header, trace[i], actions[i], outcomes[i], trace[i + 1]);
      TraceAdvances(header, actions, outcomes, trace, i + 1, j);
    }
  }

  lemma {:induction false} TraceSound(header: nat, actions: seq<Action>, outcomes: seq<bool>, trace: seq<State>, j: nat)
    requires Follows(header, actions, outcomes, trace) && j < |trace|
    ensures Sound(trace[j])
  {
    hide Sound, Step;
    if j == 0 {
      StartIsSound();
    } else {
      TraceSound(header, actions, outcomes, trace, j - 1);
      KeepSound(header, trace[j - 1], actions[j - 1], outcomes[j - 1], trace[(j - 1) + 1]);
    }
  }

  /** Once an event is acknowledged for certain, whether its batch was reported as stored or as
      failed, no later body holds it, over restarts and host crashes. */
  lemma {:induction false} NeverDeliveredAgain(header: nat, actions: seq<Action>, outcomes: seq<bool>, trace: seq<State>, i: nat, j: nat, d: nat, x: Item)
    requires Follows(header, actions, outcomes, trace) && i <= j < |trace|
    requires |trace[i].deliveries| <= d < |trace[j].deliveries| && x in trace[j].deliveries[d].items
    ensures !Acknowledged(trace[i].standing, x.origin)
    decreases j
  {
    hide Sound, Step;
    assert j > i;
    var v, w := trace[j - 1], trace[j];
    TraceAdvances(header, actions, outcomes, trace, i, j - 1);
    assert Step(header, trace[j - 1], actions[j - 1], outcomes[j - 1], trace[(j - 1) + 1]);
    StepAdvances(header, v, actions[j - 1], outcomes[j - 1], w);
    if d < |v.deliveries| {
      NeverDeliveredAgain(header, actions, outcomes, trace, i, j - 1, d, x);
    } else {
      TraceSound(header, actions, outcomes, trace, j - 1);
      StepDelivers(header, v, actions[j - 1], outcomes[j - 1], w, d, x);
      WaitingIsNot(v, x);
    }
  }

  // ---------- Carrying it out ----------

  class Delivering {
    const dir: SpoolDirectory
    const header: Bytes
    var spool: TelemetrySpool?
    var inFlight: nat
    var arrived: bool
    /** What the Controller has received. */
    var bodies: seq<Bytes>
    ghost var deliveries: seq<Delivery>

    ghost function View(): State
      reads this, dir
    {
      var q := dir.history.queue;
      State(spool != null, if spool != null then Pending(dir.history) else [], inFlight, arrived, deliveries,
            q.accepted, dir.history.failed, StandingOf(dir.history), dir.faults)
    }

    ghost predicate Valid()
      reads this, dir, spool
    {
      && dir.Valid() && bodies == Bodies(header, deliveries)
      && (spool != null ==> spool.dir == dir && spool.Valid() && inFlight <= |Pending(dir.history)|)
    }

    constructor (dir: SpoolDirectory, header: Bytes)
      requires dir.Valid() && dir.faults == 0
      requires dir.history == EMPTY
      ensures Valid() && this.dir == dir && this.header == header && View() == START && spool == null && bodies == []
    {
      this.dir, this.header, spool, inFlight, arrived, bodies := dir, header, null, 0, false, [];
      deliveries := [];
    }

    /** Take a batch from a Peer. */
    method Enqueue(events: seq<Event>, now: nat, tag: nat) returns (ok: bool)
      requires Valid() && (spool != null ==> spool.FreshTag(tag))
      requires forall i :: 0 <= i < |events| ==> WellFormed(events[i])
      modifies this, dir, spool
      ensures Valid() && spool == old(spool) && bodies == old(bodies)
      ensures Enqueues(old(View()), events, ok, View())
    {
      hide Invariant, CrashSafe, Pending, MemoryOk, SafeImages, Confirmed, Tag, Sizes, Storable, Lines, Bodies;
      if spool == null {
        KeepRefused(dir.Now(), dir.history, Name(0, 0), events);
        dir.history := SpoolHistory.Refused(dir.history, Name(0, 0), events);
        return false;
      }
      ok := spool.Append(events, now, tag);
    }

    /** Build the next request and put it on the wire; it may or may not arrive. */
    method Send(arrives: bool) returns (ok: bool)
      requires Valid()
      modifies this, dir, spool
      ensures Valid() && spool == old(spool)
      ensures Sends(|header|, old(View()), arrives, ok, View())
      ensures bodies == old(bodies) || (ok && arrives && |bodies| == |old(bodies)| + 1 && bodies[..|old(bodies)|] == old(bodies) && |bodies[|old(bodies)|]| <= MAX_EVENT_BATCH_BYTES)
    {
      hide Invariant, CrashSafe, Pending, MemoryOk, SafeImages, Confirmed, Sizes, IsWindow;
      if spool == null || inFlight > 0 {
        return false;
      }
      var r := spool.MarshalPrefix(header);
      ok := r.Window?;
      arrived := false;
      if ok {
        inFlight := r.count;
        if arrives {
          ghost var d := Delivery(Pending(dir.history)[..r.count], dir.history.queue.acked);
          assert Events(d.items) == Events(Pending(dir.history))[..r.count];
          BodiesAppend(header, deliveries, d, r.data);
          arrived := true;
          bodies := bodies + [r.data];
          deliveries := deliveries + [d];
        }
      }
    }

    /** The request ends. Only a positive answer acknowledges, and only what was sent. */
    method Answer(positive: bool) returns (ok: bool)
      requires Valid()
      modifies this, dir, spool
      ensures Valid() && spool == old(spool) && bodies == old(bodies)
      ensures Answers(old(View()), positive, ok, View())
    {
      hide Invariant, CrashSafe, Pending, MemoryOk, SafeImages, Confirmed, Sizes, Bodies;
      ok := false;
      if spool != null {
        if positive && arrived {
          var committed;
          committed, ok := spool.Acknowledge(inFlight);
        }
        inFlight, arrived := 0, false;
      }
    }

    /** The Agent dies at some point of an operation, perhaps with its host, and is started again. */
    method Restart(hostCrashed: bool) returns (ok: bool)
      requires Valid()
      modifies this, dir
      ensures Valid() && (spool == null || fresh(spool)) && bodies == old(bodies)
      ensures Restarts(old(View()), ok, View())
    {
      hide Invariant, CrashSafe, Pending, MemoryOk, SafeImages, Sizes, RecoverAll, Survivor, Bodies, Accounts;
      inFlight, arrived := 0, false;
      if hostCrashed {
        dir.Crash();
        ReturnedStanding(old(dir.Now()), old(dir.history), dir.logs.Keys);
      }
      var status, next, names := SpoolRestart.Open(dir);
      PendingAccounts(dir.Now(), dir.history);
      ok := status == Opened;
      spool := if ok then next else null;
    }
  }

  lemma {:induction false} BodiesAppend(header: Bytes, deliveries: seq<Delivery>, d: Delivery, data: Bytes)
    requires data == Body(header, Events(d.items))
    ensures Bodies(header, deliveries + [d]) == Bodies(header, deliveries) + [data]
  {
    hide Body, Events;
  }

  /** A random name part that no file of the directory has. */
  method PickTag(wish: nat, names: set<Name>) returns (tag: nat)
    ensures forall n :: n in names ==> n.tag != tag
  {
    if forall n :: n in names ==> n.tag != wish {
      return wish;
    }
    tag := 0;
    var rest := names;
    while rest != {}
      invariant rest <= names && forall n :: n in names && n !in rest ==> n.tag < tag
    {
      var n :| n in rest;
      tag := if n.tag < tag then tag else n.tag + 1;
      rest := rest - {n};
    }
  }

  /** Any schedule of appends, sends, answers and restarts, from an empty directory. Each
      action does what Step says; the events reported as stored are the accepted ones; the
      bodies run through them without a gap and hold nothing else but events of batches
      reported as failed; and what the Controller has not seen is still recovered after one
      more crash, which brings back nothing that is acknowledged. */
  method Run(header: Bytes, actions: seq<Action>)
    returns (outcomes: seq<bool>, bodies: seq<Bytes>, dir: SpoolDirectory, ghost trace: seq<State>)
    requires forall i :: 0 <= i < |actions| && actions[i].Enqueue? ==> forall j :: 0 <= j < |actions[i].events| ==> WellFormed(actions[i].events[j])
    ensures Follows(|header|, actions, outcomes, trace)
    ensures var w := trace[|actions|];
            && bodies == Bodies(header, w.deliveries) && w.faults == dir.faults
            && Events(w.accepted) == Admitted(actions, outcomes) && w.failed == Rejected(actions, outcomes)
            && NoGaps(w.deliveries, w.accepted) && OnlyOffered(w.deliveries, w.failed)
            && Seen(w.deliveries, w.standing.acked, w.standing.doubt) && w.standing.done <= Received(w.deliveries)
            && Mark(w.deliveries) <= |w.accepted|
            && CrashSafe(dir.Now(), Ledger(w.accepted, w.failed, w.standing.done, w.standing.acked, w.standing.acked + |Confirmed(w.standing.doubt)|))
  {
    hide Invariant, CrashSafe, Pending, MemoryOk, SafeImages, Confirmed, NoGaps, Mark, Sizes, WellFormed, Step, OnlyOffered, Bodies, Events, InDoubt, Seen, Received;
    dir := new SpoolDirectory();
    var agent := new Delivering(dir, header);
    outcomes := [];
    trace := [agent.View()];
    for i := 0 to |actions|
      invariant agent.Valid() && agent.dir == dir && agent.header == header
      invariant fresh(agent) && fresh(dir) && (agent.spool != null ==> fresh(agent.spool))
      invariant |outcomes| == i && |trace| == i + 1 && trace[0] == START && trace[i] == agent.View()
      invariant forall k :: 0 <= k < i ==> Step(|header|, trace[k], actions[k], outcomes[k], trace[k + 1])
    {
      var ok := Perform(agent, actions[i]);
      outcomes := outcomes + [ok];
      trace := trace + [agent.View()];
    }
    bodies := agent.bodies;
    RunIsSound(|header|, actions, outcomes, trace);
    MarkBounded(agent.deliveries, dir.history.queue.accepted);
    ReachIs(dir.Now(), dir.history);
    InvariantIsCrashSafe(dir.Now(), dir.history);
  }

  method Perform(agent: Delivering, action: Action) returns (ok: bool)
    requires agent.Valid()
    requires action.Enqueue? ==> forall j :: 0 <= j < |action.events| ==> WellFormed(action.events[j])
    modifies agent, agent.dir, agent.spool
    ensures agent.Valid() && (agent.spool == null || agent.spool == old(agent.spool) || fresh(agent.spool))
    ensures Step(|agent.header|, old(agent.View()), action, ok, agent.View())
  {
    hide Invariant, CrashSafe, Pending, MemoryOk, SafeImages, Confirmed, Sizes, WellFormed, Enqueues, Sends, Answers, Restarts, Bodies;
    match action
    case Enqueue(events, now, tag) =>
      var fresh' := PickTag(tag, agent.dir.logs.Keys + agent.dir.acks.Keys + agent.dir.gone.Keys);
      ok := agent.Enqueue(events, now, fresh');
    case Send(arrives) =>
      ok := agent.Send(arrives);
    case Answer(positive) =>
      ok := agent.Answer(positive);
    case Restart(hostCrashed) =>
      ok := agent.Restart(hostCrashed);
  }
}
