/** Heartbeats: the inventory is cut into request bodies by their actual size. */
module Heartbeat {
  import opened Wrappers
  import opened TelemetryCodec
  import opened RequestBody

  datatype Outcome = Sent | HeaderTooLarge | Unencodable(index: nat) | NodeTooLarge(index: nat) | SendFailed

  function Flat(batches: seq<seq<Bytes>>): seq<Bytes> {
    if batches == [] then [] else Flat(batches[..|batches| - 1]) + batches[|batches| - 1]
  }

  lemma {:induction false} FlatSnoc(batches: seq<seq<Bytes>>, batch: seq<Bytes>)
    ensures Flat(batches + [batch]) == Flat(batches) + batch
  {
    assert (batches + [batch])[..|batches|] == batches;
  }

  /** The encoded form of the nodes from i to j, all of which can be encoded. */
  function Encoded(nodes: seq<Option<Bytes>>, i: nat, j: nat): (r: seq<Bytes>)
    requires i <= j <= |nodes| && forall k :: i <= k < j ==> nodes[k].Some?
    ensures |r| == j - i && forall k :: i <= k < j ==> r[k - i] == nodes[k].value
  {
    seq(j - i, k requires 0 <= k < j - i => nodes[i + k].value)
  }

  /** A delivered batch: its body is within the limit, and it is not empty unless the
      inventory is. */
  ghost predicate BatchOk(prefix: Bytes, limit: nat, batch: seq<Bytes>, body: Bytes, empty: bool) {
    body == Body(prefix, batch) && |body| <= limit && (batch == [] ==> empty)
  }

  ghost predicate Delivered(prefix: Bytes, limit: nat, nodes: seq<Option<Bytes>>, batches: seq<seq<Bytes>>, bodies: seq<Bytes>, n: nat) {
    && n <= |nodes| && (forall k :: 0 <= k < n ==> nodes[k].Some?)
    && Flat(batches) == Encoded(nodes, 0, n)
    && |batches| == |bodies|
    && (forall k :: 0 <= k < |batches| ==> BatchOk(prefix, limit, batches[k], bodies[k], |nodes| == 0))
  }

  /** One more node would not fit into this batch. */
  ghost predicate Full(prefix: Bytes, limit: nat, batch: seq<Bytes>, next: Bytes) {
    |Body(prefix, batch + [next])| > limit
  }

  ghost predicate FullAt(prefix: Bytes, limit: nat, batches: seq<seq<Bytes>>, k: nat)
    requires k < |batches| - 1
  {
    batches[k + 1] != [] && Full(prefix, limit, batches[k], batches[k + 1][0])
  }

  /** No batch ends before it has to: the next node, if it was encoded, would not fit. */
  ghost predicate AllFull(prefix: Bytes, limit: nat, nodes: seq<Option<Bytes>>, batches: seq<seq<Bytes>>, sent: nat) {
    && (forall k :: 0 <= k < |batches| - 1 ==> FullAt(prefix, limit, batches, k))
    && (batches != [] && sent < |nodes| ==> nodes[sent].Some? && Full(prefix, limit, batches[|batches| - 1], nodes[sent].value))
  }

  lemma {:induction false} FullMore(prefix: Bytes, limit: nat, nodes: seq<Option<Bytes>>, batches: seq<seq<Bytes>>, sent: nat, end: nat)
    requires sent <= end <= |nodes| && (forall k :: 0 <= k < end ==> nodes[k].Some?) && AllFull(prefix, limit, nodes, batches, sent)
    requires sent < end || batches == []
    requires end < |nodes| ==> nodes[end].Some? && Full(prefix, limit, Encoded(nodes, sent, end), nodes[end].value)
    ensures AllFull(prefix, limit, nodes, batches + [Encoded(nodes, sent, end)], end)
  {
    hide Full;
    var more := batches + [Encoded(nodes, sent, end)];
    forall k | 0 <= k < |more| - 1
      ensures FullAt(prefix, limit, more, k)
    {
      if k < |batches| - 1 {
        assert FullAt(prefix, limit, batches, k);
      } else {
        assert Encoded(nodes, sent, end)[0] == nodes[sent].value;
      }
    }
  }

  lemma {:induction false} FullByLength(prefix: Bytes, limit: nat, nodes: seq<Option<Bytes>>, start: nat, i: nat)
    requires start <= i < |nodes| && forall k :: 0 <= k <= i ==> nodes[k].Some?
    requires |prefix + Joined(Encoded(nodes, start, i))| + (if i > start then 1 else 0) + |nodes[i].value| + 2 > limit
    ensures Full(prefix, limit, Encoded(nodes, start, i), nodes[i].value)
  {
    BatchMore(prefix, nodes, start, i);
    BodyOf(prefix, Encoded(nodes, start, i + 1));
    assert Encoded(nodes, start, i + 1) == Encoded(nodes, start, i) + [nodes[i].value];
  }

  lemma {:induction false} NothingFull(prefix: Bytes, limit: nat, nodes: seq<Option<Bytes>>)
    ensures AllFull(prefix, limit, nodes, [], 0)
  {
  }

  predicate Fits(prefix: Bytes, limit: nat, node: Option<Bytes>) {
    node.Some? && |prefix| + |node.value| + 2 <= limit
  }

  lemma {:induction false} DeliverBatch(prefix: Bytes, limit: nat, nodes: seq<Option<Bytes>>, batches: seq<seq<Bytes>>, bodies: seq<Bytes>, n: nat, end: nat, body: Bytes)
    requires Delivered(prefix, limit, nodes, batches, bodies, n) && n <= end <= |nodes| && (forall k :: 0 <= k < end ==> nodes[k].Some?)
    requires body == Body(prefix, Encoded(nodes, n, end)) && |body| <= limit && (n == end ==> |nodes| == 0)
    ensures Delivered(prefix, limit, nodes, batches + [Encoded(nodes, n, end)], bodies + [body], end)
  {
    FlatSnoc(batches, Encoded(nodes, n, end));
  }

  lemma {:induction false} NothingDelivered(prefix: Bytes, limit: nat, nodes: seq<Option<Bytes>>)
    ensures Delivered(prefix, limit, nodes, [], [], 0)
    ensures prefix == prefix + Joined([])
  {
  }

  /** One more node in the open batch. */
  lemma {:induction false} BatchMore(prefix: Bytes, nodes: seq<Option<Bytes>>, start: nat, i: nat)
    requires start <= i < |nodes| && forall k :: 0 <= k <= i ==> nodes[k].Some?
    ensures Joined(Encoded(nodes, start, i + 1)) ==
      Joined(Encoded(nodes, start, i)) + (if i > start then [COMMA] else []) + nodes[i].value
  {
    var batch := Encoded(nodes, start, i + 1);
    assert batch[..i - start] == Encoded(nodes, start, i) && batch[..i - start + 1] == batch;
    JoinedSnoc(batch, i - start);
  }

  lemma {:induction false} BodyOf(prefix: Bytes, batch: seq<Bytes>)
    ensures prefix + Joined(batch) + BODY_END == Body(prefix, batch)
    ensures |Body(prefix, batch)| == |prefix + Joined(batch)| + 2
  {
  }

  lemma {:induction false} EmptyBatch(nodes: seq<Option<Bytes>>, i: nat)
    requires i <= |nodes|
    ensures Encoded(nodes, i, i) == [] && Joined([]) == []
  {
  }

  /** Send the inventory in batches. `answers` are the outcomes of the posts, in order.
      The delivered batches are always a prefix of the inventory, all of it on success. */
  method SendBatches(prefix: Bytes, limit: nat, nodes: seq<Option<Bytes>>, answers: seq<bool>)
    returns (outcome: Outcome, batches: seq<seq<Bytes>>, bodies: seq<Bytes>, sent: nat)
    requires |answers| > |nodes|
    ensures Delivered(prefix, limit, nodes, batches, bodies, sent)
    ensures AllFull(prefix, limit, nodes, batches, sent)
    ensures outcome == Sent ==> sent == |nodes| && batches != []
    ensures outcome == HeaderTooLarge <==> |prefix| + 2 > limit
    ensures outcome.NodeTooLarge? ==>
      outcome.index < |nodes| && nodes[outcome.index].Some? && !Fits(prefix, limit, nodes[outcome.index])
    ensures outcome.Unencodable? ==> outcome.index < |nodes| && nodes[outcome.index].None?
    ensures outcome == SendFailed ==> |batches| < |answers| && !answers[|batches|]
    ensures forall k :: 0 <= k < |batches| ==> k < |answers| && answers[k]
  {
    hide Delivered, Body, Joined, Encoded, Fits, AllFull, Full;
    batches, bodies, sent := [], [], 0;
    NothingFull(prefix, limit, nodes);
    NothingDelivered(prefix, limit, nodes);
    if |prefix| + 2 > limit {
      return HeaderTooLarge, batches, bodies, sent;
    }
    var data := prefix;
    EmptyBatch(nodes, 0);
    for i := 0 to |nodes|
      invariant sent <= i && (i > 0 ==> sent < i) && |batches| <= sent
      invariant forall k :: 0 <= k < i ==> nodes[k].Some?
      invariant Delivered(prefix, limit, nodes, batches, bodies, sent) && AllFull(prefix, limit, nodes, batches, sent)
      invariant data == prefix + Joined(Encoded(nodes, sent, i)) && |data| + 2 <= limit
      invariant forall k :: 0 <= k < |batches| ==> answers[k]
    {
      FitsMeans(prefix, limit, nodes[i]);
      if nodes[i].None? {
        return Unencodable(i), batches, bodies, sent;
      }
      var encoded := nodes[i].value;
      if |prefix| + |encoded| + 2 > limit {
        return NodeTooLarge(i), batches, bodies, sent;
      }
      var separator := if i > sent then 1 else 0;
      if |data| + separator + |encoded| + 2 > limit {
        if !answers[|batches|] {
          return SendFailed, batches, bodies, sent;
        }
        assert sent < i by { OpenBatch(prefix, nodes, sent, i); }
        FullByLength(prefix, limit, nodes, sent, i);
        FullMore(prefix, limit, nodes, batches, sent, i);
        BodyOf(prefix, Encoded(nodes, sent, i));
        DeliverBatch(prefix, limit, nodes, batches, bodies, sent, i, data + BODY_END);
        batches, bodies := batches + [Encoded(nodes, sent, i)], bodies + [data + BODY_END];
        data, sent := prefix, i;
        EmptyBatch(nodes, i);
        assert prefix + [] == prefix;
      }
      BatchMore(prefix, nodes, sent, i);
      if i > sent {
        data := data + [COMMA];
      }
      data := data + encoded;
    }
    if !answers[|batches|] {
      return SendFailed, batches, bodies, sent;
    }
    FullMore(prefix, limit, nodes, batches, sent, |nodes|);
    BodyOf(prefix, Encoded(nodes, sent, |nodes|));
    DeliverBatch(prefix, limit, nodes, batches, bodies, sent, |nodes|, data + BODY_END);
    return Sent, batches + [Encoded(nodes, sent, |nodes|)], bodies + [data + BODY_END], |nodes|;
  }

  lemma {:induction false} FitsMeans(prefix: Bytes, limit: nat, node: Option<Bytes>)
    ensures Fits(prefix, limit, node) <==> node.Some? && |prefix| + |node.value| + 2 <= limit
  {
  }

  /** A batch that is full cannot be empty. */
  lemma {:induction false} OpenBatch(prefix: Bytes, nodes: seq<Option<Bytes>>, start: nat, i: nat)
    requires start <= i <= |nodes| && forall k :: 0 <= k < i ==> nodes[k].Some?
    ensures start == i ==> Joined(Encoded(nodes, start, i)) == []
  {
  }
}
