/** How far each receiver of a message is from its publisher along recorded parents, and
    whether every link on the way was eager. Parents are evidence and may form cycles. */
module MessagePaths {
  import opened Wrappers

  type Id = nat

  datatype Link = Eager | Lazy | Unknown

  /** parent and link of every receiver. */
  datatype Message = Message(publisher: Id, parent: map<Id, Id>, link: map<Id, Link>) {
    ghost predicate Ok() { parent.Keys == link.Keys }
  }

  // ---------- Chains of parents ----------

  /** The chain of parents from id arrives at the publisher after exactly k links. */
  ghost predicate Arrives(m: Message, id: Id, k: nat)
    decreases k
  {
    id in m.parent && k > 0 &&
    if m.parent[id] == m.publisher then k == 1 else Arrives(m, m.parent[id], k - 1)
  }

  ghost predicate Reaches(m: Message, id: Id) {
    exists k: nat :: Arrives(m, id, k)
  }

  /** The chain from id passes through target after j links, before the publisher. */
  ghost predicate Passes(m: Message, id: Id, target: Id, j: nat)
    decreases j
  {
    if j == 0 then id == target
    else id in m.parent && m.parent[id] != m.publisher && Passes(m, m.parent[id], target, j - 1)
  }

  ghost predicate Leads(m: Message, id: Id, target: Id) {
    exists j: nat :: j > 0 && Passes(m, id, target, j)
  }

  /** Everything on the stack of the resolver is below id on its chain. */
  ghost predicate Stack(m: Message, visiting: set<Id>, id: Id) {
    forall v :: v in visiting ==> Leads(m, v, id)
  }

  /** Every link, or some link, of the k links from id is of this kind. */
  ghost predicate AllLinks(m: Message, id: Id, k: nat, kind: Link)
    requires m.Ok() && Arrives(m, id, k)
    decreases k
  {
    m.link[id] == kind && (m.parent[id] != m.publisher ==> AllLinks(m, m.parent[id], k - 1, kind))
  }

  ghost predicate SomeLink(m: Message, id: Id, k: nat, kind: Link)
    requires m.Ok() && Arrives(m, id, k)
    decreases k
  {
    m.link[id] == kind || (m.parent[id] != m.publisher && SomeLink(m, m.parent[id], k - 1, kind))
  }

  lemma {:induction false} ArrivesOnce(m: Message, id: Id, j: nat, k: nat)
    requires Arrives(m, id, j) && Arrives(m, id, k)
    ensures j == k
    decreases j
  {
    if m.parent[id] != m.publisher {
      ArrivesOnce(m, m.parent[id], j - 1, k - 1);
    }
  }

  lemma {:induction false} ArrivesAfter(m: Message, id: Id, k: nat, target: Id, j: nat)
    requires Arrives(m, id, k) && Passes(m, id, target, j)
    ensures j < k && Arrives(m, target, k - j)
    decreases j
  {
    if j > 0 {
      ArrivesAfter(m, m.parent[id], k - 1, target, j - 1);
    }
  }

  /** A chain that comes back to where it was never arrives. */
  lemma {:induction false} CycleNeverArrives(m: Message, id: Id, j: nat)
    requires Passes(m, id, id, j) && j > 0
    ensures !Reaches(m, id)
  {
    if k: nat :| Arrives(m, id, k) {
      ArrivesAfter(m, id, k, id, j);
      ArrivesOnce(m, id, k, k - j);
    }
  }

  lemma {:induction false} PassesOn(m: Message, id: Id, target: Id, j: nat)
    requires Passes(m, id, target, j) && target in m.parent && m.parent[target] != m.publisher
    ensures Passes(m, id, m.parent[target], j + 1)
    decreases j
  {
    if j > 0 {
      PassesOn(m, m.parent[id], target, j - 1);
    }
  }

  // ---------- What a resolved receiver says ----------

  /** hop is the length of the chain, absent if it never arrives; the source is eager iff
      all links of an arriving chain are, lazy iff some link of an arriving chain is. */
  ghost predicate Resolved(m: Message, id: Id, hop: Option<nat>, source: Link)
    requires m.Ok()
  {
    if Reaches(m, id) then
      && hop.Some? && Arrives(m, id, hop.value)
      && (source == Eager <==> AllLinks(m, id, hop.value, Eager))
      && (source == Lazy <==> SomeLink(m, id, hop.value, Lazy))
    else hop == None && source == Unknown
  }

  /** Two resolutions of the same receiver agree, whatever was visited first. */
  lemma {:induction false} ResolvedOnce(m: Message, id: Id, hop: Option<nat>, source: Link, hop': Option<nat>, source': Link)
    requires m.Ok() && Resolved(m, id, hop, source) && Resolved(m, id, hop', source')
    ensures hop == hop' && source == source'
  {
    if Reaches(m, id) {
      ArrivesOnce(m, id, hop.value, hop'.value);
    }
  }

  lemma {:induction false} FirstLink(m: Message, id: Id)
    requires m.Ok() && id in m.parent && m.parent[id] == m.publisher
    ensures Resolved(m, id, Some(1), Combined(m.link[id], Some(0), Eager))
  {
    assert Arrives(m, id, 1);
  }

  lemma {:induction false} NextLink(m: Message, id: Id, hop: Option<nat>, source: Link)
    requires m.Ok() && id in m.parent && m.parent[id] != m.publisher && Resolved(m, m.parent[id], hop, source)
    ensures Resolved(m, id, if hop.Some? then Some(hop.value + 1) else None, Combined(m.link[id], hop, source))
  {
    var p := m.parent[id];
    if hop.Some? {
      assert Arrives(m, id, hop.value + 1);
    } else {
      forall k: nat
        ensures !Arrives(m, id, k)
      {
        assert k > 0 ==> !Arrives(m, p, k - 1);
      }
    }
  }

  lemma {:induction false} Unlinked(m: Message, id: Id)
    requires m.Ok() && id in m.parent && m.parent[id] != m.publisher && !Reaches(m, m.parent[id])
    ensures Resolved(m, id, None, Unknown) && Combined(m.link[id], None, Unknown) == Unknown
  {
    forall k: nat
      ensures !Arrives(m, id, k)
    {
      assert k > 0 ==> !Arrives(m, m.parent[id], k - 1);
    }
  }

  lemma {:induction false} NoReceiver(m: Message, id: Id)
    requires id !in m.parent
    ensures !Reaches(m, id)
  {
  }

  /** The source of a receiver from its link and its parent. */
  function Combined(link: Link, parentHop: Option<nat>, parentSource: Link): Link {
    if parentHop.Some? && (link == Lazy || parentSource == Lazy) then Lazy
    else if link == Eager && parentSource == Eager then Eager
    else Unknown
  }

  // ---------- The resolver ----------

  class Resolver {
    const message: Message
    var hops: map<Id, Option<nat>>
    var sources: map<Id, Link>
    var visiting: set<Id>
    var resolved: set<Id>

    ghost predicate Valid()
      reads this
    {
      && message.Ok() && hops.Keys == sources.Keys == message.parent.Keys
      && resolved <= message.parent.Keys && visiting <= message.parent.Keys && visiting !! resolved
      && (forall id :: id in resolved ==> Resolved(message, id, hops[id], sources[id]))
      && (forall id :: id in message.parent && id !in resolved ==> hops[id] == None && sources[id] == Unknown)
    }

    constructor (message: Message)
      requires message.Ok()
      ensures Valid() && this.message == message && visiting == {} && resolved == {}
    {
      this.message := message;
      hops, sources := map id | id in message.parent :: None, map id | id in message.parent :: Unknown;
      visiting, resolved := {}, {};
    }

    /** Resolve id and whatever its chain needs. */
    method Resolve(id: Id)
      requires Valid() && id in message.parent && id !in visiting && Stack(message, visiting, id)
      modifies this
      ensures Valid() && visiting == old(visiting) && old(resolved) <= resolved && id in resolved
      decreases message.parent.Keys - visiting - resolved
    {
      hide Resolved, Stack, Reaches, Combined;
      if id in resolved {
        return;
      }
      ghost var before := visiting;
      assert id in message.parent.Keys - visiting - resolved;
      visiting := visiting + {id};
      var parent := message.parent[id];
      var parentHop: Option<nat> := None;
      var parentSource := Unknown;
      if parent == message.publisher {
        parentHop, parentSource := Some(0), Eager;
        FirstLink(message, id);
      } else if parent in message.parent && parent !in visiting {
        StackGrows(message, before, id);
        Resolve(parent);
        parentHop, parentSource := hops[parent], sources[parent];
        NextLink(message, id, parentHop, parentSource);
      } else {
        if parent in message.parent {
          var j := Cycle(message, before, id);
          CycleNeverArrives(message, parent, j);
        } else {
          NoReceiver(message, parent);
        }
        Unlinked(message, id);
      }
      Settle(id, parentHop, parentSource);
      assert visiting == before;
    }

    /** Record what a receiver's parent implies for it. */
    method Settle(id: Id, parentHop: Option<nat>, parentSource: Link)
      requires Valid() && id in visiting
      requires Resolved(message, id, if parentHop.Some? then Some(parentHop.value + 1) else None,
                        Combined(message.link[id], parentHop, parentSource))
      modifies this
      ensures Valid() && visiting == old(visiting) - {id} && resolved == old(resolved) + {id}
    {
      hide Resolved, Combined;
      if parentHop.Some? {
        hops := hops[id := Some(parentHop.value + 1)];
      }
      sources := sources[id := Combined(message.link[id], parentHop, parentSource)];
      visiting := visiting - {id};
      resolved := resolved + {id};
    }

    /** Resolve all receivers in the given order; the outcome does not depend on it. */
    method ResolveAll(order: seq<Id>)
      requires Valid() && visiting == {} && forall i :: 0 <= i < |order| ==> order[i] in message.parent
      requires forall id :: id in message.parent ==> id in order
      modifies this
      ensures Valid() && forall id :: id in message.parent ==> Resolved(message, id, hops[id], sources[id])
    {
      for i := 0 to |order|
        invariant Valid() && visiting == {} && forall j :: 0 <= j < i ==> order[j] in resolved
      {
        Resolve(order[i]);
      }
    }
  }

  lemma {:induction false} StackGrows(m: Message, visiting: set<Id>, id: Id)
    requires id in m.parent && m.parent[id] != m.publisher && Stack(m, visiting, id)
    ensures Stack(m, visiting + {id}, m.parent[id])
  {
    forall v | v in visiting + {id}
      ensures Leads(m, v, m.parent[id])
    {
      if v in visiting {
        assert Leads(m, v, id);
        var j: nat :| j > 0 && Passes(m, v, id, j);
        PassesOn(m, v, id, j);
      } else {
        assert Passes(m, m.parent[id], m.parent[id], 0);
        assert Passes(m, id, m.parent[id], 1);
      }
    }
  }

  lemma {:induction false} Cycle(m: Message, visiting: set<Id>, id: Id) returns (j: nat)
    requires id in m.parent && m.parent[id] != m.publisher && m.parent[id] in visiting + {id} && Stack(m, visiting, id)
    ensures j > 0 && Passes(m, m.parent[id], m.parent[id], j)
  {
    StackGrows(m, visiting, id);
    assert Leads(m, m.parent[id], m.parent[id]);
    j :| j > 0 && Passes(m, m.parent[id], m.parent[id], j);
  }
}
