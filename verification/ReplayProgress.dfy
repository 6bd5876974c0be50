/** What becomes of terminal records when nothing intervenes: a heartbeat acknowledges
    exactly what it reported, retirement moves exactly the acknowledged records to the
    store, and a registration is followed by a replay of everything that ever ended. */
module ReplayProgress {
  import opened Wrappers
  import opened HistoryReplay

  lemma {:induction false} RunAppend(s: State, a: seq<Action>, b: seq<Action>)
    ensures Run(s, a + b) == Run(Run(s, a), b)
    decreases |a|
  {
    hide Step;
    if a == [] {
      assert a + b == b;
    } else {
      assert (a + b)[0] == a[0] && (a + b)[1..] == a[1..] + b;
      RunAppend(Step(s, a[0]), a[1..], b);
    }
  }

  // ---------- Nothing that ended is forgotten ----------

  lemma {:induction false} StillEnded(s: State, a: Action, id: Id)
    requires Inv(s) && Ended(s, id)
    ensures Ended(Step(s, a), id)
  {
  }

  /** A peer that ended is in memory or in the store from then on. */
  lemma {:induction false} EndedForever(s: State, actions: seq<Action>, id: Id)
    requires Inv(s) && Ended(s, id)
    ensures Ended(Run(s, actions), id)
    decreases |actions|
  {
    if actions != [] {
      StillEnded(s, actions[0], id);
      KeepRun(s, [actions[0]]);
      assert Run(s, [actions[0]]) == Step(s, actions[0]) by { assert [actions[0]][1..] == []; }
      hide Inv, Step, Ended;
      EndedForever(Step(s, actions[0]), actions[1..], id);
    }
  }

  // ---------- Heartbeats ----------

  /** Peers may start, change and end meanwhile. */
  predicate PeersOnly(actions: seq<Action>) {
    forall i :: 0 <= i < |actions| ==> actions[i].Admit? || actions[i].Change? || actions[i].Clean?
  }

  /** Versions only grow, and an ended peer does not change. */
  predicate Follows(a: Entry, b: Entry) {
    a == b || (!a.cleaned && a.version < b.version && a.acked == b.acked)
  }

  lemma {:induction false} PeersFollow(s: State, actions: seq<Action>)
    requires PeersOnly(actions)
    ensures var t := Run(s, actions);
      && t == s.(memory := t.memory)
      && forall id :: id in s.memory ==> id in t.memory && Follows(s.memory[id], t.memory[id])
    decreases |actions|
  {
    if actions != [] {
      PeersFollow(Step(s, actions[0]), actions[1..]);
    }
  }

  /** A heartbeat that reports `sent` of what it copied and gets an answer, while peers go on. */
  function Beat(copied: set<Id>, before: seq<Action>, sent: set<Id>, after: seq<Action>): seq<Action> {
    [Snapshot(copied)] + before + [Post(sent)] + after + [Ack]
  }

  /** Exactly the reported peers that had ended when they were copied become known to the
      Controller and acknowledged; one that ended or changed meanwhile is not. */
  lemma {:induction false} BeatDecides(s: State, copied: set<Id>, before: seq<Action>, sent: set<Id>, after: seq<Action>, id: Id)
    requires s.heartbeat.Idle? && (s.registering.Registered? || s.registering.Unregistered?)
    requires PeersOnly(before) && PeersOnly(after) && id in s.memory
    ensures var t := Run(s, Beat(copied, before, sent, after));
      && id in t.memory && t.store == s.store
      && (t.memory[id].acked <==> s.memory[id].acked || (id in copied && id in sent && s.memory[id].cleaned))
      && (id in t.delivered <==> id in s.delivered || (id in copied && id in sent && s.memory[id].cleaned))
  {
    var a := Step(s, Snapshot(copied));
    var b := Run(a, before);
    var c := Step(b, Post(sent));
    var d := Run(c, after);
    PeersFollow(a, before);
    PeersFollow(c, after);
    BeatRuns(s, copied, before, sent, after);
    hide PeersOnly, Run, Beat, MemoryStep, ReclaimStep, RegisterStep;
  }

  lemma {:induction false} OneStep(s: State, a: Action)
    ensures Run(s, [a]) == Step(s, a)
  {
    hide Step;
    assert [a][1..] == [];
  }

  lemma {:induction false} BeatRuns(s: State, copied: set<Id>, before: seq<Action>, sent: set<Id>, after: seq<Action>)
    ensures Run(s, Beat(copied, before, sent, after)) ==
            Step(Run(Step(Run(Step(s, Snapshot(copied)), before), Post(sent)), after), Ack)
  {
    hide Step, Run;
    RunAppend(s, [Snapshot(copied)] + before + [Post(sent)] + after, [Ack]);
    RunAppend(s, [Snapshot(copied)] + before + [Post(sent)], after);
    RunAppend(s, [Snapshot(copied)] + before, [Post(sent)]);
    RunAppend(s, [Snapshot(copied)], before);
    OneStep(s, Snapshot(copied));
    OneStep(Run(Step(s, Snapshot(copied)), before), Post(sent));
    OneStep(Run(Step(Run(Step(s, Snapshot(copied)), before), Post(sent)), after), Ack);
  }

  // ---------- Retirement ----------

  /** An undisturbed retirement moves exactly the acknowledged records of ended peers. */
  lemma {:induction false} RetireDecides(s: State, ids: set<Id>, id: Id)
    requires s.reclaiming.Resting? && AcksOk(s.memory)
    ensures var t := Run(s, [Select(ids), SaveNodes, Prune]);
      && (id in t.store <==> id in s.store || (id in ids && id in s.memory && s.memory[id].acked))
      && (id in t.memory <==> id in s.memory && !(id in ids && s.memory[id].acked))
      && (id in t.memory ==> t.memory[id] == s.memory[id])
      && t.reclaiming.Resting?
  {
    var a := Step(s, Select(ids));
    var b := Step(a, SaveNodes);
    ThreeSteps(s, Select(ids), SaveNodes, Prune);
    hide Run;
  }

  lemma {:induction false} ThreeSteps(s: State, a: Action, b: Action, c: Action)
    ensures Run(s, [a, b, c]) == Step(Step(Step(s, a), b), c)
  {
    hide Step;
    assert [a, b, c][1..] == [b, c] && [b, c][1..] == [c] && [c][1..] == [];
    OneStep(Step(Step(s, a), b), c);
  }

  // ---------- Replay ----------

  /** The stored records that a replay with this cursor has yet to read. */
  function Ahead(store: set<Id>, last: Option<Id>): set<Id> {
    set id | id in store && After(last, id)
  }

  /** Some way to divide what is ahead into pages; an empty store takes one look. */
  predicate Pages(store: set<Id>, last: Option<Id>, ends: seq<Id>)
    decreases |ends|
  {
    && ends != []
    && (Ahead(store, last) == {} ==> |ends| == 1)
    && (Ahead(store, last) != {} ==> ends[0] in Ahead(store, last))
    && (Ahead(store, last) != {} ==> if Ahead(store, Some(ends[0])) == {} then |ends| == 1 else Pages(store, Some(ends[0]), ends[1..]))
  }

  /** One heartbeat: it reports these peers, is answered, and sends the page that ends here. */
  function Round(peers: set<Id>, store: set<Id>, end: Id): seq<Action> {
    [Snapshot(peers), Post(peers), Ack, StartReplay, ReadPage(end), SendPage(store), EndReplay]
  }

  function Rounds(peers: set<Id>, store: set<Id>, ends: seq<Id>): seq<Action>
    decreases |ends|
  {
    if ends == [] then [] else Round(peers, store, ends[0]) + Rounds(peers, store, ends[1..])
  }

  ghost predicate Replaying(s: State, peers: set<Id>) {
    && s.heartbeat.Idle? && s.registering.Registered? && s.memory.Keys <= peers
    && s.replay.Some? && s.replay.value.pending == {} && !s.replay.value.eof
  }

  /** Every ended peer in memory is acknowledged. */
  function Reported(memory: map<Id, Entry>): map<Id, Entry> {
    map id | id in memory :: if memory[id].cleaned then memory[id].(acked := true) else memory[id]
  }

  lemma {:induction false} RoundRuns(s: State, peers: set<Id>, store: set<Id>, end: Id)
    ensures Run(s, Round(peers, store, end)) ==
      Step(Step(Step(Step(Step(Step(Step(s, Snapshot(peers)), Post(peers)), Ack), StartReplay), ReadPage(end)), SendPage(store)), EndReplay)
  {
    hide Step, Run;
    assert Round(peers, store, end) == [Snapshot(peers), Post(peers), Ack] + [StartReplay, ReadPage(end), SendPage(store)] + [EndReplay];
    RunAppend(s, [Snapshot(peers), Post(peers), Ack] + [StartReplay, ReadPage(end), SendPage(store)], [EndReplay]);
    RunAppend(s, [Snapshot(peers), Post(peers), Ack], [StartReplay, ReadPage(end), SendPage(store)]);
    ThreeSteps(s, Snapshot(peers), Post(peers), Ack);
    ThreeSteps(Step(Step(Step(s, Snapshot(peers)), Post(peers)), Ack), StartReplay, ReadPage(end), SendPage(store));
    OneStep(Step(Step(Step(Step(Step(Step(s, Snapshot(peers)), Post(peers)), Ack), StartReplay), ReadPage(end)), SendPage(store)), EndReplay);
  }

  /** A complete report of the peers in memory. */
  lemma {:induction false} ReportAll(s: State, peers: set<Id>)
    requires s.heartbeat.Idle? && s.registering.Registered? && s.memory.Keys <= peers
    ensures Step(Step(Step(Step(s, Snapshot(peers)), Post(peers)), Ack), StartReplay) ==
      s.(memory := Reported(s.memory), delivered := s.delivered + Terminal(s.memory), heartbeat := Heartbeat.Replaying)
  {
    assert (map id | id in peers && id in s.memory :: s.memory[id]) == s.memory;
    assert s.memory - peers == map[];
  }

  lemma {:induction false} PageEnds(store: set<Id>, last: Option<Id>, end: Id)
    requires end in Ahead(store, last)
    ensures (set id | id in Ahead(store, last) && id <= end) == Ahead(store, last) - Ahead(store, Some(end))
    ensures (forall id :: id in Ahead(store, last) ==> id <= end) <==> Ahead(store, Some(end)) == {}
    ensures Ahead(store, Some(end)) <= Ahead(store, last)
  {
    var rest := Ahead(store, Some(end));
    assert forall id :: id in rest <==> id in Ahead(store, last) && end < id;
    if rest != {} {
      var id :| id in rest;
      assert id in Ahead(store, last);
    }
  }

  lemma {:induction false} PageDecides(s: State, end: Id)
    requires s.heartbeat.Replaying? && s.replay.Some? && s.replay.value.pending == {} && !s.replay.value.eof
    requires Ahead(s.store, s.replay.value.last) != {} ==> end in Ahead(s.store, s.replay.value.last)
    ensures var ahead := Ahead(s.store, s.replay.value.last);
      Step(Step(Step(s, ReadPage(end)), SendPage(s.store)), EndReplay) ==
        s.(heartbeat := Idle,
           delivered := s.delivered + if ahead == {} then {} else ahead - Ahead(s.store, Some(end)),
           replay := if ahead == {} || Ahead(s.store, Some(end)) == {} then None else Some(Replay(Some(end), {}, false)))
  {
    var r, ahead := s.replay.value, Ahead(s.store, s.replay.value.last);
    if ahead != {} {
      PageEnds(s.store, r.last, end);
      var page := ahead - Ahead(s.store, Some(end));
      assert Step(s, ReadPage(end)) == s.(replay := Some(Replay(Some(end), page, Ahead(s.store, Some(end)) == {})));
      assert page <= s.store && s.store * page == page;
    }
  }

  /** The cursor moves to the end of the page, and nothing before it was left out. */
  lemma {:induction false} RoundDecides(s: State, peers: set<Id>, end: Id)
    requires Replaying(s, peers)
    requires Ahead(s.store, s.replay.value.last) != {} ==> end in Ahead(s.store, s.replay.value.last)
    ensures var t, ahead := Run(s, Round(peers, s.store, end)), Ahead(s.store, s.replay.value.last);
      t == s.(memory := Reported(s.memory),
              delivered := s.delivered + Terminal(s.memory) + if ahead == {} then {} else ahead - Ahead(s.store, Some(end)),
              replay := if ahead == {} || Ahead(s.store, Some(end)) == {} then None else Some(Replay(Some(end), {}, false)))
  {
    var a := s.(memory := Reported(s.memory), delivered := s.delivered + Terminal(s.memory), heartbeat := Heartbeat.Replaying);
    ReportAll(s, peers);
    PageDecides(a, end);
    RoundRuns(s, peers, s.store, end);
    hide Run, Step, Ahead, Terminal, Reported;
  }

  lemma {:induction false} ReportedTwice(memory: map<Id, Entry>)
    ensures Reported(Reported(memory)) == Reported(memory) && Terminal(Reported(memory)) == Terminal(memory)
    ensures Reported(memory).Keys == memory.Keys
  {
  }

  /** The heartbeats of a replay, however it is paged, report the peers in memory and every
      stored record behind the cursor, and then the replay is over. */
  lemma {:induction false} ReplayDelivers(s: State, peers: set<Id>, ends: seq<Id>)
    requires Replaying(s, peers) && Pages(s.store, s.replay.value.last, ends)
    ensures Run(s, Rounds(peers, s.store, ends)) ==
      s.(memory := Reported(s.memory), replay := None,
         delivered := s.delivered + Terminal(s.memory) + Ahead(s.store, s.replay.value.last))
    decreases |ends|
  {
    hide Reported, Terminal;
    var ahead, t := Ahead(s.store, s.replay.value.last), Run(s, Round(peers, s.store, ends[0]));
    RoundDecides(s, peers, ends[0]);
    RunAppend(s, Round(peers, s.store, ends[0]), Rounds(peers, s.store, ends[1..]));
    ReportedTwice(s.memory);
    if ahead != {} && Ahead(s.store, Some(ends[0])) != {} {
      PageEnds(s.store, s.replay.value.last, ends[0]);
      ReplayDelivers(t, peers, ends[1..]);
    }
    hide Run, Round, Ahead, Step;
  }

  /** Main result: after a registration during which nothing else happens, the heartbeats of
      the replay report exactly the peers that ever ended, and acknowledge those in memory. */
  lemma {:induction false} RegistrationDelivers(s: State, peers: set<Id>, ends: seq<Id>)
    requires s.heartbeat.Idle? && (s.registering.Registered? || s.registering.Unregistered?)
    requires s.memory.Keys <= peers && Pages(s.store, None, ends)
    ensures var t := Run(s, [Register, ClearAcks, ResetReplay] + Rounds(peers, s.store, ends));
      && t.replay == None && t.heartbeat.Idle? && t.store == s.store && t.memory.Keys == s.memory.Keys
      && (forall id :: id in t.delivered <==> Ended(s, id))
      && (forall id :: id in s.memory ==> t.memory[id] == s.memory[id].(acked := s.memory[id].cleaned))
  {
    var a := Run(s, [Register, ClearAcks, ResetReplay]);
    ThreeSteps(s, Register, ClearAcks, ResetReplay);
    RunAppend(s, [Register, ClearAcks, ResetReplay], Rounds(peers, s.store, ends));
    ReplayDelivers(a, peers, ends);
    hide Run, Rounds, Step;
  }
}
