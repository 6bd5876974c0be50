/** What the admission machine achieves when nothing stands in the way: which creates and
    replays succeed, what moves a fence or stops a peer, what retirement and stop-all do. */
module AdmissionOutcomes {
  import opened Wrappers
  import opened AgentAdmission

  // ---------- When a create succeeds ----------

  /** No process was ever admitted under this identity. */
  ghost predicate NeverAdmitted(s: State, id: Id) {
    forall i :: 0 <= i < |s.heap| ==> s.heap[i].request.id != id
  }

  /** What a create is entitled to: the Agent is open, the generation is beyond the fence of
      its run, the identity is new and there is room. */
  ghost predicate Entitled(s: State, q: Request, room: bool) {
    !Closed(s) && q.gen > Fence(s, q.run) && NeverAdmitted(s, q.id) && room
  }

  /** The create was admitted: its process is the newest, as requested, and nothing else changed. */
  ghost predicate Admitted(s: State, tid: nat, q: Request, t: State) {
    && t.heap == s.heap + [Process(q, Pending, false, false, false, false, false)]
    && t.processes == s.processes[q.id := |s.heap|] && t.creating == s.creating[tid := Created(q, |s.heap|)]
    && t == s.(heap := t.heap, processes := t.processes, creating := t.creating)
  }

  lemma {:induction false} KnownIds(s: State, id: Id)
    requires Inv(s) && (id in s.store ==> id in s.processes)
    ensures id in s.processes <==> !NeverAdmitted(s, id)
  {
    hide ReclaimOk, CreatingOk, StopAllOk, HaltOk;
  }

  lemma {:induction false} FenceAtCommit(s: State, q: Request, revision: nat, stored: Option<Generation>)
    requires CreateOk(s, FenceKnown(q, revision, stored)) && revision == s.revision && !Closed(s)
    ensures Max(Level(stored), Level(Get(s.runFences, q.run))) == Fence(s, q.run)
  {
  }

  lemma {:induction false} CommitShape(s: State, tid: nat, q: Request, stored: Option<Generation>, room: bool)
    ensures var t := CommitStep(s, tid, q, s.revision, stored, room);
            if !Closed(s) && q.gen > Max(Level(stored), Level(Get(s.runFences, q.run))) && q.id !in s.processes && room then Admitted(s, tid, q, t)
            else t.heap == s.heap && t.processes == s.processes && !t.creating[tid].Created?
  {
    hide Level, Get, Max;
  }

  /** The commit of a create whose reads are still valid, whatever happened since they were
      made: it is admitted exactly when it is entitled to. */
  lemma {:induction false} CommitDecides(s: State, tid: nat, room: bool)
    requires Inv(s) && tid in s.creating && s.creating[tid].FenceKnown? && s.creating[tid].revision == s.revision
    ensures var q, t := s.creating[tid].request, Step(s, OfCreate(tid, Commit(room)));
            && (Entitled(s, q, room) ==> Admitted(s, tid, q, t))
            && (!Entitled(s, q, room) ==> t.heap == s.heap && t.processes == s.processes && !t.creating[tid].Created?)
  {
    hide Inv, CreateOk, Fence, NeverAdmitted, CommitStep, Admitted, Max, Level, Get, LookupStep, ReceiveStep, SearchStep;
    var c := s.creating[tid];
    CreatingAt(s, tid);
    KnownIds(s, c.request.id);
    CommitShape(s, tid, c.request, c.stored, room);
    if !Closed(s) {
      FenceAtCommit(s, c.request, c.revision, c.stored);
    }
  }

  lemma {:induction false} CreatingAt(s: State, tid: nat)
    requires Inv(s) && tid in s.creating
    ensures CreateOk(s, s.creating[tid])
    ensures s.creating[tid].FenceKnown? && s.creating[tid].revision == s.revision ==>
      (s.creating[tid].request.id in s.store ==> s.creating[tid].request.id in s.processes)
  {
    hide HeapOk, ProcessesOk, StoreOk, Remembered, ReclaimOk, StopAllOk, HaltOk;
  }

  /** The three reads and the commit of one create. */
  function Attempt(tid: nat, room: bool): seq<Action> {
    [OfCreate(tid, ReadRevision), OfCreate(tid, CheckStore), OfCreate(tid, ReadFence), OfCreate(tid, Commit(room))]
  }

  lemma {:induction false} RunFirst(s: State, a: Action, rest: seq<Action>)
    ensures Run(s, [a] + rest) == Run(Step(s, a), rest)
  {
    hide Step;
    assert ([a] + rest)[1..] == rest;
  }

  lemma {:induction false} RunFour(s: State, a: Action, b: Action, c: Action, d: Action)
    ensures Run(s, [a, b, c, d]) == Step(Step(Step(Step(s, a), b), c), d)
  {
    hide Step;
    RunFirst(s, a, [b, c, d]);
    RunFirst(Step(s, a), b, [c, d]);
    RunFirst(Step(Step(s, a), b), c, [d]);
    RunFirst(Step(Step(Step(s, a), b), c), d, []);
    assert [a] + [b, c, d] == [a, b, c, d] && [b] + [c, d] == [b, c, d] && [c] + [d] == [c, d] && [d] + [] == [d];
  }

  /** The state after the reads of a create that nothing has disturbed. */
  lemma {:induction false} AfterReads(s: State, tid: nat, q: Request)
    requires Inv(s) && tid in s.creating && s.creating[tid] == Ready(q)
    ensures var u := Step(Step(Step(s, OfCreate(tid, ReadRevision)), OfCreate(tid, CheckStore)), OfCreate(tid, ReadFence));
            && Inv(u) && u == Create(s, tid, if q.id in s.store then Exists(q) else FenceKnown(q, s.revision, Get(s.fences, q.run)))
  {
    hide Inv, Get, LookupStep, ReceiveStep, SearchStep, CommitStep;
    var s1 := Step(s, OfCreate(tid, ReadRevision));
    KeepStep(s, OfCreate(tid, ReadRevision));
    assert s1 == Create(s, tid, Began(q, s.revision));
    var s2 := Step(s1, OfCreate(tid, CheckStore));
    KeepStep(s1, OfCreate(tid, CheckStore));
    assert s2 == Create(s, tid, if q.id in s.store then Exists(q) else Unused(q, s.revision));
    KeepStep(s2, OfCreate(tid, ReadFence));
    assert Step(s2, OfCreate(tid, ReadFence)) == Create(s, tid, if q.id in s.store then Exists(q) else FenceKnown(q, s.revision, Get(s.fences, q.run)));
  }

  lemma {:induction false} StoredIsKnown(s: State, id: Id)
    requires Inv(s) && id in s.store
    ensures !NeverAdmitted(s, id)
  {
    assert Describes(s.heap, id, s.store[id]);
    hide ReclaimOk, CreatingOk, StopAllOk, HaltOk;
  }

  /** Main result on admission: from every reachable state, a create that is not disturbed
      between its first read and its commit is admitted if it is entitled to, and with any
      one of the conditions missing no process is added. */
  lemma {:induction false} CreateDecides(first: seq<Action>, tid: nat, q: Request, room: bool)
    requires var s := Run(Initial(), first); tid in s.creating && s.creating[tid] == Ready(q)
    ensures var s := Run(Initial(), first);
            var t := Run(s, Attempt(tid, room));
            && (Entitled(s, q, room) ==> Admitted(s, tid, q, t))
            && (!Entitled(s, q, room) ==> t.heap == s.heap && t.processes == s.processes)
  {
    var s := Run(Initial(), first);
    Reachable(first);
    hide Run, Inv, NeverAdmitted, Fence;
    var a, b, c, d := OfCreate(tid, ReadRevision), OfCreate(tid, CheckStore), OfCreate(tid, ReadFence), OfCreate(tid, Commit(room));
    RunFour(s, a, b, c, d);
    AfterReads(s, tid, q);
    var u := Step(Step(Step(s, a), b), c);
    if q.id in s.store {
      StoredIsKnown(s, q.id);
    } else {
      SameEntitled(s, u, q, room);
      hide Entitled;
      CommitDecides(u, tid, room);
    }
  }

  lemma {:induction false} SameEntitled(s: State, u: State, q: Request, room: bool)
    requires u == s.(creating := u.creating)
    ensures Entitled(u, q, room) <==> Entitled(s, q, room)
  {
  }

  // ---------- When a replay succeeds ----------

  /** How a replay that nothing disturbs is answered, by the process of that identity. */
  function ReplayAnswer(q: Request, i: nat, p: Process): Creating {
    if p.request.hash != q.hash || p.admission == Failed then Refused(q)
    else if p.admission == Accepted then Replayed(q, i)
    else Waiting(q, i)
  }

  lemma {:induction false} HeldAt(s: State, i: nat)
    requires Inv(s) && i < |s.heap|
    ensures var id := s.heap[i].request.id;
            && (id in s.processes ==> s.processes[id] == i)
            && (id !in s.processes ==> id in s.store && s.store[id] == Record(i, s.heap[i].request, s.heap[i].admission) && s.heap[i].admission != Pending)
  {
    var id := s.heap[i].request.id;
    assert id !in s.processes ==> id in s.store;
    assert id in s.store ==> Describes(s.heap, id, s.store[id]);
    hide ReclaimOk, CreatingOk, StopAllOk, HaltOk;
  }

  /** A replay of an identity that memory holds, that only the disk holds, and that is new. */
  lemma {:induction false} ReplayHeld(s: State, tid: nat, q: Request, i: nat)
    requires tid in s.creating && s.creating[tid] == Looking(q, false) && i < |s.heap|
    requires q.id in s.processes && s.processes[q.id] == i
    ensures Step(Step(Step(s, OfCreate(tid, Lookup)), OfCreate(tid, Receive)), OfCreate(tid, Search)) == Create(s, tid, ReplayAnswer(q, i, s.heap[i]))
  {
    var u := Step(s, OfCreate(tid, Lookup));
    assert u == Create(s, tid, if s.heap[i].request.hash == q.hash then Waiting(q, i) else Refused(q));
    assert Step(u, OfCreate(tid, Receive)) == Create(s, tid, ReplayAnswer(q, i, s.heap[i]));
  }

  lemma {:induction false} ReplayStored(s: State, tid: nat, q: Request, i: nat)
    requires tid in s.creating && s.creating[tid] == Looking(q, false) && i < |s.heap|
    requires q.id !in s.processes && q.id in s.store && s.store[q.id] == Record(i, s.heap[i].request, s.heap[i].admission) && s.heap[i].admission != Pending
    ensures Step(Step(Step(s, OfCreate(tid, Lookup)), OfCreate(tid, Receive)), OfCreate(tid, Search)) == Create(s, tid, ReplayAnswer(q, i, s.heap[i]))
  {
    var u := Step(s, OfCreate(tid, Lookup));
    assert u == Create(s, tid, Searching(q, false));
    assert Step(u, OfCreate(tid, Receive)) == u;
  }

  lemma {:induction false} ReplayNew(s: State, tid: nat, q: Request)
    requires tid in s.creating && s.creating[tid] == Looking(q, false) && q.id !in s.processes && q.id !in s.store
    ensures Step(Step(Step(s, OfCreate(tid, Lookup)), OfCreate(tid, Receive)), OfCreate(tid, Search)) == Create(s, tid, Ready(q))
  {
    var u := Step(s, OfCreate(tid, Lookup));
    assert u == Create(s, tid, Searching(q, false));
    assert Step(u, OfCreate(tid, Receive)) == u;
  }

  /** Main result on replays: from every reachable state, a repeated request whose identity
      was admitted is answered with that very process if it was accepted with the same
      content, waits for it while it is pending, and is refused otherwise; and one whose
      identity is new goes on to be admitted. */
  lemma {:induction false} ReplayDecides(first: seq<Action>, tid: nat, q: Request)
    requires var s := Run(Initial(), first); tid !in s.creating && q.hash.Some?
    ensures var s := Run(Initial(), first);
            var t := Run(s, [Begin(tid, q), OfCreate(tid, Lookup), OfCreate(tid, Receive), OfCreate(tid, Search)]);
            && (NeverAdmitted(s, q.id) ==> t == Create(s, tid, Ready(q)))
            && forall i :: 0 <= i < |s.heap| && s.heap[i].request.id == q.id ==> t == Create(s, tid, ReplayAnswer(q, i, s.heap[i]))
  {
    var s := Run(Initial(), first);
    Reachable(first);
    hide Run, Inv, ReplayAnswer, CreateStep, Step, Create;
    RunFour(s, Begin(tid, q), OfCreate(tid, Lookup), OfCreate(tid, Receive), OfCreate(tid, Search));
    if i :| 0 <= i < |s.heap| && s.heap[i].request.id == q.id {
      ReplayOld(s, tid, q, i);
      OnlyOne(s, i);
    } else {
      ReplayUnknown(s, tid, q);
    }
  }

  lemma {:induction false} ReplayBegun(s: State, tid: nat, q: Request, c: Creating)
    requires tid !in s.creating && q.hash.Some?
    ensures Step(s, Begin(tid, q)) == Create(s, tid, Looking(q, false)) && Create(Create(s, tid, Looking(q, false)), tid, c) == Create(s, tid, c)
  {
  }

  lemma {:induction false} ReplayOld(s: State, tid: nat, q: Request, i: nat)
    requires Inv(s) && tid !in s.creating && q.hash.Some? && i < |s.heap| && s.heap[i].request.id == q.id
    ensures Step(Step(Step(Step(s, Begin(tid, q)), OfCreate(tid, Lookup)), OfCreate(tid, Receive)), OfCreate(tid, Search)) ==
            Create(s, tid, ReplayAnswer(q, i, s.heap[i]))
  {
    hide Inv, ReplayAnswer, Step;
    HeldAt(s, i);
    ReplayBegun(s, tid, q, ReplayAnswer(q, i, s.heap[i]));
    if q.id in s.processes {
      ReplayHeld(Create(s, tid, Looking(q, false)), tid, q, i);
    } else {
      ReplayStored(Create(s, tid, Looking(q, false)), tid, q, i);
    }
  }

  lemma {:induction false} ReplayUnknown(s: State, tid: nat, q: Request)
    requires Inv(s) && tid !in s.creating && q.hash.Some? && NeverAdmitted(s, q.id)
    ensures Step(Step(Step(Step(s, Begin(tid, q)), OfCreate(tid, Lookup)), OfCreate(tid, Receive)), OfCreate(tid, Search)) == Create(s, tid, Ready(q))
  {
    hide Inv, Step;
    NeverHeld(s, q.id);
    ReplayBegun(s, tid, q, Ready(q));
    ReplayNew(Create(s, tid, Looking(q, false)), tid, q);
  }

  lemma {:induction false} OnlyOne(s: State, i: nat)
    requires Inv(s) && i < |s.heap|
    ensures forall j :: 0 <= j < |s.heap| && s.heap[j].request.id == s.heap[i].request.id ==> j == i
  {
    hide ReclaimOk, CreatingOk, StopAllOk, HaltOk, StoreOk, Remembered, ProcessesOk;
  }

  lemma {:induction false} NeverHeld(s: State, id: Id)
    requires Inv(s) && NeverAdmitted(s, id)
    ensures id !in s.processes && id !in s.store
  {
    assert id in s.store ==> Describes(s.heap, id, s.store[id]);
    hide ReclaimOk, CreatingOk, StopAllOk, HaltOk;
  }

  // ---------- What moves fences and stops peers ----------

  /** The fence of a run after an action, as the requests for stops put it. */
  ghost function FenceAfter(s: State, a: Action, run: RunId): int {
    match a
    case StopRun(r, gen) => if r == run then Max(Fence(s, run), gen) else Fence(s, run)
    case OfStopAll(FenceAll) =>
      if s.stopAll.Closing? && exists id :: id in s.processes && s.processes[id] < |s.heap| && s.heap[s.processes[id]].request.run == run
      then MAX_GENERATION else Fence(s, run)
    case OfStopAll(FenceRun(r)) => if s.stopAll.Listing? && r == run && r in s.stopAll.todo then MAX_GENERATION else Fence(s, run)
    case _ => Fence(s, run)
  }

  lemma {:induction false} FenceMoves(s: State, a: Action, run: RunId)
    requires Inv(s)
    ensures Fence(Step(s, a), run) == FenceAfter(s, a, run)
  {
    match a
    case OfReclaim(reclaim) => ReclaimFences(s, reclaim, run);
    case OfStopAll(stopAll) => StopAllFences(s, stopAll, run);
    case OfCreate(tid, create) => if tid in s.creating { CreateFences(s, tid, s.creating[tid], create, run); }
    case OfPeer(serial, peer) => if serial < |s.heap| { PeerFences(s, serial, peer, run); }
    case StopRun(r, gen) =>
    case Begin(_, _) =>
    case Register =>
  }

  lemma {:induction false} PeerFences(s: State, serial: nat, a: PeerAction, run: RunId)
    requires serial < |s.heap|
    ensures Fence(PeerStep(s, serial, a), run) == Fence(s, run)
  {
  }

  lemma {:induction false} CreateFences(s: State, tid: nat, c: Creating, a: CreateAction, run: RunId)
    ensures Fence(CreateStep(s, tid, c, a), run) == Fence(s, run)
  {
    if a.Commit? && c.FenceKnown? {
      CommitOutcome(s, tid, c.request, c.revision, c.stored, a.room);
    } else {
      OnlyCommitAdmits(s, tid, c, a);
    }
    hide CommitStep, LookupStep, ReceiveStep, SearchStep;
  }

  lemma {:induction false} ReclaimFences(s: State, a: ReclaimAction, run: RunId)
    requires Inv(s)
    ensures Fence(ReclaimStep(s, a), run) == Fence(s, run)
  {
    hide Inv, ReclaimStep;
    OnlyFencesMove(s, a);
    if a.SaveFence? && s.reclaiming.Pruned? && a.run in s.reclaiming.fences {
      SaveFenceFacts(s, a.run);
    } else if a.EvictFence? && s.reclaiming.Saved? {
      EvictFacts(s);
    }
  }

  lemma {:induction false} StopAllFences(s: State, a: StopAllAction, run: RunId)
    ensures Fence(StopAllStep(s, a), run) == FenceAfter(s, OfStopAll(a), run)
  {
  }

  /** Who is told to stop by this action. */
  ghost predicate Reaches(s: State, a: Action, i: nat)
    requires i < |s.heap|
  {
    var p := s.heap[i];
    match a
    case OfPeer(serial, peer) => serial == i && (peer.Stop? || (peer.Exit? && p.admission != Pending))
    case OfStopAll(EndPeer(serial)) => serial == i && s.stopAll.Ending? && i in s.stopAll.peers
    case StopRun(run, gen) =>
      && p.request.run == run && p.request.id in s.processes && s.processes[p.request.id] == i
      && p.request.gen <= Max(Level(Get(s.runFences, run)), gen)
    case _ => false
  }

  lemma {:induction false} CreateHalts(s: State, tid: nat, c: Creating, a: CreateAction, i: nat)
    requires i < |s.heap|
    ensures i < |CreateStep(s, tid, c, a).heap| && CreateStep(s, tid, c, a).heap[i] == s.heap[i]
  {
    hide CommitStep, LookupStep, ReceiveStep, SearchStep;
    if a.Commit? && c.FenceKnown? {
      CommitOutcome(s, tid, c.request, c.revision, c.stored, a.room);
    } else {
      OnlyCommitAdmits(s, tid, c, a);
    }
  }

  lemma {:induction false} StopAllHalts(s: State, a: StopAllAction, i: nat)
    requires i < |s.heap|
    ensures i < |StopAllStep(s, a).heap|
    ensures Halting(StopAllStep(s, a).heap[i]) <==> Halting(s.heap[i]) || Reaches(s, OfStopAll(a), i)
  {
  }

  lemma {:induction false} PeerHalts(s: State, serial: nat, a: PeerAction, i: nat)
    requires serial < |s.heap| && i < |s.heap|
    ensures i < |PeerStep(s, serial, a).heap|
    ensures Halting(PeerStep(s, serial, a).heap[i]) <==> Halting(s.heap[i]) || Reaches(s, OfPeer(serial, a), i)
  {
  }

  lemma {:induction false} StopRunHalts(s: State, run: RunId, gen: Generation, i: nat)
    requires i < |s.heap|
    ensures Halting(StopRunStep(s, run, gen).heap[i]) <==> Halting(s.heap[i]) || Reaches(s, StopRun(run, gen), i)
  {
  }

  /** A process begins to halt exactly when an action reaches it. */
  lemma {:induction false} HaltMoves(s: State, a: Action, i: nat)
    requires i < |s.heap|
    ensures i < |Step(s, a).heap| && (Halting(Step(s, a).heap[i]) <==> Halting(s.heap[i]) || Reaches(s, a, i))
  {
    hide CreateStep, PeerStep, ReclaimStep, StopAllStep, StopRunStep, Halting;
    match a
    case OfReclaim(reclaim) => OnlyFencesMove(s, reclaim);
    case OfStopAll(stopAll) => StopAllHalts(s, stopAll, i);
    case OfCreate(tid, create) => if tid in s.creating { CreateHalts(s, tid, s.creating[tid], create, i); }
    case OfPeer(serial, peer) => if serial < |s.heap| { PeerHalts(s, serial, peer, i); }
    case StopRun(run, gen) =>
      StopRunHalts(s, run, gen, i);
      assert |StopRunStep(s, run, gen).heap| == |s.heap| by { StopRunCount(s, run, gen); }
    case Begin(_, _) =>
    case Register => UnacknowledgedHalts(s.heap, i);
  }

  lemma {:induction false} StopRunCount(s: State, run: RunId, gen: Generation)
    ensures |StopRunStep(s, run, gen).heap| == |s.heap|
  {
  }

  lemma {:induction false} UnacknowledgedHalts(heap: seq<Process>, i: nat)
    requires i < |heap|
    ensures |Unacknowledged(heap)| == |heap| && (Halting(Unacknowledged(heap)[i]) <==> Halting(heap[i]))
  {
  }

  // ---------- What retirement achieves ----------

  /** The selected peers that are acknowledged and cleaned up. */
  ghost function Done(s: State, ids: set<Id>): set<Id> {
    set id | id in ids && id in s.processes && s.processes[id] < |s.heap| && s.heap[s.processes[id]].acked && s.heap[s.processes[id]].cleaned
  }

  /** A retirement that nothing disturbs writes a record of exactly the selected peers that
      are acknowledged and cleaned up, and drops exactly these from memory. */
  lemma {:induction false} RetireDecides(s: State, ids: set<Id>)
    requires ProcessesOk(s.heap, s.processes) && s.reclaiming.Resting? && !s.stopAll.Listing?
    requires forall id :: id in Done(s, ids) ==> s.heap[s.processes[id]].request.run in s.runs
    ensures var t := Step(Step(Step(s, OfReclaim(Select(ids))), OfReclaim(SaveNodes)), OfReclaim(Prune));
            && t.processes.Keys == s.processes.Keys - Done(s, ids) && (forall id :: id in t.processes ==> t.processes[id] == s.processes[id])
            && (forall id :: id in Done(s, ids) ==> id in t.store && t.store[id] == Record(s.processes[id], s.heap[s.processes[id]].request, s.heap[s.processes[id]].admission))
            && (forall id :: id !in Done(s, ids) ==> (id in t.store <==> id in s.store) && (id in s.store ==> t.store[id] == s.store[id]))
            && t.heap == s.heap && t.reclaiming == Pruned(s.runFences)
  {
    hide Step, ProcessesOk;
    var batch := map id | id in ids && Retirable(s, id) :: RecordOf(s, id);
    SelectDone(s, ids, batch);
    var s2 := s.(store := s.store + batch, reclaiming := Written(batch, s.runFences));
    PruneDone(s2, batch);
    SameDone(s, s2, ids, batch);
  }

  lemma {:induction false} SelectDone(s: State, ids: set<Id>, batch: map<Id, Record>)
    requires s.reclaiming.Resting? && !s.stopAll.Listing? && batch == map id | id in ids && Retirable(s, id) :: RecordOf(s, id)
    requires forall id :: id in Done(s, ids) ==> s.heap[s.processes[id]].request.run in s.runs
    ensures Step(Step(s, OfReclaim(Select(ids))), OfReclaim(SaveNodes)) == s.(store := s.store + batch, reclaiming := Written(batch, s.runFences))
    ensures batch.Keys == Done(s, ids)
  {
    assert batch.Keys == Done(s, ids);
    assert Step(s, OfReclaim(Select(ids))) == s.(reclaiming := Selected(batch, s.runFences));
    assert Indexed(s.runs, batch);
  }

  lemma {:induction false} PruneDone(s: State, batch: map<Id, Record>)
    requires s.reclaiming.Written? && s.reclaiming.batch == batch
    ensures Step(s, OfReclaim(Prune)) ==
      s.(processes := s.processes - Prunable(s, batch), revision := s.revision + |Prunable(s, batch)|, reclaiming := Pruned(s.reclaiming.fences))
  {
    hide Prunable;
  }

  lemma {:induction false} SameDone(s: State, t: State, ids: set<Id>, batch: map<Id, Record>)
    requires batch == map id | id in ids && Retirable(s, id) :: RecordOf(s, id)
    requires t.processes == s.processes && t.heap == s.heap
    ensures Prunable(t, batch) == Done(s, ids)
  {
  }

  /** A fence that is not raised meanwhile moves to the disk: memory forgets it, and the
      effective fence stays. */
  lemma {:induction false} FenceRetires(s: State, run: RunId)
    requires Inv(s) && s.reclaiming.Pruned? && run in s.reclaiming.fences && Get(s.runFences, run) == Some(s.reclaiming.fences[run])
    ensures var t := Step(Step(s, OfReclaim(SaveFence(run))), OfReclaim(EvictFence));
            && t.runFences == s.runFences - {run} && run in t.fences && Fence(t, run) == Fence(s, run)
            && t.reclaiming == Pruned(s.reclaiming.fences - {run})
  {
    hide HeapOk, ProcessesOk, StoreOk, Remembered, CreatingOk, StopAllOk, HaltOk;
    var s1 := Step(s, OfReclaim(SaveFence(run)));
    assert s1.runFences == s.runFences && s1.reclaiming == Saved(run, s.reclaiming.fences);
  }

  // ---------- What stop-all achieves ----------

  /** A stop-all that nothing disturbs tells each peer it listed to stop. */
  lemma {:induction false} EndPeers(s: State) returns (actions: seq<Action>)
    requires Inv(s) && s.stopAll.Ending? && (forall i :: i in s.stopAll.peers ==> i < |s.heap|)
    ensures var t := Run(s, actions);
            && Inv(t) && t.stopAll == Ending({}) && |t.heap| == |s.heap| && t.runFences == s.runFences && t.fences == s.fences
            && t.reclaiming == s.reclaiming
            && forall i :: 0 <= i < |t.heap| ==> t.heap[i].request == s.heap[i].request
    decreases s.stopAll.peers
  {
    hide Inv, Step;
    if s.stopAll.peers == {} {
      actions := [];
    } else {
      var i :| i in s.stopAll.peers;
      var a := OfStopAll(EndPeer(i));
      var t := EndOne(s, i);
      var rest := EndPeers(t);
      RunFirst(s, a, rest);
      actions := [a] + rest;
    }
  }

  lemma {:induction false} EndOne(s: State, i: nat) returns (t: State)
    requires Inv(s) && s.stopAll.Ending? && i in s.stopAll.peers && i < |s.heap|
    ensures t == Step(s, OfStopAll(EndPeer(i))) == s.(heap := s.heap[i := Told(s.heap[i])], stopAll := Ending(s.stopAll.peers - {i}))
    ensures Inv(t) && t.heap[i].request == s.heap[i].request
  {
    hide Inv;
    t := Step(s, OfStopAll(EndPeer(i)));
    KeepStep(s, OfStopAll(EndPeer(i)));
  }

  lemma {:induction false} RunJoin(s: State, a: seq<Action>, b: seq<Action>)
    ensures Run(s, a + b) == Run(Run(s, a), b)
    decreases |a|
  {
    hide Step;
    if a == [] {
      assert a + b == b;
    } else {
      assert (a + b)[1..] == a[1..] + b;
      RunJoin(Step(s, a[0]), a[1..], b);
    }
  }

  lemma {:induction false} StopAllBegins(s: State)
    requires Inv(s) && s.stopAll.Quiet?
    ensures var t := Run(s, [OfStopAll(Close), OfStopAll(FenceAll), OfStopAll(ListPeers)]);
            && Inv(t) && t.stopAll.Ending? && t.heap == s.heap && t.reclaiming == s.reclaiming && (forall i :: i in t.stopAll.peers ==> i < |s.heap|)
            && forall id :: id in s.processes && s.processes[id] < |s.heap| ==> Fence(t, s.heap[s.processes[id]].request.run) == MAX_GENERATION
  {
    var a, b, c := OfStopAll(Close), OfStopAll(FenceAll), OfStopAll(ListPeers);
    RunFirst(s, a, [b, c]);
    RunFirst(Step(s, a), b, [c]);
    RunFirst(Step(Step(s, a), b), c, []);
    assert [a] + [b, c] == [a, b, c] && [b] + [c] == [b, c] && [c] + [] == [c];
    KeepStep(s, a);
    KeepStep(Step(s, a), b);
    KeepStep(Step(Step(s, a), b), c);
    hide Inv, Run;
    assert Step(s, a).processes == s.processes && Step(s, a).heap == s.heap;
  }

  lemma {:induction false} StopAllEnds(s: State)
    requires Inv(s) && s.stopAll == Ending({})
    ensures var t := Run(s, [OfStopAll(PeersEnded), OfStopAll(Reopen)]);
            && t == s.(stopAll := Quiet, revision := t.revision) && forall i :: 0 <= i < |t.heap| ==> Halting(t.heap[i])
  {
    var a, b := OfStopAll(PeersEnded), OfStopAll(Reopen);
    RunFirst(s, a, [b]);
    RunFirst(Step(s, a), b, []);
    assert [a] + [b] == [a, b] && [b] + [] == [b];
    StopAllPart(s);
    hide Inv, Run;
  }

  /** From every reachable state a stop-all can run to its end: every peer has ended or been
      told to, every run with a peer in memory is closed for good, and the Agent is open again. */
  lemma {:induction false} StopAllCompletes(first: seq<Action>) returns (actions: seq<Action>)
    requires Run(Initial(), first).stopAll.Quiet?
    ensures var s := Run(Initial(), first);
            var t := Run(s, actions);
            && t.stopAll == Quiet && |t.heap| == |s.heap| && (forall i :: 0 <= i < |t.heap| ==> Halting(t.heap[i]))
            && forall id :: id in s.processes && s.processes[id] < |s.heap| ==> Fence(t, s.heap[s.processes[id]].request.run) == MAX_GENERATION
  {
    hide Inv, Run, Halting;
    var s := Run(Initial(), first);
    Reachable(first);
    var begin := [OfStopAll(Close), OfStopAll(FenceAll), OfStopAll(ListPeers)];
    StopAllBegins(s);
    var u := Run(s, begin);
    var middle := EndPeers(u);
    var v := Run(u, middle);
    var end := [OfStopAll(PeersEnded), OfStopAll(Reopen)];
    StopAllEnds(v);
    RunJoin(s, begin, middle);
    RunJoin(s, begin + middle, end);
    actions := begin + middle + end;
  }

  // ---------- A whole request ----------

  /** Everything one request does, from its arrival to its commit. */
  function Asking(tid: nat, q: Request, room: bool): seq<Action> {
    [Begin(tid, q)] + (if q.hash.Some? then [OfCreate(tid, Lookup), OfCreate(tid, Receive), OfCreate(tid, Search)] else []) + Attempt(tid, room)
  }

  lemma {:induction false} NewIsReady(first: seq<Action>, tid: nat, q: Request) returns (begin: seq<Action>)
    requires var s := Run(Initial(), first); tid !in s.creating && NeverAdmitted(s, q.id)
    ensures begin == [Begin(tid, q)] + if q.hash.Some? then [OfCreate(tid, Lookup), OfCreate(tid, Receive), OfCreate(tid, Search)] else []
    ensures Run(Run(Initial(), first), begin) == Create(Run(Initial(), first), tid, Ready(q))
  {
    var s := Run(Initial(), first);
    hide Run, NeverAdmitted;
    if q.hash.Some? {
      begin := [Begin(tid, q), OfCreate(tid, Lookup), OfCreate(tid, Receive), OfCreate(tid, Search)];
      ReplayDecides(first, tid, q);
    } else {
      begin := [Begin(tid, q)];
      RunFirst(s, Begin(tid, q), []);
      assert [Begin(tid, q)] + [] == begin;
      RunNothing(Step(s, Begin(tid, q)));
    }
  }

  lemma {:induction false} RunNothing(s: State)
    ensures Run(s, []) == s
  {
  }

  /** From every reachable state, a request of a new identity that nothing disturbs is admitted
      exactly when the Agent is open, its generation is beyond the fence and there is room. */
  lemma {:induction false} RequestDecides(first: seq<Action>, tid: nat, q: Request, room: bool)
    requires var s := Run(Initial(), first); tid !in s.creating && NeverAdmitted(s, q.id)
    ensures var s := Run(Initial(), first);
            var t := Run(s, Asking(tid, q, room));
            && (!Closed(s) && q.gen > Fence(s, q.run) && room ==> Admitted(s, tid, q, t))
            && (!(!Closed(s) && q.gen > Fence(s, q.run) && room) ==> t.heap == s.heap && t.processes == s.processes)
  {
    var s := Run(Initial(), first);
    var begin := NewIsReady(first, tid, q);
    hide Run, Attempt;
    RunJoin(Initial(), first, begin);
    RunJoin(s, begin, Attempt(tid, room));
    var u := Create(s, tid, Ready(q));
    CreateDecides(first + begin, tid, q, room);
    SameEntitled(s, u, q, room);
    assert u.creating[tid := Created(q, |s.heap|)] == s.creating[tid := Created(q, |s.heap|)];
  }
}
