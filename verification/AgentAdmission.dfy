/** Peer admission on one Agent instance: creates, run fences, stop-all and the
    retirement of records to disk, one action per lock region or storage operation,
    interleaved in any way. */
module AgentAdmission {
  import opened Wrappers

  const MAX_GENERATION: nat := 0xFFFF_FFFF_FFFF_FFFF

  type Generation = g: nat | g <= MAX_GENERATION

  type Id = nat
  type RunId = nat

  /** A create request; `hash` identifies its content when replay is enabled. */
  datatype Request = Request(id: Id, run: RunId, gen: Generation, hash: Option<nat>)

  datatype Admission = Pending | Accepted | Failed

  /** contained: its container is known by name; cleaned: the container is gone for certain. */
  datatype Process = Process(request: Request, admission: Admission, contained: bool, stopping: bool, exited: bool, cleaned: bool, acked: bool)

  /** A retired record: the process it describes, and its content. */
  datatype Record = Record(serial: nat, request: Request, admission: Admission)

  /** Where one create request stands. */
  datatype Creating =
    | Looking(request: Request, again: bool)
    | Waiting(request: Request, serial: nat)
    | Searching(request: Request, again: bool)
    | Ready(request: Request)
    | Began(request: Request, revision: nat)
    | Unused(request: Request, revision: nat)
    | FenceKnown(request: Request, revision: nat, stored: Option<Generation>)
    | Created(request: Request, serial: nat)
    | Replayed(request: Request, serial: nat)
    | Refused(request: Request)

  datatype Reclaiming =
    | Resting
    | Selected(batch: map<Id, Record>, fences: map<RunId, Generation>)
    | Written(batch: map<Id, Record>, fences: map<RunId, Generation>)
    | Pruned(fences: map<RunId, Generation>)
    | Saved(run: RunId, fences: map<RunId, Generation>)

  datatype StopAll =
    | Quiet
    | Closing
    | Fenced
    | Ending(peers: set<nat>)
    | Stopped
    | Listing(todo: set<RunId>)

  /** heap: every process ever admitted, by the order of admission. */
  datatype State = State(heap: seq<Process>, processes: map<Id, nat>, runFences: map<RunId, Generation>, revision: nat,
                         store: map<Id, Record>, runs: set<RunId>, fences: map<RunId, Generation>,
                         creating: map<nat, Creating>, reclaiming: Reclaiming, stopAll: StopAll)

  function Initial(): State {
    State([], map[], map[], 0, map[], {}, map[], map[], Resting, Quiet)
  }

  // ---------- Actions ----------

  /** One step of a create request; `room` stands for the capacity and backlog checks. */
  datatype CreateAction = Lookup | Receive | Search | ReadRevision | CheckStore | ReadFence | Commit(room: bool) | Abort

  datatype PeerAction = Settle(ok: bool) | Contain | Exit(clean: bool) | Acknowledge | Stop

  datatype ReclaimAction = Select(ids: set<Id>) | IndexRun(run: RunId) | SaveNodes | Prune | SaveFence(run: RunId) | EvictFence | Rest

  datatype StopAllAction = Close | FenceAll | ListPeers | EndPeer(serial: nat) | PeersEnded | ListRuns | FenceRun(run: RunId) | Reopen

  datatype Action =
    | Begin(tid: nat, request: Request)
    | OfCreate(tid: nat, create: CreateAction)
    | OfPeer(serial: nat, peer: PeerAction)
    | OfReclaim(reclaim: ReclaimAction)
    | OfStopAll(stopAll: StopAllAction)
    | Register
    | StopRun(run: RunId, gen: Generation)

  function Get(m: map<RunId, Generation>, run: RunId): Option<Generation> {
    if run in m then Some(m[run]) else None
  }

  /** A fence as a number: -1 when there is none. */
  function Level(fence: Option<Generation>): int {
    if fence.Some? then fence.value else -1
  }

  function Max(a: int, b: int): int {
    if a > b then a else b
  }

  function Raise(m: map<RunId, Generation>, run: RunId, gen: Generation): map<RunId, Generation> {
    if run in m && m[run] >= gen then m else m[run := gen]
  }

  /** The effective fence of a run. */
  function Fence(s: State, run: RunId): int {
    Max(Level(Get(s.runFences, run)), Level(Get(s.fences, run)))
  }

  function Closed(s: State): bool {
    !s.stopAll.Quiet?
  }

  /** A name conflict is answered by a replay when the request allows one. */
  function Exists(q: Request): Creating {
    if q.hash.Some? then Looking(q, true) else Refused(q)
  }

  function Answer(q: Request, serial: nat, hash: Option<nat>, admission: Admission): Creating {
    if hash == q.hash && admission == Accepted then Replayed(q, serial) else Refused(q)
  }

  function Create(s: State, tid: nat, c: Creating): State {
    s.(creating := s.creating[tid := c])
  }

  function Grown(s: State, q: Request): State {
    s.(heap := s.heap + [Process(q, Pending, false, false, false, false, false)], processes := s.processes[q.id := |s.heap|])
  }

  /** The commit of an admission: all checks and the insertion under the state lock. */
  function CommitStep(s: State, tid: nat, q: Request, revision: nat, stored: Option<Generation>, room: bool): State {
    if revision != s.revision then Create(s, tid, Ready(q))
    else if Closed(s) then Create(s, tid, Refused(q))
    else if q.gen <= Max(Level(stored), Level(Get(s.runFences, q.run))) then Create(s, tid, Refused(q))
    else if q.id in s.processes then Create(s, tid, Exists(q))
    else if !room then Create(s, tid, Refused(q))
    else
      Create(Grown(s, q), tid, Created(q, |s.heap|))
  }

  function LookupStep(s: State, tid: nat, q: Request, again: bool): State {
    if q.id in s.processes && s.processes[q.id] < |s.heap| then
      if s.heap[s.processes[q.id]].request.hash == q.hash then Create(s, tid, Waiting(q, s.processes[q.id]))
      else Create(s, tid, Refused(q))
    else Create(s, tid, Searching(q, again))
  }

  function ReceiveStep(s: State, tid: nat, q: Request, serial: nat): State {
    if serial < |s.heap| && s.heap[serial].admission != Pending then
      Create(s, tid, Answer(q, serial, s.heap[serial].request.hash, s.heap[serial].admission))
    else s
  }

  function SearchStep(s: State, tid: nat, q: Request, again: bool): State {
    if q.id in s.store then
      Create(s, tid, Answer(q, s.store[q.id].serial, s.store[q.id].request.hash, s.store[q.id].admission))
    else Create(s, tid, if again then Refused(q) else Ready(q))
  }

  function CreateStep(s: State, tid: nat, c: Creating, a: CreateAction): State {
    var q := c.request;
    match a
    case Lookup => if c.Looking? then LookupStep(s, tid, q, c.again) else s
    case Receive => if c.Waiting? then ReceiveStep(s, tid, q, c.serial) else s
    case Search => if c.Searching? then SearchStep(s, tid, q, c.again) else s
    case ReadRevision => if c.Ready? then Create(s, tid, Began(q, s.revision)) else s
    case CheckStore => if c.Began? then Create(s, tid, if q.id in s.store then Exists(q) else Unused(q, c.revision)) else s
    case ReadFence => if c.Unused? then Create(s, tid, FenceKnown(q, c.revision, Get(s.fences, q.run))) else s
    case Commit(room) => if c.FenceKnown? then CommitStep(s, tid, q, c.revision, c.stored, room) else s
    case Abort => if c.Created? || c.Replayed? then s else Create(s, tid, Refused(q))
  }

  // ---------- Processes ----------

  function Update(s: State, serial: nat, p: Process): State
    requires serial < |s.heap|
  {
    s.(heap := s.heap[serial := p])
  }

  function PeerStep(s: State, serial: nat, a: PeerAction): State
    requires serial < |s.heap|
  {
    var p := s.heap[serial];
    match a
    case Settle(ok) => if p.admission == Pending then Update(s, serial, p.(admission := if ok then Accepted else Failed)) else s
    case Exit(clean) => if p.admission != Pending then Update(s, serial, p.(exited := true, cleaned := p.cleaned || clean)) else s
    case Acknowledge => if p.cleaned then Update(s, serial, p.(acked := true)) else s
    case Contain => Update(s, serial, p.(contained := true))
    case Stop => Update(s, serial, Told(p))
  }

  /** A peer told to stop: a running one is cancelled; for one that ended with its container
      left behind, the removal of the container is tried again. */
  function Told(p: Process): Process {
    if !p.exited then p.(stopping := true)
    else if !p.cleaned && p.contained then p.(exited := false, stopping := true)
    else p
  }

  function Unacknowledged(heap: seq<Process>): seq<Process> {
    seq(|heap|, i requires 0 <= i < |heap| => heap[i].(acked := false))
  }

  /** Peers of the stopped generations are told to stop under the same lock. */
  function StopHeap(heap: seq<Process>, processes: map<Id, nat>, run: RunId, fence: Generation): seq<Process> {
    seq(|heap|, i requires 0 <= i < |heap| =>
      var p := heap[i];
      if p.request.id in processes && processes[p.request.id] == i && p.request.run == run && p.request.gen <= fence
      then Told(p) else p)
  }

  function StopRunStep(s: State, run: RunId, gen: Generation): State {
    var raised := run !in s.runFences || gen > s.runFences[run];
    var fences := Raise(s.runFences, run, gen);
    s.(runFences := fences, revision := if raised then s.revision + 1 else s.revision,
       heap := StopHeap(s.heap, s.processes, run, fences[run]))
  }

  // ---------- Retirement ----------

  function RecordOf(s: State, id: Id): Record
    requires id in s.processes && s.processes[id] < |s.heap|
  {
    var serial := s.processes[id];
    Record(serial, s.heap[serial].request, s.heap[serial].admission)
  }

  predicate Retirable(s: State, id: Id) {
    id in s.processes && s.processes[id] < |s.heap| && s.heap[s.processes[id]].acked && s.heap[s.processes[id]].cleaned
  }

  /** Only records that are still acknowledged and still the same process leave memory. */
  function Prunable(s: State, batch: map<Id, Record>): set<Id> {
    set id | id in batch && Retirable(s, id) && s.processes[id] == batch[id].serial
  }

  predicate Indexed(runs: set<RunId>, batch: map<Id, Record>) {
    forall id :: id in batch ==> batch[id].request.run in runs
  }

  function EvictStep(s: State, run: RunId, fences: map<RunId, Generation>): State {
    if run in fences && Get(s.runFences, run) == Some(fences[run])
    then s.(runFences := s.runFences - {run}, revision := s.revision + 1, reclaiming := Pruned(fences - {run}))
    else s.(reclaiming := Pruned(fences - {run}))
  }

  function ReclaimStep(s: State, a: ReclaimAction): State {
    var r := s.reclaiming;
    match a
    case Select(ids) =>
      if !r.Resting? || s.stopAll.Listing? then s
      else s.(reclaiming := Selected(map id | id in ids && Retirable(s, id) :: RecordOf(s, id), s.runFences))
    case IndexRun(run) => if r.Selected? then s.(runs := s.runs + {run}) else s
    case SaveNodes =>
      if r.Selected? && Indexed(s.runs, r.batch) then s.(store := s.store + r.batch, reclaiming := Written(r.batch, r.fences)) else s
    case Prune =>
      if !r.Written? then s
      else
        var gone := Prunable(s, r.batch);
        s.(processes := s.processes - gone, revision := s.revision + |gone|, reclaiming := Pruned(r.fences))
    case SaveFence(run) =>
      if r.Pruned? && run in r.fences
      then s.(fences := Raise(s.fences, run, r.fences[run]), reclaiming := Saved(run, r.fences)) else s
    case EvictFence => if r.Saved? then EvictStep(s, r.run, r.fences) else s
    case Rest => s.(reclaiming := Resting)
  }

  // ---------- Stop-all ----------

  function PeerRuns(s: State): set<RunId> {
    set id | id in s.processes && s.processes[id] < |s.heap| :: s.heap[s.processes[id]].request.run
  }

  function RaiseAll(fences: map<RunId, Generation>, runs: set<RunId>): map<RunId, Generation> {
    map run | run in fences.Keys + runs :: if run in runs then MAX_GENERATION else fences[run]
  }

  function Peers(s: State): set<nat> {
    set id | id in s.processes && s.processes[id] < |s.heap| && !(s.heap[s.processes[id]].exited && s.heap[s.processes[id]].cleaned) :: s.processes[id]
  }

  function StopAllStep(s: State, a: StopAllAction): State {
    var stage := s.stopAll;
    match a
    case Close => if stage.Quiet? then s.(stopAll := Closing, revision := s.revision + 1) else s
    case FenceAll => if stage.Closing? then s.(runFences := RaiseAll(s.runFences, PeerRuns(s)), stopAll := Fenced) else s
    case ListPeers => if stage.Fenced? then s.(stopAll := Ending(Peers(s))) else s
    case EndPeer(serial) =>
      if stage.Ending? && serial in stage.peers && serial < |s.heap|
      then Update(s, serial, Told(s.heap[serial])).(stopAll := Ending(stage.peers - {serial})) else s
    case PeersEnded => if stage == Ending({}) then s.(stopAll := Stopped) else s
    case ListRuns => if stage.Stopped? && s.reclaiming.Resting? then s.(stopAll := Listing(s.runs)) else s
    case FenceRun(run) =>
      if stage.Listing? && run in stage.todo
      then s.(fences := Raise(s.fences, run, MAX_GENERATION), stopAll := Listing(stage.todo - {run})) else s
    case Reopen =>
      if stage.Stopped? || stage.Listing? then s.(stopAll := Quiet, revision := s.revision + 1) else s
  }

  /** One action of whichever thread it belongs to; an action out of turn does nothing. */
  function Step(s: State, a: Action): State {
    match a
    case Begin(tid, q) =>
      if tid in s.creating then s else Create(s, tid, if q.hash.Some? then Looking(q, false) else Ready(q))
    case OfCreate(tid, create) => if tid in s.creating then CreateStep(s, tid, s.creating[tid], create) else s
    case OfPeer(serial, peer) => if serial < |s.heap| then PeerStep(s, serial, peer) else s
    case OfReclaim(reclaim) => ReclaimStep(s, reclaim)
    case OfStopAll(stopAll) => StopAllStep(s, stopAll)
    case Register => s.(heap := Unacknowledged(s.heap))
    case StopRun(run, gen) => StopRunStep(s, run, gen)
  }

  function Run(s: State, actions: seq<Action>): State
    decreases |actions|
  {
    if actions == [] then s else Run(Step(s, actions[0]), actions[1..])
  }

  // ---------- The invariant ----------

  /** No identity is ever admitted twice, and a peer exits only after its admission settled. */
  ghost predicate HeapOk(heap: seq<Process>) {
    && (forall i, j :: 0 <= i < j < |heap| ==> heap[i].request.id != heap[j].request.id)
    && (forall i :: 0 <= i < |heap| && heap[i].cleaned ==> heap[i].exited)
    && (forall i :: 0 <= i < |heap| && heap[i].exited ==> heap[i].admission != Pending)
  }

  /** Record r is about the one process with this identity, which has ended. */
  ghost predicate Describes(heap: seq<Process>, id: Id, r: Record) {
    && r.serial < |heap| && heap[r.serial].request == r.request && r.request.id == id
    && heap[r.serial].admission == r.admission && heap[r.serial].cleaned && heap[r.serial].exited
  }

  ghost predicate ProcessesOk(heap: seq<Process>, processes: map<Id, nat>) {
    forall id :: id in processes ==> processes[id] < |heap| && heap[processes[id]].request.id == id
  }

  ghost predicate StoreOk(heap: seq<Process>, store: map<Id, Record>, runs: set<RunId>) {
    forall id :: id in store ==> Describes(heap, id, store[id]) && store[id].request.run in runs
  }

  /** Every process ever admitted is in memory or in the store. */
  ghost predicate Remembered(heap: seq<Process>, processes: map<Id, nat>, store: map<Id, Record>) {
    forall i :: 0 <= i < |heap| ==> heap[i].request.id in processes || heap[i].request.id in store
  }

  ghost predicate BatchOk(heap: seq<Process>, processes: map<Id, nat>, batch: map<Id, Record>) {
    forall id :: id in batch ==> id in processes && Describes(heap, id, batch[id])
  }

  /** Fences about to be moved to disk are still held in memory. */
  ghost predicate Pinned(runFences: map<RunId, Generation>, fences: map<RunId, Generation>) {
    forall run :: run in fences ==> run in runFences && runFences[run] >= fences[run]
  }

  ghost predicate ReclaimOk(heap: seq<Process>, processes: map<Id, nat>, store: map<Id, Record>, runFences: map<RunId, Generation>,
                            fences: map<RunId, Generation>, r: Reclaiming)
  {
    match r
    case Resting => true
    case Selected(batch, pending) => BatchOk(heap, processes, batch) && Pinned(runFences, pending)
    case Written(batch, pending) => BatchOk(heap, processes, batch) && batch.Keys <= store.Keys && Pinned(runFences, pending)
    case Pruned(pending) => Pinned(runFences, pending)
    case Saved(run, pending) => Pinned(runFences, pending) && (run in pending ==> run in fences && fences[run] >= pending[run])
  }

  /** What a create request knows is still true unless the revision says otherwise. */
  ghost predicate CreateOk(s: State, c: Creating) {
    match c
    case Began(q, revision) => revision <= s.revision
    case Unused(q, revision) =>
      revision <= s.revision && (revision == s.revision && q.id in s.store ==> q.id in s.processes)
    case FenceKnown(q, revision, stored) =>
      && revision <= s.revision && (revision == s.revision && q.id in s.store ==> q.id in s.processes)
      && Level(stored) <= Level(Get(s.fences, q.run))
      && (revision == s.revision && !Closed(s) ==>
            Level(Get(s.fences, q.run)) <= Max(Level(stored), Level(Get(s.runFences, q.run))))
    case Waiting(q, serial) => Matches(s.heap, q, serial)
    case Created(q, serial) => serial < |s.heap| && s.heap[serial].request == q
    case Replayed(q, serial) => Matches(s.heap, q, serial) && s.heap[serial].admission == Accepted
    case _ => true
  }

  ghost predicate Matches(heap: seq<Process>, q: Request, serial: nat) {
    serial < |heap| && heap[serial].request.id == q.id && heap[serial].request.hash == q.hash
  }

  ghost predicate CreatingOk(s: State) {
    forall tid :: tid in s.creating ==> CreateOk(s, s.creating[tid])
  }

  /** Process i has ended or has been told to. */
  predicate Halting(p: Process) {
    p.stopping || p.exited
  }

  ghost predicate ClosedRuns(s: State, runs: set<RunId>) {
    forall i :: 0 <= i < |s.heap| ==> Fence(s, s.heap[i].request.run) == MAX_GENERATION || s.heap[i].request.run in runs
  }

  ghost predicate AllHalting(heap: seq<Process>, but: set<nat>) {
    forall i :: 0 <= i < |heap| ==> Halting(heap[i]) || i in but
  }

  ghost predicate StopAllOk(s: State) {
    match s.stopAll
    case Quiet => true
    case Closing => true
    case Fenced => ClosedRuns(s, s.runs)
    case Ending(peers) => ClosedRuns(s, s.runs) && AllHalting(s.heap, peers)
    case Stopped => ClosedRuns(s, s.runs) && AllHalting(s.heap, {})
    case Listing(todo) => ClosedRuns(s, todo) && AllHalting(s.heap, {})
  }

  /** Fenced peers are halting, except while stop-all is between fencing and stopping. */
  ghost predicate HaltOk(s: State) {
    s.stopAll.Fenced? || s.stopAll.Ending? ||
    forall i :: 0 <= i < |s.heap| && s.heap[i].request.gen <= Fence(s, s.heap[i].request.run) ==> Halting(s.heap[i])
  }

  ghost predicate Inv(s: State) {
    && HeapOk(s.heap) && ProcessesOk(s.heap, s.processes) && StoreOk(s.heap, s.store, s.runs)
    && Remembered(s.heap, s.processes, s.store)
    && ReclaimOk(s.heap, s.processes, s.store, s.runFences, s.fences, s.reclaiming)
    && CreatingOk(s) && StopAllOk(s) && HaltOk(s)
    && (s.stopAll.Listing? ==> s.reclaiming.Resting?)
  }

  lemma {:induction false} InitialInv()
    ensures Inv(Initial())
  {
  }

  // ---------- Creates ----------

  lemma {:induction false} KeepCreating(s: State, tid: nat, c: Creating)
    requires Inv(s) && CreateOk(s, c)
    ensures Inv(Create(s, tid, c))
  {
    hide HeapOk, ProcessesOk, StoreOk, Remembered, ReclaimOk;
    var t := Create(s, tid, c);
    assert forall x :: CreateOk(t, x) <==> CreateOk(s, x);
  }

  /** An admission that commits is beyond the effective fence and new. */
  lemma {:induction false} CommitIsSound(s: State, q: Request, revision: nat, stored: Option<Generation>)
    requires Inv(s) && CreateOk(s, FenceKnown(q, revision, stored)) && revision == s.revision && !Closed(s)
    requires q.gen > Max(Level(stored), Level(Get(s.runFences, q.run))) && q.id !in s.processes
    ensures q.gen > Fence(s, q.run)
    ensures forall i :: 0 <= i < |s.heap| ==> s.heap[i].request.id != q.id
  {
    hide HeapOk, ReclaimOk, StopAllOk, HaltOk, CreatingOk;
    assert q.id !in s.store;
  }

  lemma {:induction false} CreatingGrown(s: State, q: Request)
    requires CreatingOk(s)
    ensures CreatingOk(Grown(s, q))
  {
    var t := Grown(s, q);
    forall tid | tid in s.creating
      ensures CreateOk(t, s.creating[tid])
    {
      assert CreateOk(s, s.creating[tid]);
    }
  }

  lemma {:induction false} HeapGrown(heap: seq<Process>, q: Request)
    requires HeapOk(heap) && forall i :: 0 <= i < |heap| ==> heap[i].request.id != q.id
    ensures HeapOk(heap + [Process(q, Pending, false, false, false, false, false)])
  {
  }

  lemma {:induction false} RecordsGrown(s: State, q: Request)
    requires ProcessesOk(s.heap, s.processes) && StoreOk(s.heap, s.store, s.runs) && Remembered(s.heap, s.processes, s.store)
    ensures var t := Grown(s, q);
      ProcessesOk(t.heap, t.processes) && StoreOk(t.heap, t.store, t.runs) && Remembered(t.heap, t.processes, t.store)
  {
  }

  lemma {:induction false} ReclaimGrown(s: State, q: Request)
    requires ReclaimOk(s.heap, s.processes, s.store, s.runFences, s.fences, s.reclaiming)
    ensures var t := Grown(s, q); ReclaimOk(t.heap, t.processes, t.store, t.runFences, t.fences, t.reclaiming)
  {
    hide Pinned;
  }

  lemma {:induction false} HaltGrown(s: State, q: Request)
    requires HaltOk(s) && q.gen > Fence(s, q.run)
    ensures HaltOk(Grown(s, q))
  {
    var t := Grown(s, q);
    assert forall run :: Fence(t, run) == Fence(s, run);
    hide Fence;
  }

  lemma {:induction false} KeepGrown(s: State, q: Request)
    requires Inv(s) && !Closed(s) && q.gen > Fence(s, q.run)
    requires forall i :: 0 <= i < |s.heap| ==> s.heap[i].request.id != q.id
    ensures Inv(Grown(s, q))
  {
    hide HeapOk, ProcessesOk, StoreOk, Remembered, ReclaimOk, CreatingOk, HaltOk, Fence;
    CreatingGrown(s, q);
    HeapGrown(s.heap, q);
    RecordsGrown(s, q);
    ReclaimGrown(s, q);
    HaltGrown(s, q);
  }

  lemma {:induction false} KeepAdmitted(s: State, tid: nat, q: Request)
    requires Inv(s) && !Closed(s) && q.gen > Fence(s, q.run)
    requires forall i :: 0 <= i < |s.heap| ==> s.heap[i].request.id != q.id
    ensures Inv(Create(Grown(s, q), tid, Created(q, |s.heap|)))
  {
    hide Inv;
    KeepGrown(s, q);
    KeepCreating(Grown(s, q), tid, Created(q, |s.heap|));
  }

  lemma {:induction false} KeepCommit(s: State, tid: nat, q: Request, revision: nat, stored: Option<Generation>, room: bool)
    requires Inv(s) && CreateOk(s, FenceKnown(q, revision, stored))
    ensures Inv(CommitStep(s, tid, q, revision, stored, room))
  {
    hide Inv;
    KeepCreating(s, tid, Ready(q));
    KeepCreating(s, tid, Refused(q));
    KeepCreating(s, tid, Exists(q));
    if revision == s.revision && !Closed(s) && q.gen > Max(Level(stored), Level(Get(s.runFences, q.run))) && q.id !in s.processes {
      CommitIsSound(s, q, revision, stored);
      KeepAdmitted(s, tid, q);
    }
  }

  /** Outside the commit, a create request only learns; what it learns is true. */
  ghost predicate Learns(s: State, tid: nat, t: State) {
    t == s || (tid in t.creating && t == Create(s, tid, t.creating[tid]) && CreateOk(s, t.creating[tid]))
  }

  lemma {:induction false} LookupLearns(s: State, tid: nat, c: Creating)
    requires CreateOk(s, c) && ProcessesOk(s.heap, s.processes)
    ensures Learns(s, tid, CreateStep(s, tid, c, Lookup))
  {
    assert c.Looking? && c.request.id in s.processes ==> s.heap[s.processes[c.request.id]].request.id == c.request.id;
    hide ProcessesOk;
  }

  lemma {:induction false} ReceiveLearns(s: State, tid: nat, c: Creating)
    requires CreateOk(s, c)
    ensures Learns(s, tid, CreateStep(s, tid, c, Receive))
  {
  }

  lemma {:induction false} SearchLearns(s: State, tid: nat, c: Creating)
    requires CreateOk(s, c) && StoreOk(s.heap, s.store, s.runs)
    ensures Learns(s, tid, CreateStep(s, tid, c, Search))
  {
    assert c.Searching? && c.request.id in s.store ==> Describes(s.heap, c.request.id, s.store[c.request.id]);
    hide StoreOk;
  }

  /** A replay is answered only with the one process of that identity and content. */
  lemma {:induction false} ReplayLearns(s: State, tid: nat, c: Creating, a: CreateAction)
    requires CreateOk(s, c) && ProcessesOk(s.heap, s.processes) && StoreOk(s.heap, s.store, s.runs)
    requires a.Lookup? || a.Receive? || a.Search?
    ensures Learns(s, tid, CreateStep(s, tid, c, a))
  {
    hide CreateOk, ProcessesOk, StoreOk, Learns, CreateStep;
    match a
    case Lookup => LookupLearns(s, tid, c);
    case Receive => ReceiveLearns(s, tid, c);
    case Search => SearchLearns(s, tid, c);
    case _ =>
  }

  lemma {:induction false} CheckLearns(s: State, tid: nat, c: Creating, a: CreateAction)
    requires CreateOk(s, c) && !(a.Lookup? || a.Receive? || a.Search?) && !(a.Commit? && c.FenceKnown?)
    ensures Learns(s, tid, CreateStep(s, tid, c, a))
  {
  }

  lemma {:induction false} KeepCreate(s: State, tid: nat, a: CreateAction)
    requires Inv(s) && tid in s.creating
    ensures Inv(CreateStep(s, tid, s.creating[tid], a))
  {
    var c := s.creating[tid];
    assert CreateOk(s, c);
    hide Inv, CreateOk;
    if a.Commit? && c.FenceKnown? {
      KeepCommit(s, tid, c.request, c.revision, c.stored, a.room);
    } else {
      if a.Lookup? || a.Receive? || a.Search? {
        ReplayLearns(s, tid, c, a);
      } else {
        CheckLearns(s, tid, c, a);
      }
      var t := CreateStep(s, tid, c, a);
      if t != s {
        KeepCreating(s, tid, t.creating[tid]);
      }
    }
  }

  // ---------- Peers ----------

  /** What may happen to processes once they are admitted. */
  ghost predicate Evolves(heap: seq<Process>, later: seq<Process>) {
    |later| == |heap| && forall i :: 0 <= i < |heap| ==>
      && later[i].request == heap[i].request
      && (heap[i].admission != Pending ==> later[i].admission == heap[i].admission)
      && (Halting(heap[i]) ==> Halting(later[i])) && (heap[i].cleaned ==> later[i].cleaned)
      && (later[i].exited ==> later[i].admission != Pending) && (later[i].cleaned ==> later[i].exited)
  }

  lemma {:induction false} EvolvesCreating(s: State, later: seq<Process>, c: Creating)
    requires CreateOk(s, c) && Evolves(s.heap, later)
    ensures CreateOk(s.(heap := later), c)
  {
  }

  lemma {:induction false} HeapEvolved(s: State, later: seq<Process>)
    requires HeapOk(s.heap) && Evolves(s.heap, later)
    ensures HeapOk(later)
  {
  }

  lemma {:induction false} RecordsEvolved(s: State, later: seq<Process>)
    requires HeapOk(s.heap) && ProcessesOk(s.heap, s.processes) && StoreOk(s.heap, s.store, s.runs) && Remembered(s.heap, s.processes, s.store)
    requires ReclaimOk(s.heap, s.processes, s.store, s.runFences, s.fences, s.reclaiming) && Evolves(s.heap, later)
    ensures ProcessesOk(later, s.processes) && StoreOk(later, s.store, s.runs) && Remembered(later, s.processes, s.store)
    ensures ReclaimOk(later, s.processes, s.store, s.runFences, s.fences, s.reclaiming)
  {
    hide Pinned;
  }

  lemma {:induction false} HaltEvolved(s: State, later: seq<Process>)
    requires HaltOk(s) && StopAllOk(s) && Evolves(s.heap, later)
    ensures HaltOk(s.(heap := later)) && StopAllOk(s.(heap := later))
  {
    var t := s.(heap := later);
    assert forall run :: Fence(t, run) == Fence(s, run);
    hide Fence;
  }

  lemma {:induction false} KeepEvolved(s: State, later: seq<Process>)
    requires Inv(s) && Evolves(s.heap, later)
    ensures Inv(s.(heap := later))
  {
    hide HeapOk, ProcessesOk, StoreOk, Remembered, ReclaimOk, StopAllOk, HaltOk, Evolves;
    HeapEvolved(s, later);
    RecordsEvolved(s, later);
    HaltEvolved(s, later);
    forall tid | tid in s.creating
      ensures CreateOk(s.(heap := later), s.creating[tid])
    {
      assert CreateOk(s, s.creating[tid]);
      EvolvesCreating(s, later, s.creating[tid]);
    }
    hide CreateOk;
  }

  lemma {:induction false} PeerEvolves(s: State, serial: nat, a: PeerAction)
    requires HeapOk(s.heap) && serial < |s.heap|
    ensures PeerStep(s, serial, a) == s.(heap := PeerStep(s, serial, a).heap) && Evolves(s.heap, PeerStep(s, serial, a).heap)
  {
    var p, q := s.heap[serial], PeerStep(s, serial, a).heap[serial];
    assert PeerStep(s, serial, a).heap == s.heap[serial := q];
    OneEvolves(s.heap, serial, q);
  }

  lemma {:induction false} OneEvolves(heap: seq<Process>, serial: nat, q: Process)
    requires HeapOk(heap) && serial < |heap| && q.request == heap[serial].request
    requires heap[serial].admission != Pending ==> q.admission == heap[serial].admission
    requires (Halting(heap[serial]) ==> Halting(q)) && (heap[serial].cleaned ==> q.cleaned)
    requires (q.exited ==> q.admission != Pending) && (q.cleaned ==> q.exited)
    ensures Evolves(heap, heap[serial := q])
  {
  }

  lemma {:induction false} KeepPeer(s: State, serial: nat, a: PeerAction)
    requires Inv(s) && serial < |s.heap|
    ensures Inv(PeerStep(s, serial, a))
  {
    PeerEvolves(s, serial, a);
    hide Inv;
    KeepEvolved(s, PeerStep(s, serial, a).heap);
  }

  // ---------- Fences ----------

  /** A new revision invalidates everything the creates have read. */
  lemma {:induction false} CreatingAfterBump(s: State, t: State)
    requires CreatingOk(s) && t.creating == s.creating && t.heap == s.heap && t.fences == s.fences && s.revision < t.revision
    ensures CreatingOk(t)
  {
    forall tid | tid in s.creating
      ensures CreateOk(t, s.creating[tid])
    {
      assert CreateOk(s, s.creating[tid]);
    }
  }

  ghost predicate Raised(low: map<RunId, Generation>, high: map<RunId, Generation>) {
    forall run :: run in low ==> run in high && low[run] <= high[run]
  }

  lemma {:induction false} CreatingAfterRaise(s: State, t: State)
    requires CreatingOk(s) && t == s.(runFences := t.runFences, revision := t.revision, stopAll := t.stopAll)
    requires Raised(s.runFences, t.runFences) && s.revision <= t.revision && (Closed(s) ==> Closed(t))
    ensures CreatingOk(t)
  {
    forall tid | tid in s.creating
      ensures CreateOk(t, s.creating[tid])
    {
      assert CreateOk(s, s.creating[tid]);
    }
  }

  lemma {:induction false} ReclaimAfterRaise(s: State, later: map<RunId, Generation>)
    requires ReclaimOk(s.heap, s.processes, s.store, s.runFences, s.fences, s.reclaiming) && Raised(s.runFences, later)
    ensures ReclaimOk(s.heap, s.processes, s.store, later, s.fences, s.reclaiming)
  {
    hide BatchOk;
  }

  lemma {:induction false} RaiseRaises(m: map<RunId, Generation>, run: RunId, gen: Generation)
    ensures Raised(m, Raise(m, run, gen)) && run in Raise(m, run, gen) && Raise(m, run, gen)[run] >= gen
  {
  }

  lemma {:induction false} HeldOnlyInStore(s: State, i: nat)
    requires Inv(s) && i < |s.heap|
    ensures var id := s.heap[i].request.id;
      && (id in s.processes ==> s.processes[id] == i)
      && (id !in s.processes ==> s.heap[i].exited && s.heap[i].request.run in s.runs)
  {
    hide ReclaimOk, CreatingOk, StopAllOk, HaltOk;
  }

  lemma {:induction false} StopEvolves(s: State, run: RunId, fence: Generation)
    requires HeapOk(s.heap)
    ensures Evolves(s.heap, StopHeap(s.heap, s.processes, run, fence))
  {
  }

  /** After the fence rises, exactly the peers it newly covers have been told to stop. */
  lemma {:induction false} HaltAfterStop(s: State, run: RunId, gen: Generation)
    requires Inv(s)
    ensures HaltOk(StopRunStep(s, run, gen))
  {
    var t := StopRunStep(s, run, gen);
    forall i | 0 <= i < |t.heap| && t.heap[i].request.gen <= Fence(t, t.heap[i].request.run) && !s.stopAll.Fenced? && !s.stopAll.Ending?
      ensures Halting(t.heap[i])
    {
      HeldOnlyInStore(s, i);
      assert t.heap[i].request == s.heap[i].request;
    }
  }

  lemma {:induction false} StopAllAfterRaise(s: State, later: map<RunId, Generation>, revision: nat)
    requires StopAllOk(s) && Raised(s.runFences, later)
    ensures StopAllOk(s.(runFences := later, revision := revision))
  {
  }

  lemma {:induction false} KeepStopRun(s: State, run: RunId, gen: Generation)
    requires Inv(s)
    ensures Inv(StopRunStep(s, run, gen))
  {
    var t := StopRunStep(s, run, gen);
    HaltAfterStop(s, run, gen);
    RaiseRaises(s.runFences, run, gen);
    StopEvolves(s, run, t.runFences[run]);
    KeepEvolved(s, t.heap);
    var u := s.(heap := t.heap);
    hide HaltOk, HeapOk, Evolves, StopHeap, Raise, Raised;
    CreatingAfterRaise(u, t);
    ReclaimAfterRaise(u, t.runFences);
    StopAllAfterRaise(u, t.runFences, t.revision);
  }

  // ---------- Retirement ----------

  /** Stop-all does not depend on where records are kept. */
  lemma {:induction false} StopAllSame(s: State, t: State)
    requires t.heap == s.heap && t.stopAll == s.stopAll && s.runs <= t.runs
    requires forall run :: Fence(t, run) == Fence(s, run)
    requires StopAllOk(s) && HaltOk(s)
    ensures StopAllOk(t) && HaltOk(t)
  {
    hide Fence;
  }

  lemma {:induction false} CreatingSame(s: State, t: State)
    requires CreatingOk(s) && t == s.(reclaiming := t.reclaiming, runs := t.runs)
    ensures CreatingOk(t)
  {
    forall tid | tid in s.creating
      ensures CreateOk(t, s.creating[tid])
    {
      assert CreateOk(s, s.creating[tid]);
    }
  }

  lemma {:induction false} SelectedOk(s: State, ids: set<Id>)
    requires Inv(s)
    ensures BatchOk(s.heap, s.processes, map id | id in ids && Retirable(s, id) :: RecordOf(s, id))
  {
    hide StoreOk, ReclaimOk, CreatingOk, StopAllOk, HaltOk;
  }

  lemma {:induction false} KeepSelect(s: State, ids: set<Id>)
    requires Inv(s)
    ensures Inv(ReclaimStep(s, Select(ids)))
  {
    SelectedOk(s, ids);
    hide HaltOk, StopAllOk, StoreOk, Remembered, HeapOk, ProcessesOk, CreatingOk, BatchOk, RecordOf, Retirable;
    var t := ReclaimStep(s, Select(ids));
    CreatingSame(s, t);
    StopAllSame(s, t);
  }

  lemma {:induction false} KeepIndexRun(s: State, run: RunId)
    requires Inv(s)
    ensures Inv(ReclaimStep(s, IndexRun(run)))
  {
    hide HaltOk, StopAllOk, Remembered, HeapOk, ProcessesOk, CreatingOk, Describes;
    var t := ReclaimStep(s, IndexRun(run));
    CreatingSame(s, t);
    StopAllSame(s, t);
  }

  /** Writing the batch leaves everything a create has read intact: the batch is
      still in memory. */
  lemma {:induction false} CreatingAfterSave(s: State, batch: map<Id, Record>, r: Reclaiming)
    requires CreatingOk(s) && forall id :: id in batch ==> id in s.processes
    ensures CreatingOk(s.(store := s.store + batch, reclaiming := r))
  {
    var t := s.(store := s.store + batch, reclaiming := r);
    forall tid | tid in s.creating
      ensures CreateOk(t, s.creating[tid])
    {
      assert CreateOk(s, s.creating[tid]);
    }
  }

  lemma {:induction false} KeepSaveNodes(s: State)
    requires Inv(s)
    ensures Inv(ReclaimStep(s, SaveNodes))
  {
    hide HaltOk, StopAllOk, HeapOk, ProcessesOk, CreatingOk, Describes;
    var t := ReclaimStep(s, SaveNodes);
    if t != s {
      CreatingAfterSave(s, s.reclaiming.batch, t.reclaiming);
      StopAllSame(s, t);
    }
  }

  lemma {:induction false} KeepPrune(s: State)
    requires Inv(s)
    ensures Inv(ReclaimStep(s, Prune))
  {
    hide HaltOk, StopAllOk, HeapOk, CreatingOk, Describes, Retirable;
    var t := ReclaimStep(s, Prune);
    if s.reclaiming.Written? {
      var gone := Prunable(s, s.reclaiming.batch);
      assert forall id :: id in gone ==> id in s.store;
      if gone == {} {
        assert t.processes == s.processes;
        CreatingSame(s, t);
      } else {
        CreatingAfterBump(s, t);
      }
      StopAllSame(s, t);
    }
  }

  lemma {:induction false} SaveFenceFacts(s: State, run: RunId)
    requires Inv(s) && s.reclaiming.Pruned? && run in s.reclaiming.fences
    ensures var t := ReclaimStep(s, SaveFence(run)); (forall r :: Fence(t, r) == Fence(s, r)) && CreatingOk(t)
    ensures var t := ReclaimStep(s, SaveFence(run));
            ReclaimOk(t.heap, t.processes, t.store, t.runFences, t.fences, t.reclaiming)
  {
    hide HaltOk, StopAllOk, HeapOk, Describes, StoreOk, Remembered, ProcessesOk;
    var t := ReclaimStep(s, SaveFence(run));
    assert run in s.runFences && s.runFences[run] >= s.reclaiming.fences[run];
    forall tid | tid in s.creating
      ensures CreateOk(t, s.creating[tid])
    {
      assert CreateOk(s, s.creating[tid]);
    }
  }

  lemma {:induction false} KeepSaveFence(s: State, run: RunId)
    requires Inv(s)
    ensures Inv(ReclaimStep(s, SaveFence(run)))
  {
    hide HaltOk, StopAllOk, HeapOk, CreatingOk, StoreOk, Remembered, ProcessesOk, Fence, ReclaimOk;
    if s.reclaiming.Pruned? && run in s.reclaiming.fences {
      SaveFenceFacts(s, run);
      StopAllSame(s, ReclaimStep(s, SaveFence(run)));
    }
  }

  /** A fence leaves memory only when the disk holds one at least as high. */
  lemma {:induction false} EvictFacts(s: State)
    requires Inv(s) && s.reclaiming.Saved?
    ensures var t := ReclaimStep(s, EvictFence); forall r :: Fence(t, r) == Fence(s, r)
    ensures var t := ReclaimStep(s, EvictFence);
            ReclaimOk(t.heap, t.processes, t.store, t.runFences, t.fences, t.reclaiming)
  {
    hide HaltOk, StopAllOk, HeapOk, Describes, StoreOk, Remembered, ProcessesOk, CreatingOk;
  }

  lemma {:induction false} KeepEvict(s: State)
    requires Inv(s)
    ensures Inv(ReclaimStep(s, EvictFence))
  {
    hide HaltOk, StopAllOk, HeapOk, CreatingOk, StoreOk, Remembered, ProcessesOk, Fence, ReclaimOk;
    if s.reclaiming.Saved? {
      var t := ReclaimStep(s, EvictFence);
      EvictFacts(s);
      StopAllSame(s, t);
      if t.revision == s.revision {
        CreatingSame(s, t);
      } else {
        CreatingAfterBump(s, t);
      }
    }
  }

  lemma {:induction false} KeepReclaim(s: State, a: ReclaimAction)
    requires Inv(s)
    ensures Inv(ReclaimStep(s, a))
  {
    match a
    case Select(ids) => KeepSelect(s, ids);
    case IndexRun(run) => KeepIndexRun(s, run);
    case SaveNodes => KeepSaveNodes(s);
    case Prune => KeepPrune(s);
    case SaveFence(run) => KeepSaveFence(s, run);
    case EvictFence => KeepEvict(s);
    case Rest =>
      hide HaltOk, StopAllOk, HeapOk, CreatingOk, StoreOk, Remembered, ProcessesOk;
      CreatingSame(s, ReclaimStep(s, a));
      StopAllSame(s, ReclaimStep(s, a));
  }

  // ---------- Stop-all ----------

  /** A stage of stop-all that moves no fence and no record. */
  lemma {:induction false} KeepStage(s: State, stage: StopAll, revision: nat)
    requires Inv(s) && ((s.revision == revision && !stage.Quiet? && Closed(s)) || s.revision < revision)
    requires var t := s.(stopAll := stage, revision := revision); StopAllOk(t) && HaltOk(t)
    requires stage.Listing? ==> s.reclaiming.Resting?
    ensures Inv(s.(stopAll := stage, revision := revision))
  {
    var t := s.(stopAll := stage, revision := revision);
    hide HaltOk, StopAllOk, HeapOk, StoreOk, Remembered, ProcessesOk, ReclaimOk;
    forall tid | tid in s.creating
      ensures CreateOk(t, s.creating[tid])
    {
      assert CreateOk(s, s.creating[tid]);
    }
  }

  lemma {:induction false} RaiseAllRaises(m: map<RunId, Generation>, runs: set<RunId>)
    ensures Raised(m, RaiseAll(m, runs))
    ensures forall run :: run in runs ==> run in RaiseAll(m, runs) && RaiseAll(m, runs)[run] == MAX_GENERATION
  {
  }

  lemma {:induction false} FencedAll(s: State)
    requires Inv(s) && s.stopAll.Closing?
    ensures ClosedRuns(StopAllStep(s, FenceAll), s.runs)
  {
    var t := StopAllStep(s, FenceAll);
    forall i | 0 <= i < |s.heap|
      ensures Fence(t, s.heap[i].request.run) == MAX_GENERATION || s.heap[i].request.run in s.runs
    {
      HeldOnlyInStore(s, i);
      if s.heap[i].request.id in s.processes {
        assert s.heap[i].request.run in PeerRuns(s);
      }
    }
  }

  lemma {:induction false} KeepFenceAll(s: State)
    requires Inv(s)
    ensures Inv(StopAllStep(s, FenceAll))
  {
    if s.stopAll.Closing? {
      var t := StopAllStep(s, FenceAll);
      FencedAll(s);
      RaiseAllRaises(s.runFences, PeerRuns(s));
      hide HeapOk, StoreOk, Remembered, ProcessesOk, CreatingOk, Raised, PeerRuns, RaiseAll, ClosedRuns, ReclaimOk;
      CreatingAfterRaise(s, t);
      ReclaimAfterRaise(s, t.runFences);
    }
  }

  lemma {:induction false} KeepListPeers(s: State)
    requires Inv(s)
    ensures Inv(StopAllStep(s, ListPeers))
  {
    if s.stopAll.Fenced? {
      forall i | 0 <= i < |s.heap|
        ensures Halting(s.heap[i]) || i in Peers(s)
      {
        HeldOnlyInStore(s, i);
        if s.heap[i].request.id in s.processes && !(s.heap[i].exited && s.heap[i].cleaned) {
          assert s.processes[s.heap[i].request.id] in Peers(s);
        }
      }
      hide Inv;
      assert StopAllOk(s) by { StopAllPart(s); }
      KeepStage(s, Ending(Peers(s)), s.revision);
    }
  }

  lemma {:induction false} StopAllPart(s: State)
    requires Inv(s)
    ensures StopAllOk(s) && HaltOk(s) && (s.stopAll.Listing? ==> s.reclaiming.Resting?)
  {
  }

  lemma {:induction false} KeepEndPeer(s: State, serial: nat)
    requires Inv(s)
    ensures Inv(StopAllStep(s, EndPeer(serial)))
  {
    if s.stopAll.Ending? && serial in s.stopAll.peers && serial < |s.heap| {
      PeerEvolves(s, serial, Stop);
      KeepPeer(s, serial, Stop);
      var u := PeerStep(s, serial, Stop);
      StopAllPart(u);
      StopAllPart(s);
      hide Inv;
      KeepStage(u, Ending(s.stopAll.peers - {serial}), s.revision);
    }
  }

  lemma {:induction false} FenceRunFacts(s: State, run: RunId)
    requires Inv(s) && s.stopAll.Listing? && run in s.stopAll.todo
    ensures var t := StopAllStep(s, FenceRun(run)); StopAllOk(t) && HaltOk(t) && CreatingOk(t)
  {
    var t := StopAllStep(s, FenceRun(run));
    hide HeapOk, StoreOk, Remembered, ProcessesOk, ReclaimOk;
    assert forall r :: Fence(t, r) == if r == run then MAX_GENERATION else Fence(s, r);
    forall tid | tid in s.creating
      ensures CreateOk(t, s.creating[tid])
    {
      assert CreateOk(s, s.creating[tid]);
    }
  }

  lemma {:induction false} KeepFenceRun(s: State, run: RunId)
    requires Inv(s)
    ensures Inv(StopAllStep(s, FenceRun(run)))
  {
    if s.stopAll.Listing? && run in s.stopAll.todo {
      FenceRunFacts(s, run);
      hide HeapOk, StoreOk, Remembered, ProcessesOk, CreatingOk, StopAllOk, HaltOk;
    }
  }

  lemma {:induction false} KeepListRuns(s: State)
    requires Inv(s)
    ensures Inv(StopAllStep(s, ListRuns))
  {
    StopAllPart(s);
    hide Inv, ClosedRuns;
    if s.stopAll.Stopped? && s.reclaiming.Resting? {
      SameRuns(s, Listing(s.runs), s.revision, s.runs);
      KeepStage(s, Listing(s.runs), s.revision);
    }
  }

  lemma {:induction false} KeepClose(s: State)
    requires Inv(s)
    ensures Inv(StopAllStep(s, Close))
  {
    StopAllPart(s);
    hide Inv, ClosedRuns;
    if s.stopAll.Quiet? {
      KeepStage(s, Closing, s.revision + 1);
    }
  }

  lemma {:induction false} KeepPeersEnded(s: State)
    requires Inv(s)
    ensures Inv(StopAllStep(s, PeersEnded))
  {
    StopAllPart(s);
    hide Inv, ClosedRuns;
    if s.stopAll == Ending({}) {
      SameRuns(s, Stopped, s.revision, s.runs);
      KeepStage(s, Stopped, s.revision);
    }
  }

  lemma {:induction false} KeepReopen(s: State)
    requires Inv(s)
    ensures Inv(StopAllStep(s, Reopen))
  {
    StopAllPart(s);
    hide Inv, ClosedRuns;
    if s.stopAll.Stopped? || s.stopAll.Listing? {
      KeepStage(s, Quiet, s.revision + 1);
    }
  }

  lemma {:induction false} KeepStopAll(s: State, a: StopAllAction)
    requires Inv(s)
    ensures Inv(StopAllStep(s, a))
  {
    hide Inv, StopAllStep;
    match a
    case Close => KeepClose(s);
    case FenceAll => KeepFenceAll(s);
    case ListPeers => KeepListPeers(s);
    case EndPeer(serial) => KeepEndPeer(s, serial);
    case PeersEnded => KeepPeersEnded(s);
    case ListRuns => KeepListRuns(s);
    case FenceRun(run) => KeepFenceRun(s, run);
    case Reopen => KeepReopen(s);
  }

  lemma {:induction false} SameRuns(s: State, stage: StopAll, revision: nat, runs: set<RunId>)
    requires ClosedRuns(s, runs)
    ensures ClosedRuns(s.(stopAll := stage, revision := revision), runs)
  {
    assert forall run :: Fence(s.(stopAll := stage, revision := revision), run) == Fence(s, run);
  }

  // ---------- Every run ----------

  lemma {:induction false} UnacknowledgedEvolves(heap: seq<Process>)
    requires HeapOk(heap)
    ensures Evolves(heap, Unacknowledged(heap))
  {
  }

  lemma {:induction false} KeepStep(s: State, a: Action)
    requires Inv(s)
    ensures Inv(Step(s, a))
  {
    match a
    case Begin(tid, q) => if tid !in s.creating { KeepCreating(s, tid, if q.hash.Some? then Looking(q, false) else Ready(q)); }
    case OfCreate(tid, create) => if tid in s.creating { KeepCreate(s, tid, create); }
    case OfPeer(serial, peer) => if serial < |s.heap| { KeepPeer(s, serial, peer); }
    case OfReclaim(reclaim) => KeepReclaim(s, reclaim);
    case OfStopAll(stopAll) => KeepStopAll(s, stopAll);
    case Register =>
      UnacknowledgedEvolves(s.heap);
      KeepEvolved(s, Unacknowledged(s.heap));
    case StopRun(run, gen) => KeepStopRun(s, run, gen);
  }

  lemma {:induction false} KeepRun(s: State, actions: seq<Action>)
    requires Inv(s)
    ensures Inv(Run(s, actions))
    decreases |actions|
  {
    hide Inv, Step;
    if actions != [] {
      KeepStep(s, actions[0]);
      KeepRun(Step(s, actions[0]), actions[1..]);
    }
  }

  /** Processes already admitted keep their identity; what has ended or was told to stop never
      runs again, even while the removal of its container is retried; and what is gone stays gone. */
  ghost predicate Continues(heap: seq<Process>, later: seq<Process>) {
    |heap| <= |later| && forall i :: 0 <= i < |heap| ==>
      later[i].request == heap[i].request && (Halting(heap[i]) ==> Halting(later[i])) && (heap[i].cleaned ==> later[i].cleaned)
  }

  /** What one step may do to the effective fence of a run and to the admissions. */
  ghost predicate Guarded(s: State, t: State, run: RunId) {
    && Fence(t, run) >= Fence(s, run) && Continues(s.heap, t.heap)
    && forall i :: |s.heap| <= i < |t.heap| && t.heap[i].request.run == run ==> t.heap[i].request.gen > Fence(s, run)
  }

  lemma {:induction false} SameFences(s: State, t: State, run: RunId)
    requires t.runFences == s.runFences && t.fences == s.fences
    ensures Fence(t, run) == Fence(s, run)
    ensures t.heap == s.heap ==> Guarded(s, t, run)
  {
  }

  lemma {:induction false} StopRunGuarded(s: State, stopped: RunId, gen: Generation, run: RunId)
    ensures Guarded(s, StopRunStep(s, stopped, gen), run)
  {
  }

  lemma {:induction false} RegisterGuarded(s: State, run: RunId)
    ensures Guarded(s, s.(heap := Unacknowledged(s.heap)), run)
  {
  }

  lemma {:induction false} PeerGuarded(s: State, serial: nat, a: PeerAction, run: RunId)
    requires serial < |s.heap|
    ensures Guarded(s, PeerStep(s, serial, a), run)
  {
  }

  lemma {:induction false} GrownGuarded(s: State, tid: nat, q: Request, run: RunId)
    requires q.gen > Fence(s, q.run)
    ensures Guarded(s, Create(Grown(s, q), tid, Created(q, |s.heap|)), run)
  {
    SameFences(s, Create(Grown(s, q), tid, Created(q, |s.heap|)), run);
    hide Fence;
  }

  /** A commit either admits, with all checks passed, or moves nothing. */
  lemma {:induction false} CommitOutcome(s: State, tid: nat, q: Request, revision: nat, stored: Option<Generation>, room: bool)
    ensures var t := CommitStep(s, tid, q, revision, stored, room);
      || (t.heap == s.heap && t.runFences == s.runFences && t.fences == s.fences)
      || (t == Create(Grown(s, q), tid, Created(q, |s.heap|)) && revision == s.revision && !Closed(s)
          && q.gen > Max(Level(stored), Level(Get(s.runFences, q.run))) && q.id !in s.processes)
  {
    hide Level, Get, Max;
  }

  lemma {:induction false} CommitGuarded(s: State, tid: nat, room: bool, run: RunId)
    requires Inv(s) && tid in s.creating && s.creating[tid].FenceKnown?
    ensures Guarded(s, CreateStep(s, tid, s.creating[tid], Commit(room)), run)
  {
    var c := s.creating[tid];
    hide Inv, CreateOk, Guarded, Fence, Level, Get, Max, CommitStep, Grown, LookupStep, ReceiveStep, SearchStep;
    var t := CommitStep(s, tid, c.request, c.revision, c.stored, room);
    CommitOutcome(s, tid, c.request, c.revision, c.stored, room);
    if t.heap == s.heap && t.runFences == s.runFences && t.fences == s.fences {
      SameFences(s, t, run);
    } else {
      CommitIsSound(s, c.request, c.revision, c.stored);
      GrownGuarded(s, tid, c.request, run);
    }
  }

  lemma {:induction false} OnlyCommitAdmits(s: State, tid: nat, c: Creating, a: CreateAction)
    requires !(a.Commit? && c.FenceKnown?)
    ensures var t := CreateStep(s, tid, c, a); t.heap == s.heap && t.runFences == s.runFences && t.fences == s.fences
  {
  }

  lemma {:induction false} CreateGuarded(s: State, tid: nat, a: CreateAction, run: RunId)
    requires Inv(s) && tid in s.creating
    ensures Guarded(s, CreateStep(s, tid, s.creating[tid], a), run)
  {
    if a.Commit? && s.creating[tid].FenceKnown? {
      CommitGuarded(s, tid, a.room, run);
    } else {
      hide Inv, Guarded, CreateStep;
      OnlyCommitAdmits(s, tid, s.creating[tid], a);
      SameFences(s, CreateStep(s, tid, s.creating[tid], a), run);
    }
  }

  lemma {:induction false} OnlyFencesMove(s: State, a: ReclaimAction)
    ensures ReclaimStep(s, a).heap == s.heap
    ensures !(a.SaveFence? && s.reclaiming.Pruned? && a.run in s.reclaiming.fences) && !(a.EvictFence? && s.reclaiming.Saved?) ==>
      ReclaimStep(s, a).runFences == s.runFences && ReclaimStep(s, a).fences == s.fences
  {
  }

  lemma {:induction false} GuardedSame(s: State, t: State, run: RunId)
    requires t.heap == s.heap && Fence(t, run) >= Fence(s, run)
    ensures Guarded(s, t, run)
  {
    hide Fence;
  }

  lemma {:induction false} ReclaimGuarded(s: State, a: ReclaimAction, run: RunId)
    requires Inv(s)
    ensures Guarded(s, ReclaimStep(s, a), run)
  {
    hide Inv, Guarded, ReclaimStep, Fence;
    OnlyFencesMove(s, a);
    if a.SaveFence? && s.reclaiming.Pruned? && a.run in s.reclaiming.fences {
      SaveFenceFacts(s, a.run);
      GuardedSame(s, ReclaimStep(s, a), run);
    } else if a.EvictFence? && s.reclaiming.Saved? {
      EvictFacts(s);
      GuardedSame(s, ReclaimStep(s, a), run);
    } else {
      SameFences(s, ReclaimStep(s, a), run);
    }
  }

  lemma {:induction false} RaisedSame(m: map<RunId, Generation>)
    ensures Raised(m, m)
  {
  }

  lemma {:induction false} ContinuesSame(heap: seq<Process>)
    ensures Continues(heap, heap)
  {
  }

  lemma {:induction false} ContinuesOne(heap: seq<Process>, serial: nat)
    requires serial < |heap|
    ensures Continues(heap, heap[serial := Told(heap[serial])])
  {
  }

  /** Stop-all raises fences and tells peers to stop; it admits nothing. */
  lemma {:induction false} StopAllRaises(s: State, a: StopAllAction)
    ensures Raised(s.runFences, StopAllStep(s, a).runFences) && Raised(s.fences, StopAllStep(s, a).fences)
    ensures Continues(s.heap, StopAllStep(s, a).heap) && |StopAllStep(s, a).heap| == |s.heap|
  {
    hide PeerRuns, RaiseAll, Raise, Raised, Continues, Peers;
    RaiseAllRaises(s.runFences, PeerRuns(s));
    RaisedSame(s.runFences);
    RaisedSame(s.fences);
    ContinuesSame(s.heap);
    if a.FenceRun? {
      RaiseRaises(s.fences, a.run, MAX_GENERATION);
    }
    if a.EndPeer? && a.serial < |s.heap| {
      ContinuesOne(s.heap, a.serial);
    }
  }

  lemma {:induction false} StopAllGuarded(s: State, a: StopAllAction, run: RunId)
    ensures Guarded(s, StopAllStep(s, a), run)
  {
    StopAllRaises(s, a);
    hide StopAllStep;
  }

  lemma {:induction false} StepGuarded(s: State, a: Action, run: RunId)
    requires Inv(s)
    ensures Guarded(s, Step(s, a), run)
  {
    hide Inv, Guarded, CreateStep, PeerStep, ReclaimStep, StopAllStep, StopRunStep;
    SameFences(s, s, run);
    match a
    case Begin(_, _) => SameFences(s, Step(s, a), run);
    case OfCreate(tid, create) => if tid in s.creating { CreateGuarded(s, tid, create, run); }
    case OfPeer(serial, peer) => if serial < |s.heap| { PeerGuarded(s, serial, peer, run); }
    case OfReclaim(reclaim) => ReclaimGuarded(s, reclaim, run);
    case OfStopAll(stopAll) => StopAllGuarded(s, stopAll, run);
    case Register => RegisterGuarded(s, run);
    case StopRun(stopped, gen) => StopRunGuarded(s, stopped, gen, run);
  }

  lemma {:induction false} GuardedChain(s: State, t: State, u: State, run: RunId)
    requires Guarded(s, t, run) && Guarded(t, u, run)
    ensures Guarded(s, u, run)
  {
    hide Fence;
    forall i | |s.heap| <= i < |u.heap| && u.heap[i].request.run == run
      ensures u.heap[i].request.gen > Fence(s, run)
    {
      assert i < |t.heap| ==> u.heap[i].request == t.heap[i].request;
    }
  }

  /** Main result on fences: over every interleaving, the effective fence of a run never
      falls, and whatever was fenced is never admitted afterwards. */
  lemma {:induction false} FencesHold(s: State, actions: seq<Action>, run: RunId)
    requires Inv(s)
    ensures Guarded(s, Run(s, actions), run)
    decreases |actions|
  {
    hide Inv, Step;
    if actions == [] {
      assert Guarded(s, s, run);
    } else {
      hide Guarded;
      var t := Step(s, actions[0]);
      KeepStep(s, actions[0]);
      StepGuarded(s, actions[0], run);
      FencesHold(t, actions[1..], run);
      GuardedChain(s, t, Run(t, actions[1..]), run);
    }
  }

  /** An answer that reports success names the peer it is about. */
  function Success(c: Creating): Option<nat> {
    match c
    case Created(_, serial) => Some(serial)
    case Replayed(_, serial) => Some(serial)
    case _ => None
  }

  /** Main result on identities: in every reachable state an identity has been admitted at
      most once, and every success ever reported for it is about that one process and
      carries its content. */
  lemma {:induction false} AdmittedOnce(actions: seq<Action>)
    ensures var s := Run(Initial(), actions);
      && (forall i, j :: 0 <= i < j < |s.heap| ==> s.heap[i].request.id != s.heap[j].request.id)
      && forall tid :: tid in s.creating && Success(s.creating[tid]).Some? ==>
           var serial, q := Success(s.creating[tid]).value, s.creating[tid].request;
           serial < |s.heap| && s.heap[serial].request.id == q.id && s.heap[serial].request.hash == q.hash
  {
    InitialInv();
    KeepRun(Initial(), actions);
    var s := Run(Initial(), actions);
    hide Run;
    forall tid | tid in s.creating && Success(s.creating[tid]).Some?
      ensures var serial, q := Success(s.creating[tid]).value, s.creating[tid].request;
              serial < |s.heap| && s.heap[serial].request.id == q.id && s.heap[serial].request.hash == q.hash
    {
      assert CreateOk(s, s.creating[tid]);
    }
  }

  /** A stop either finds the create committed, and stops its peer, or keeps it out forever. */
  lemma {:induction false} StopIsFinal(s: State, run: RunId, gen: Generation, actions: seq<Action>)
    requires Inv(s)
    ensures var t := StopRunStep(s, run, gen);
            forall i :: 0 <= i < |Run(t, actions).heap| && Run(t, actions).heap[i].request.run == run && Run(t, actions).heap[i].request.gen <= gen ==>
              i < |t.heap| && Halting(t.heap[i])
  {
    var t := StopRunStep(s, run, gen);
    KeepStopRun(s, run, gen);
    FencesHold(t, actions, run);
    assert Fence(t, run) >= gen;
    var u := Run(t, actions);
    hide Run, CreatingOk, StopAllOk, ReclaimOk;
    forall i | 0 <= i < |u.heap| && u.heap[i].request.run == run && u.heap[i].request.gen <= gen
      ensures i < |t.heap| && Halting(t.heap[i])
    {
      assert i < |t.heap|;
      HeldOnlyInStore(s, i);
    }
  }

  /** When stop-all has gone through all retired runs, no run that was ever used here
      admits another peer. */
  lemma {:induction false} StopAllIsFinal(s: State, actions: seq<Action>, i: nat, j: nat)
    requires Inv(s) && s.stopAll == Listing({}) && i < |s.heap| <= j < |Run(s, actions).heap|
    ensures Run(s, actions).heap[j].request.run != s.heap[i].request.run
  {
    var run := s.heap[i].request.run;
    assert Fence(s, run) == MAX_GENERATION;
    FencesHold(s, actions, run);
  }

  // ---------- From the start ----------

  lemma {:induction false} Reachable(first: seq<Action>)
    ensures Inv(Run(Initial(), first))
  {
    InitialInv();
    KeepRun(Initial(), first);
  }

  /** Fences hold from every state that a run can reach. */
  lemma {:induction false} ReachableFences(first: seq<Action>, actions: seq<Action>, run: RunId)
    ensures var s := Run(Initial(), first); Guarded(s, Run(s, actions), run)
  {
    hide Inv, Run, Guarded;
    Reachable(first);
    FencesHold(Run(Initial(), first), actions, run);
  }

  /** A stop is final wherever a run has got to. */
  lemma {:induction false} ReachableStop(first: seq<Action>, run: RunId, gen: Generation, actions: seq<Action>)
    ensures var t := StopRunStep(Run(Initial(), first), run, gen);
            forall i :: 0 <= i < |Run(t, actions).heap| && Run(t, actions).heap[i].request.run == run && Run(t, actions).heap[i].request.gen <= gen ==>
              i < |t.heap| && Halting(t.heap[i])
  {
    hide Inv, Run, StopRunStep;
    Reachable(first);
    StopIsFinal(Run(Initial(), first), run, gen, actions);
  }

  /** So is a stop-all. */
  lemma {:induction false} ReachableStopAll(first: seq<Action>, actions: seq<Action>, i: nat, j: nat)
    requires var s := Run(Initial(), first); s.stopAll == Listing({}) && i < |s.heap| <= j < |Run(s, actions).heap|
    ensures var s := Run(Initial(), first); Run(s, actions).heap[j].request.run != s.heap[i].request.run
  {
    hide Inv, Run;
    Reachable(first);
    StopAllIsFinal(Run(Initial(), first), actions, i, j);
  }
}
