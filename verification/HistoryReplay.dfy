/** Terminal peer records and the Controller's knowledge of them. Acknowledged records
    retire to the store; a registration, after which the Controller may have forgotten
    everything, takes acknowledgements back and replays the store in pages. Retirement
    runs concurrently with registrations and heartbeats. */
module HistoryReplay {
  import opened Wrappers

  /** Store keys are digests of identities; an identity stands for its key here. */
  type Id = nat

  /** A peer in memory; its version changes with every status change. */
  datatype Entry = Entry(version: nat, cleaned: bool, acked: bool)

  datatype Reclaiming = Resting | Selected(batch: set<Id>) | Written(batch: set<Id>)

  /** Registered is the state after a completed registration; the two stages before it
      are the lock regions of registration itself. */
  datatype Registering = Unregistered | Posted | Cleared | Registered

  /** A heartbeat holds the same lock as a registration. */
  datatype Heartbeat =
    | Idle
    | Sending(todo: map<Id, Entry>)
    | Acking(batch: map<Id, Entry>, todo: map<Id, Entry>)
    | Replaying

  /** The page in flight and the cursor behind it. */
  datatype Replay = Replay(last: Option<Id>, pending: set<Id>, eof: bool)

  /** delivered: identities whose terminal record reached the Controller since it last
      confirmed a registration. */
  datatype State = State(memory: map<Id, Entry>, store: set<Id>, reclaiming: Reclaiming, registering: Registering,
                         heartbeat: Heartbeat, replay: Option<Replay>, delivered: set<Id>)

  /** A new Agent instance finds the records of earlier ones in the store. */
  function Initial(store: set<Id>): State {
    State(map[], store, Resting, Unregistered, Idle, None, {})
  }

  datatype Action =
    | Admit(id: Id)
    | Change(id: Id)
    | Clean(id: Id)
    | Select(ids: set<Id>)
    | SaveNodes
    | Prune
    | Rest
    | Register
    | ClearAcks
    | ResetReplay
    | Snapshot(ids: set<Id>)
    | Post(ids: set<Id>)
    | Ack
    | Abort
    | StartReplay
    | ReadPage(hi: Id)
    | SendPage(sent: set<Id>)
    | EndReplay

  predicate After(last: Option<Id>, id: Id) {
    last.None? || last.value < id
  }

  function Retirable(memory: map<Id, Entry>, ids: set<Id>): set<Id> {
    set id | id in ids && id in memory && memory[id].acked && memory[id].cleaned
  }

  function Terminal(batch: map<Id, Entry>): set<Id> {
    set id | id in batch && batch[id].cleaned
  }

  /** A response acknowledges what it answered: only records that have not changed since. */
  function Acknowledged(memory: map<Id, Entry>, batch: map<Id, Entry>): map<Id, Entry> {
    map id | id in memory ::
      if id in batch && batch[id].version == memory[id].version && memory[id].cleaned then memory[id].(acked := true) else memory[id]
  }

  function Forgotten(memory: map<Id, Entry>): map<Id, Entry> {
    map id | id in memory :: memory[id].(acked := false)
  }

  function MemoryStep(s: State, a: Action): State {
    match a
    case Admit(id) => if id in s.memory || id in s.store then s else s.(memory := s.memory[id := Entry(0, false, false)])
    case Change(id) =>
      if id in s.memory && !s.memory[id].cleaned
      then s.(memory := s.memory[id := Entry(s.memory[id].version + 1, false, s.memory[id].acked)]) else s
    case Clean(id) =>
      if id in s.memory && !s.memory[id].cleaned
      then s.(memory := s.memory[id := Entry(s.memory[id].version + 1, true, s.memory[id].acked)]) else s
    case _ => s
  }

  function ReclaimStep(s: State, a: Action): State {
    match (a, s.reclaiming)
    case (Select(ids), Resting) => s.(reclaiming := Selected(Retirable(s.memory, ids)))
    case (SaveNodes, Selected(batch)) => s.(store := s.store + batch, reclaiming := Written(batch))
    case (Prune, Written(batch)) => s.(memory := s.memory - Retirable(s.memory, batch), reclaiming := Resting)
    case (Rest, _) => s.(reclaiming := Resting)
    case _ => s
  }

  function RegisterStep(s: State, a: Action): State {
    if !s.heartbeat.Idle? then s
    else
      match (a, s.registering)
      case (Register, Unregistered) => s.(registering := Posted, delivered := {})
      case (Register, Registered) => s.(registering := Posted, delivered := {})
      case (ClearAcks, Posted) => s.(memory := Forgotten(s.memory), registering := Cleared)
      case (ResetReplay, Cleared) => s.(replay := Some(Replay(None, {}, false)), registering := Registered)
      case _ => s
  }

  /** The next page: every stored record behind the cursor up to `hi`. */
  function PageStep(s: State, r: Replay, hi: Id): State {
    var rest := set id | id in s.store && After(r.last, id);
    if r.pending != {} || r.eof then s
    else if rest == {} then s.(replay := Some(Replay(None, {}, true)))
    else if hi in rest then
      s.(replay := Some(Replay(Some(hi), set id | id in rest && id <= hi, forall id :: id in rest ==> id <= hi)))
    else s
  }

  function HeartbeatStep(s: State, a: Action): State {
    match (a, s.heartbeat)
    case (Snapshot(ids), Idle) =>
      if s.registering.Registered? || s.registering.Unregistered?
      then s.(heartbeat := Sending(map id | id in ids && id in s.memory :: s.memory[id])) else s
    case (Post(ids), Sending(todo)) =>
      var batch := map id | id in ids && id in todo :: todo[id];
      s.(delivered := s.delivered + Terminal(batch), heartbeat := Acking(batch, todo - ids))
    case (Ack, Acking(batch, todo)) => s.(memory := Acknowledged(s.memory, batch), heartbeat := Sending(todo))
    case (StartReplay, Sending(todo)) => if todo == map[] then s.(heartbeat := Replaying) else s
    case (ReadPage(hi), Replaying) => if s.replay.Some? then PageStep(s, s.replay.value, hi) else s
    case (SendPage(sent), Replaying) =>
      if s.replay.Some? then
        var r := s.replay.value;
        s.(delivered := s.delivered + (sent * r.pending), replay := Some(if r.pending <= sent then r.(pending := {}) else r))
      else s
    case (EndReplay, Replaying) =>
      if s.replay.Some? && s.replay.value.pending == {} && s.replay.value.eof
      then s.(replay := None, heartbeat := Idle) else s.(heartbeat := Idle)
    case (Abort, _) => s.(heartbeat := Idle)
    case _ => s
  }

  function Step(s: State, a: Action): State {
    match a
    case Admit(_) => MemoryStep(s, a)
    case Change(_) => MemoryStep(s, a)
    case Clean(_) => MemoryStep(s, a)
    case Select(_) => ReclaimStep(s, a)
    case SaveNodes => ReclaimStep(s, a)
    case Prune => ReclaimStep(s, a)
    case Rest => ReclaimStep(s, a)
    case Register => RegisterStep(s, a)
    case ClearAcks => RegisterStep(s, a)
    case ResetReplay => RegisterStep(s, a)
    case _ => HeartbeatStep(s, a)
  }

  function Run(s: State, actions: seq<Action>): State
    decreases |actions|
  {
    if actions == [] then s else Run(Step(s, actions[0]), actions[1..])
  }

  // ---------- Coverage ----------

  /** Everything the Controller should hear about: ended peers in memory, and the store. */
  predicate Ended(s: State, id: Id) {
    id in s.store || (id in s.memory && s.memory[id].cleaned)
  }

  /** The Controller has heard, or will: the record is unacknowledged in memory, in the
      page in flight, or behind the cursor of a running replay. */
  ghost predicate Covered(s: State, id: Id) {
    || id in s.delivered
    || (id in s.memory && !s.memory[id].acked)
    || (s.replay.Some? && (id in s.replay.value.pending
                           || (id in s.store && !s.replay.value.eof && After(s.replay.value.last, id))))
  }

  ghost predicate Coverage(s: State) {
    forall id :: Ended(s, id) ==> Covered(s, id)
  }

  /** What a heartbeat has copied is not newer than memory, and the same if as new. */
  ghost predicate Faithful(memory: map<Id, Entry>, store: set<Id>, copies: map<Id, Entry>) {
    forall id :: id in copies ==>
      if id in memory then
        && copies[id].version <= memory[id].version
        && (copies[id].version == memory[id].version ==> copies[id].cleaned == memory[id].cleaned)
      else id in store
  }

  ghost predicate HeartbeatOk(s: State) {
    match s.heartbeat
    case Sending(todo) => Faithful(s.memory, s.store, todo)
    case Acking(batch, todo) =>
      Faithful(s.memory, s.store, todo) && Faithful(s.memory, s.store, batch) && Terminal(batch) <= s.delivered
    case _ => true
  }

  ghost predicate ReclaimOk(s: State) {
    match s.reclaiming
    case Resting => true
    case Selected(batch) => forall id :: id in batch ==> id in s.memory && s.memory[id].cleaned
    case Written(batch) => batch <= s.store
  }

  ghost predicate RegisterOk(s: State) {
    match s.registering
    case Unregistered => true
    case Posted => s.heartbeat.Idle?
    case Cleared => s.heartbeat.Idle? && forall id :: id in s.memory ==> !s.memory[id].acked
    case Registered => Coverage(s) && forall id :: id in s.memory && s.memory[id].acked ==> id in s.delivered
  }

  /** Only ended peers are acknowledged. */
  ghost predicate AcksOk(memory: map<Id, Entry>) {
    forall id :: id in memory && memory[id].acked ==> memory[id].cleaned
  }

  ghost predicate Inv(s: State) {
    HeartbeatOk(s) && ReclaimOk(s) && RegisterOk(s) && AcksOk(s.memory)
  }

  lemma {:induction false} KeepMemory(s: State, a: Action)
    requires Inv(s) && (a.Admit? || a.Change? || a.Clean?)
    ensures Inv(MemoryStep(s, a))
  {
    var t := MemoryStep(s, a);
    assert forall id :: Covered(s, id) ==> Covered(t, id);
    assert HeartbeatOk(t);
    assert Coverage(s) ==> Coverage(t);
  }

  lemma {:induction false} KeepReclaim(s: State, a: Action)
    requires Inv(s)
    ensures Inv(ReclaimStep(s, a))
  {
    var t := ReclaimStep(s, a);
    assert forall id :: Ended(t, id) ==> Ended(s, id);
    assert forall id :: id in s.memory && id !in t.memory ==> s.memory[id].acked && id in t.store;
    assert HeartbeatOk(t);
    assert s.registering.Registered? ==> Coverage(t);
  }

  lemma {:induction false} KeepRegister(s: State, a: Action)
    requires Inv(s)
    ensures Inv(RegisterStep(s, a))
  {
    var t := RegisterStep(s, a);
    if a.ResetReplay? && s.registering.Cleared? {
      assert t.registering.Registered? ==> Coverage(t);
    }
  }

  lemma {:induction false} KeepPost(s: State, ids: set<Id>)
    requires Inv(s)
    ensures Inv(HeartbeatStep(s, Post(ids)))
  {
    var t := HeartbeatStep(s, Post(ids));
    assert forall id :: Ended(t, id) <==> Ended(s, id);
    assert forall id :: Covered(s, id) ==> Covered(t, id);
  }

  lemma {:induction false} KeepAck(s: State)
    requires Inv(s)
    ensures Inv(HeartbeatStep(s, Ack))
  {
    var t := HeartbeatStep(s, Ack);
    assert forall id :: Ended(t, id) <==> Ended(s, id);
    assert forall id :: id in t.memory && t.memory[id].acked && !s.memory[id].acked ==> id in t.delivered;
    assert s.registering.Registered? ==> Coverage(t);
  }

  lemma {:induction false} KeepPage(s: State, hi: Id)
    requires Inv(s)
    ensures Inv(HeartbeatStep(s, ReadPage(hi)))
  {
    var t := HeartbeatStep(s, ReadPage(hi));
    if s.heartbeat.Replaying? && s.replay.Some? {
      var r := s.replay.value;
      var rest := set id | id in s.store && After(r.last, id);
      assert forall id :: id in s.store && After(r.last, id) ==> id in rest;
      assert forall id :: Ended(t, id) <==> Ended(s, id);
      assert forall id :: Covered(s, id) ==> Covered(t, id);
    }
  }

  lemma {:induction false} KeepHeartbeat(s: State, a: Action)
    requires Inv(s)
    ensures Inv(HeartbeatStep(s, a))
  {
    match a
    case Post(ids) => KeepPost(s, ids);
    case Ack => KeepAck(s);
    case ReadPage(hi) => KeepPage(s, hi);
    case _ =>
      var t := HeartbeatStep(s, a);
      assert forall id :: Ended(t, id) <==> Ended(s, id);
      assert forall id :: Covered(s, id) ==> Covered(t, id);
  }

  lemma {:induction false} KeepRun(s: State, actions: seq<Action>)
    requires Inv(s)
    ensures Inv(Run(s, actions))
    decreases |actions|
  {
    if actions != [] {
      var a := actions[0];
      KeepRegister(s, a);
      KeepReclaim(s, a);
      KeepHeartbeat(s, a);
      if a.Admit? || a.Change? || a.Clean? {
        KeepMemory(s, a);
      }
      hide Inv, MemoryStep, ReclaimStep, RegisterStep, HeartbeatStep;
      KeepRun(Step(s, a), actions[1..]);
    }
  }

  /** Main result: whatever the interleaving, after a completed registration every ended
      peer has been reported since, or is still on its way to be reported. */
  lemma {:induction false} ReplayCovers(store: set<Id>, actions: seq<Action>, id: Id)
    ensures var s := Run(Initial(store), actions);
            s.registering.Registered? && Ended(s, id) ==> Covered(s, id)
  {
    assert Inv(Initial(store));
    KeepRun(Initial(store), actions);
    hide Run, Covered, Ended;
  }

  /** When the replay is over, only unacknowledged peers in memory are still to be reported. */
  lemma {:induction false} NothingForgotten(store: set<Id>, actions: seq<Action>, id: Id)
    ensures var s := Run(Initial(store), actions);
            s.registering.Registered? && s.replay.None? && Ended(s, id) && id !in s.memory ==> id in s.delivered
  {
    ReplayCovers(store, actions, id);
    hide Run;
  }
}
