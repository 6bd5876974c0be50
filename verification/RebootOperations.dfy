/** Host reboot operations on the Controller: one durable record per operation, one
    worker that asks each host at most once, and a Controller that may stop between
    any two steps. */
module RebootOperations {
  import opened Wrappers
  import opened AtomicFile

  datatype HostState = Queued | Checking | Requested | Unknown | Rejected | Rebooted

  /** live: queued or running; otherwise completed, failed or interrupted. */
  datatype Operation = Operation(hash: nat, live: bool, hosts: seq<HostState>)

  /** How far the worker is with one host. */
  datatype Progress = Waiting | Marked | Fenced | Dispatched | Done

  datatype Dispatch = Dispatch(op: nat, host: nat)

  /** files: what a read sees; durable: what survives a crash for certain. sent: every
      request put on the wire, in order. refused, granted: those the Agent answered with a
      rejection and with a confirmation that the reboot was ordered. proved: the hosts that
      have given proof of a new boot. */
  datatype State = State(files: map<nat, Operation>, durable: map<nat, Operation>, jobs: map<nat, Operation>,
                         workers: map<nat, seq<Progress>>, sent: seq<Dispatch>, refused: set<Dispatch>,
                         granted: set<Dispatch>, proved: set<Dispatch>)

  function Initial(): State {
    State(map[], map[], map[], map[], [], {}, {}, {})
  }

  datatype Action =
    | Submit(op: nat, hash: nat, hosts: nat, write: Write)
    | Load(op: nat)
    | Evict(op: nat)
    | Skip(op: nat, host: nat)
    | Refuse(op: nat, host: nat, write: Write)
    | Mark(op: nat, host: nat, write: Write)
    | Fence(op: nat, host: nat)
    | Send(op: nat, host: nat)
    | Answer(op: nat, host: nat, state: HostState, write: Write)
    | Finish(op: nat, write: Write)
    | Confirm(op: nat, host: nat, write: Write)
    | Crash(lost: set<nat>)

  function Persist(s: State, op: nat, o: Operation, write: Write): State {
    match write
    case Saved => s.(files := s.files[op := o], durable := s.durable[op := o])
    case Renamed => s.(files := s.files[op := o])
    case Failed => s
  }

  /** Change one host in the record and save the whole record. */
  function SetHost(s: State, op: nat, host: nat, state: HostState, write: Write): State
    requires op in s.jobs && host < |s.jobs[op].hosts|
  {
    var o := s.jobs[op].(hosts := s.jobs[op].hosts[host := state]);
    Persist(s.(jobs := s.jobs[op := o]), op, o, write)
  }

  function Advance(s: State, op: nat, host: nat, p: Progress): State
    requires op in s.workers && host < |s.workers[op]|
  {
    s.(workers := s.workers[op := s.workers[op][host := p]])
  }

  /** An interrupted operation: what was being asked is unknown, what was not is rejected. */
  function Settled(hosts: seq<HostState>): seq<HostState> {
    seq(|hosts|, i requires 0 <= i < |hosts| =>
      if hosts[i] == Queued then Rejected else if hosts[i] == Checking then Unknown else hosts[i])
  }

  function Loaded(o: Operation): Operation {
    if o.live then Operation(o.hash, false, Settled(o.hosts)) else o
  }

  function SubmitStep(s: State, op: nat, hash: nat, hosts: nat, write: Write): State {
    if op in s.jobs then s
    else if op in s.files then s.(jobs := s.jobs[op := Loaded(s.files[op])])
    else
      var o := Operation(hash, true, seq(hosts, i => Queued));
      var t := Persist(s, op, o, write);
      if write.Saved? then t.(jobs := t.jobs[op := o], workers := t.workers[op := seq(hosts, i => Waiting)]) else t
  }

  predicate At(s: State, op: nat, host: nat, p: Progress) {
    op in s.workers && op in s.jobs && host < |s.workers[op]| && host < |s.jobs[op].hosts| && s.workers[op][host] == p
  }

  predicate AllDone(s: State, op: nat) {
    op in s.workers && op in s.jobs && forall i :: 0 <= i < |s.workers[op]| ==> s.workers[op][i] == Done
  }

  function FinishStep(s: State, op: nat, write: Write): State
    requires op in s.jobs
  {
    var o := Operation(s.jobs[op].hash, false, Settled(s.jobs[op].hosts));
    Persist(s.(jobs := s.jobs[op := o], workers := s.workers - {op}), op, o, write)
  }

  function Step(s: State, a: Action): State {
    match a
    case Submit(op, hash, hosts, write) => SubmitStep(s, op, hash, hosts, write)
    case Load(op) => if op !in s.jobs && op in s.files then s.(jobs := s.jobs[op := Loaded(s.files[op])]) else s
    case Evict(op) => if op in s.jobs && !s.jobs[op].live && op !in s.workers then s.(jobs := s.jobs - {op}) else s
    case Skip(op, host) => if At(s, op, host, Waiting) then Advance(s, op, host, Done) else s
    case Refuse(op, host, write) =>
      if At(s, op, host, Waiting) || At(s, op, host, Marked) || At(s, op, host, Fenced)
      then Advance(SetHost(s, op, host, Rejected, write), op, host, Done) else s
    case Mark(op, host, write) =>
      if At(s, op, host, Waiting)
      then Advance(SetHost(s, op, host, Checking, write), op, host, if write.Saved? then Marked else Done) else s
    case Fence(op, host) => if At(s, op, host, Marked) then Advance(s, op, host, Fenced) else s
    case Send(op, host) =>
      if At(s, op, host, Fenced) then Advance(s.(sent := s.sent + [Dispatch(op, host)]), op, host, Dispatched) else s
    case Answer(op, host, state, write) =>
      if At(s, op, host, Dispatched) && state in {Requested, Unknown, Rejected} then
        Advance(SetHost(s, op, host, state, write), op, host, Done).(
          refused := if state == Rejected then s.refused + {Dispatch(op, host)} else s.refused,
          granted := if state == Requested then s.granted + {Dispatch(op, host)} else s.granted)
      else s
    case Finish(op, write) => if AllDone(s, op) then FinishStep(s, op, write) else s
    case Confirm(op, host, write) =>
      if AllDone(s, op) && host < |s.jobs[op].hosts| && s.jobs[op].hosts[host] in {Requested, Unknown}
      then SetHost(s, op, host, Rebooted, write).(proved := s.proved + {Dispatch(op, host)}) else s
    case Crash(lost) =>
      var left := map op | op in s.files.Keys + s.durable.Keys && (op in s.durable || op !in lost) ::
        if op in lost || op !in s.files then s.durable[op] else s.files[op];
      s.(files := left, durable := left, jobs := map[], workers := map[])
  }

  function Run(s: State, actions: seq<Action>): State
    decreases |actions|
  {
    if actions == [] then s else Run(Step(s, actions[0]), actions[1..])
  }

  // ---------- The invariant ----------

  function HostIn(m: map<nat, Operation>, op: nat, host: nat): Option<HostState> {
    if op in m && host < |m[op].hosts| then Some(m[op].hosts[host]) else None
  }

  function ProgressOf(s: State, op: nat, host: nat): Option<Progress> {
    if op in s.workers && host < |s.workers[op]| then Some(s.workers[op][host]) else None
  }

  /** A record admits that the host was asked, and calls it rejected only if its Agent said so. */
  predicate Admits(state: Option<HostState>, refused: bool) {
    state.Some? && state != Some(Queued) && (state == Some(Rejected) ==> refused)
  }

  ghost predicate Truthful(s: State, d: Dispatch) {
    d in s.sent ==>
      && Admits(HostIn(s.files, d.op, d.host), d in s.refused)
      && Admits(HostIn(s.durable, d.op, d.host), d in s.refused)
      && (d.op in s.jobs ==> Admits(HostIn(s.jobs, d.op, d.host), d in s.refused))
  }

  /** A record calls a host requested or rebooted only if it said so. */
  predicate Earned(state: Option<HostState>, d: Dispatch, granted: set<Dispatch>, proved: set<Dispatch>) {
    (state == Some(Requested) ==> d in granted) && (state == Some(Rebooted) ==> d in proved)
  }

  ghost predicate Honest(s: State, d: Dispatch) {
    && Earned(HostIn(s.files, d.op, d.host), d, s.granted, s.proved) && Earned(HostIn(s.durable, d.op, d.host), d, s.granted, s.proved)
    && Earned(HostIn(s.jobs, d.op, d.host), d, s.granted, s.proved)
  }

  /** The worker asked the host exactly if it got that far, and before it asks, every
      record that could be read after a crash says that it may have. */
  ghost predicate WorkerOk(s: State, d: Dispatch) {
    var p := ProgressOf(s, d.op, d.host);
    && (p in {Some(Waiting), Some(Marked), Some(Fenced)} ==> d !in s.sent)
    && (p in {Some(Marked), Some(Fenced), Some(Dispatched)} ==>
          && HostIn(s.files, d.op, d.host) == HostIn(s.durable, d.op, d.host) == HostIn(s.jobs, d.op, d.host) == Some(Checking))
  }

  ghost predicate KeysOk(s: State) {
    && s.durable.Keys <= s.files.Keys
    && forall op :: op in s.workers ==> op in s.jobs && op in s.durable
  }

  ghost predicate SentOnce(sent: seq<Dispatch>) {
    forall i, j :: 0 <= i < j < |sent| ==> sent[i] != sent[j]
  }

  ghost predicate Inv(s: State) {
    KeysOk(s) && SentOnce(s.sent) && forall d: Dispatch :: Truthful(s, d) && WorkerOk(s, d) && Honest(s, d)
  }

  // ---------- Steps ----------

  /** What a saved change of one host makes of any host in any of the records. */
  lemma {:induction false} SetHostAt(s: State, op: nat, host: nat, state: HostState, write: Write, d: Dispatch)
    requires op in s.jobs && host < |s.jobs[op].hosts|
    ensures var t := SetHost(s, op, host, state, write);
      var now := if d == Dispatch(op, host) then Some(state) else HostIn(s.jobs, d.op, d.host);
      && t.sent == s.sent && t.refused == s.refused && t.granted == s.granted && t.proved == s.proved && t.workers == s.workers && t.jobs.Keys == s.jobs.Keys
      && s.files.Keys <= t.files.Keys && s.durable.Keys <= t.durable.Keys
      && HostIn(t.jobs, d.op, d.host) == now
      && HostIn(t.files, d.op, d.host) == (if d.op == op && !write.Failed? then now else HostIn(s.files, d.op, d.host))
      && HostIn(t.durable, d.op, d.host) == (if d.op == op && write.Saved? then now else HostIn(s.durable, d.op, d.host))
  {
  }

  lemma {:induction false} SetHostKeeps(s: State, op: nat, host: nat, state: HostState, p: Progress, write: Write, d: Dispatch)
    requires Truthful(s, d) && WorkerOk(s, d) && Honest(s, d) && op in s.workers && host < |s.workers[op]| && op in s.jobs && host < |s.jobs[op].hosts|
    requires p == Done || (p == Marked && state == Checking && write.Saved? && Dispatch(op, host) !in s.sent)
    requires Dispatch(op, host) in s.sent ==> Admits(Some(state), Dispatch(op, host) in s.refused)
    requires Earned(Some(state), Dispatch(op, host), s.granted, s.proved)
    ensures var t := Advance(SetHost(s, op, host, state, write), op, host, p); Truthful(t, d) && WorkerOk(t, d) && Honest(t, d)
  {
    SetHostAt(s, op, host, state, write, d);
    hide SetHost, HostIn;
    var t := Advance(SetHost(s, op, host, state, write), op, host, p);
    assert ProgressOf(t, d.op, d.host) == if d == Dispatch(op, host) then Some(p) else ProgressOf(s, d.op, d.host);
  }

  /** Saving a record of operation op that is no less truthful than the one in memory. */
  lemma {:induction false} KeepSetHost(s: State, op: nat, host: nat, state: HostState, p: Progress, write: Write)
    requires Inv(s) && op in s.workers && host < |s.workers[op]| && op in s.jobs && host < |s.jobs[op].hosts|
    requires p == Done || (p == Marked && state == Checking && write.Saved? && Dispatch(op, host) !in s.sent)
    requires Dispatch(op, host) in s.sent ==> Admits(Some(state), Dispatch(op, host) in s.refused)
    requires Earned(Some(state), Dispatch(op, host), s.granted, s.proved)
    ensures Inv(Advance(SetHost(s, op, host, state, write), op, host, p))
  {
    var t := Advance(SetHost(s, op, host, state, write), op, host, p);
    hide Truthful, WorkerOk, Honest;
    forall d: Dispatch
      ensures Truthful(t, d) && WorkerOk(t, d) && Honest(t, d)
    {
      SetHostKeeps(s, op, host, state, p, write, d);
    }
  }

  lemma {:induction false} KeepAdvance(s: State, op: nat, host: nat, p: Progress)
    requires Inv(s) && op in s.workers && host < |s.workers[op]|
    requires var q := s.workers[op][host]; (q == Waiting && p == Done) || (q == Marked && p == Fenced)
    ensures Inv(Advance(s, op, host, p))
  {
    var t := Advance(s, op, host, p);
    forall d: Dispatch
      ensures Truthful(t, d) && WorkerOk(t, d) && Honest(t, d)
    {
      assert Truthful(s, d) && WorkerOk(s, d) && Honest(s, d);
    }
  }

  /** A host is asked only after the record says so durably, and only by a worker that
      has not asked it. */
  lemma {:induction false} KeepSend(s: State, op: nat, host: nat)
    requires Inv(s)
    ensures Inv(Step(s, Send(op, host)))
  {
    if At(s, op, host, Fenced) {
      var t := Step(s, Send(op, host));
      assert WorkerOk(s, Dispatch(op, host));
      forall d: Dispatch
        ensures Truthful(t, d) && WorkerOk(t, d) && Honest(t, d)
      {
        assert Truthful(s, d) && WorkerOk(s, d) && Honest(s, d);
      }
    }
  }

  lemma {:induction false} SettledAdmits(hosts: seq<HostState>, i: nat, refused: bool)
    requires i < |hosts| && Admits(Some(hosts[i]), refused)
    ensures Admits(Some(Settled(hosts)[i]), refused)
  {
  }

  lemma {:induction false} KeepLoad(s: State, op: nat)
    requires Inv(s) && op !in s.jobs && op in s.files
    ensures Inv(s.(jobs := s.jobs[op := Loaded(s.files[op])]))
  {
    var t := s.(jobs := s.jobs[op := Loaded(s.files[op])]);
    forall d: Dispatch
      ensures Truthful(t, d) && WorkerOk(t, d) && Honest(t, d)
    {
      assert Truthful(s, d) && WorkerOk(s, d) && Honest(s, d);
      if d in s.sent && d.op == op {
        SettledAdmits(s.files[op].hosts, d.host, d in s.refused);
      }
    }
  }

  /** A fresh operation: nothing can have been sent for it. */
  lemma {:induction false} KeepNew(s: State, op: nat, hash: nat, hosts: nat, write: Write)
    requires Inv(s) && op !in s.jobs && op !in s.files
    ensures Inv(SubmitStep(s, op, hash, hosts, write))
  {
    var t := SubmitStep(s, op, hash, hosts, write);
    forall d: Dispatch
      ensures Truthful(t, d) && WorkerOk(t, d) && Honest(t, d)
    {
      assert Truthful(s, d) && WorkerOk(s, d) && Honest(s, d);
    }
  }

  lemma {:induction false} KeepFinish(s: State, op: nat, write: Write)
    requires Inv(s) && AllDone(s, op)
    ensures Inv(FinishStep(s, op, write))
  {
    var t := FinishStep(s, op, write);
    forall d: Dispatch
      ensures Truthful(t, d) && WorkerOk(t, d) && Honest(t, d)
    {
      assert Truthful(s, d) && WorkerOk(s, d) && Honest(s, d);
      if d in s.sent && d.op == op {
        SettledAdmits(s.jobs[op].hosts, d.host, d in s.refused);
      }
    }
  }

  lemma {:induction false} KeepConfirm(s: State, op: nat, host: nat, write: Write)
    requires Inv(s)
    ensures Inv(Step(s, Confirm(op, host, write)))
  {
    var t := Step(s, Confirm(op, host, write));
    forall d: Dispatch
      ensures Truthful(t, d) && WorkerOk(t, d) && Honest(t, d)
    {
      assert Truthful(s, d) && WorkerOk(s, d) && Honest(s, d);
    }
  }

  lemma {:induction false} KeepCrash(s: State, lost: set<nat>)
    requires Inv(s)
    ensures Inv(Step(s, Crash(lost)))
  {
    var t := Step(s, Crash(lost));
    forall d: Dispatch
      ensures Truthful(t, d) && WorkerOk(t, d) && Honest(t, d)
    {
      assert Truthful(s, d) && Honest(s, d);
    }
  }

  lemma {:induction false} KeepAnswer(s: State, op: nat, host: nat, state: HostState, write: Write)
    requires Inv(s) && At(s, op, host, Dispatched) && state in {Requested, Unknown, Rejected}
    ensures Inv(Step(s, Answer(op, host, state, write)))
  {
    var refused := if state == Rejected then s.refused + {Dispatch(op, host)} else s.refused;
    var granted := if state == Requested then s.granted + {Dispatch(op, host)} else s.granted;
    var u := s.(refused := refused, granted := granted);
    assert Inv(u) by {
      forall d: Dispatch
        ensures Truthful(u, d) && WorkerOk(u, d) && Honest(u, d)
      {
        assert Truthful(s, d) && WorkerOk(s, d) && Honest(s, d);
      }
    }
    hide Inv;
    KeepSetHost(u, op, host, state, Done, write);
    assert Step(s, Answer(op, host, state, write)) == Advance(SetHost(u, op, host, state, write), op, host, Done);
  }

  lemma {:induction false} NotSentYet(s: State, op: nat, host: nat)
    requires Inv(s)
    ensures At(s, op, host, Waiting) || At(s, op, host, Marked) || At(s, op, host, Fenced) ==> Dispatch(op, host) !in s.sent
  {
    assert WorkerOk(s, Dispatch(op, host));
  }

  lemma {:induction false} KeepStep(s: State, a: Action)
    requires Inv(s)
    ensures Inv(Step(s, a))
  {
    match a
    case Submit(op, hash, hosts, write) =>
      hide Inv;
      if op !in s.jobs && op in s.files { KeepLoad(s, op); }
      if op !in s.jobs && op !in s.files { KeepNew(s, op, hash, hosts, write); }
    case Load(op) => if op !in s.jobs && op in s.files { KeepLoad(s, op); }
    case Evict(op) => KeepEvict(s, op);
    case Skip(op, host) => if At(s, op, host, Waiting) { KeepAdvance(s, op, host, Done); }
    case Refuse(op, host, write) =>
      NotSentYet(s, op, host);
      hide Inv;
      if At(s, op, host, Waiting) || At(s, op, host, Marked) || At(s, op, host, Fenced) {
        KeepSetHost(s, op, host, Rejected, Done, write);
      }
    case Mark(op, host, write) =>
      NotSentYet(s, op, host);
      hide Inv;
      if At(s, op, host, Waiting) {
        KeepSetHost(s, op, host, Checking, if write.Saved? then Marked else Done, write);
      }
    case Fence(op, host) => if At(s, op, host, Marked) { KeepAdvance(s, op, host, Fenced); }
    case Send(op, host) => KeepSend(s, op, host);
    case Answer(op, host, state, write) =>
      if At(s, op, host, Dispatched) && state in {Requested, Unknown, Rejected} { KeepAnswer(s, op, host, state, write); }
    case Finish(op, write) => if AllDone(s, op) { KeepFinish(s, op, write); }
    case Confirm(op, host, write) => KeepConfirm(s, op, host, write);
    case Crash(lost) => KeepCrash(s, lost);
  }

  lemma {:induction false} KeepEvict(s: State, op: nat)
    requires Inv(s)
    ensures Inv(Step(s, Evict(op)))
  {
    var t := Step(s, Evict(op));
    forall d: Dispatch
      ensures Truthful(t, d) && WorkerOk(t, d) && Honest(t, d)
    {
      assert Truthful(s, d) && WorkerOk(s, d) && Honest(s, d);
    }
  }

  lemma {:induction false} KeepRun(s: State, actions: seq<Action>)
    requires Inv(s)
    ensures Inv(Run(s, actions))
    decreases |actions|
  {
    hide Inv, Step;
    if actions != [] {
      KeepStep(s, actions[0]);
      KeepRun(Step(s, actions[0]), actions[1..]);
    }
  }

  /** Main result: however often the Controller restarts and whatever is submitted again,
      each operation asks each host at most once; and no record, read now or after a crash,
      calls a host rejected that was asked, unless its Agent rejected the request. */
  lemma {:induction false} AskedAtMostOnce(actions: seq<Action>, op: nat, host: nat)
    ensures var s := Run(Initial(), actions);
      && (forall i, j :: 0 <= i < j < |s.sent| ==> s.sent[i] != s.sent[j])
      && (Dispatch(op, host) in s.sent && Dispatch(op, host) !in s.refused ==>
            HostIn(s.files, op, host) != Some(Rejected) && HostIn(s.durable, op, host) != Some(Rejected) && HostIn(s.jobs, op, host) != Some(Rejected))
  {
    assert Inv(Initial());
    KeepRun(Initial(), actions);
    var s := Run(Initial(), actions);
    hide Run;
    assert Truthful(s, Dispatch(op, host));
  }

  lemma {:induction false} Reachable(actions: seq<Action>)
    ensures Inv(Run(Initial(), actions))
  {
    assert Inv(Initial());
    KeepRun(Initial(), actions);
  }

  /** In every reachable state, whatever is read or survives: a host shown as requested was
      granted by its Agent, and one shown as rebooted has proved its new boot. */
  lemma {:induction false} ShownIsEarned(actions: seq<Action>, op: nat, host: nat)
    ensures var s := Run(Initial(), actions);
            forall m :: m in {s.files, s.durable, s.jobs} ==>
              && (HostIn(m, op, host) == Some(Requested) ==> Dispatch(op, host) in s.granted)
              && (HostIn(m, op, host) == Some(Rebooted) ==> Dispatch(op, host) in s.proved)
  {
    Reachable(actions);
    var s := Run(Initial(), actions);
    hide Run;
    assert Honest(s, Dispatch(op, host));
  }

  // ---------- What an operation achieves ----------

  /** Everything about other operations is as before. */
  ghost predicate OthersKept(s: State, t: State, op: nat) {
    && s.files - {op} == t.files - {op} && s.durable - {op} == t.durable - {op}
    && s.jobs - {op} == t.jobs - {op} && s.workers - {op} == t.workers - {op}
  }

  /** A new operation that is saved is on record with every host waiting to be asked; one that
      is known already is only looked up. */
  lemma {:induction false} SubmitDecides(s: State, op: nat, hash: nat, hosts: nat)
    ensures var t := Step(s, Submit(op, hash, hosts, Saved));
            && OthersKept(s, t, op) && t.sent == s.sent
            && (op in s.jobs ==> t == s)
            && (op !in s.jobs && op in s.files ==> t.files == s.files && t.durable == s.durable && t.workers == s.workers && op in t.jobs && !t.jobs[op].live)
            && (op !in s.jobs && op !in s.files ==>
                  && op in t.jobs && t.jobs[op].hash == hash && t.jobs[op].live && |t.jobs[op].hosts| == hosts
                  && (forall i :: 0 <= i < hosts ==> t.jobs[op].hosts[i] == Queued && At(t, op, i, Waiting))
                  && op in t.files && t.files[op] == t.jobs[op] && op in t.durable && t.durable[op] == t.jobs[op])
  {
  }

  lemma {:induction false} MarkDecides(s: State, op: nat, host: nat)
    requires At(s, op, host, Waiting)
    ensures var t := Step(s, Mark(op, host, Saved));
            var o := s.jobs[op].(hosts := s.jobs[op].hosts[host := Checking]);
            At(t, op, host, Marked) && t == s.(jobs := s.jobs[op := o], files := s.files[op := o], durable := s.durable[op := o],
                                               workers := s.workers[op := s.workers[op][host := Marked]])
  {
  }

  lemma {:induction false} SendDecides(s: State, op: nat, host: nat)
    requires At(s, op, host, Marked)
    ensures var t := Step(Step(s, Fence(op, host)), Send(op, host));
            At(t, op, host, Dispatched) && t == s.(sent := s.sent + [Dispatch(op, host)], workers := s.workers[op := s.workers[op][host := Dispatched]])
  {
    var u := Step(s, Fence(op, host));
    assert u.workers[op][host := Dispatched] == s.workers[op][host := Dispatched];
    assert u.workers[op := u.workers[op][host := Dispatched]] == s.workers[op := s.workers[op][host := Dispatched]];
  }

  lemma {:induction false} AnswerDecides(s: State, op: nat, host: nat, answer: HostState)
    requires At(s, op, host, Dispatched) && answer in {Requested, Unknown, Rejected}
    ensures var t := Step(s, Answer(op, host, answer, Saved));
            var o := s.jobs[op].(hosts := s.jobs[op].hosts[host := answer]);
            && At(t, op, host, Done) && t.sent == s.sent && t.jobs == s.jobs[op := o] && t.files == s.files[op := o] && t.durable == s.durable[op := o]
            && t.workers == s.workers[op := s.workers[op][host := Done]]
  {
  }

  /** Asking one host without disturbance: exactly one request goes out, and every record
      shows what its Agent answered. */
  lemma {:induction false} HostDecides(s: State, op: nat, host: nat, answer: HostState)
    requires At(s, op, host, Waiting) && answer in {Requested, Unknown, Rejected}
    ensures var t := Step(Step(Step(Step(s, Mark(op, host, Saved)), Fence(op, host)), Send(op, host)), Answer(op, host, answer, Saved));
            && t.sent == s.sent + [Dispatch(op, host)] && At(t, op, host, Done) && OthersKept(s, t, op)
            && t.jobs[op] == s.jobs[op].(hosts := s.jobs[op].hosts[host := answer])
            && op in t.files && t.files[op] == t.jobs[op] && op in t.durable && t.durable[op] == t.jobs[op]
            && t.workers[op] == s.workers[op][host := Done]
  {
    hide Step;
    var s1 := Step(s, Mark(op, host, Saved));
    MarkDecides(s, op, host);
    SendDecides(s1, op, host);
    var s3 := Step(Step(s1, Fence(op, host)), Send(op, host));
    AnswerDecides(s3, op, host, answer);
    var t := Step(s3, Answer(op, host, answer, Saved));
    assert t.jobs[op].hosts == s.jobs[op].hosts[host := answer];
    assert t.workers[op] == s.workers[op][host := Done];
  }

  /** What an interrupted or finished operation shows: a host that was never asked is
      rejected, one that may have been asked is unknown, and the others keep their outcome. */
  predicate ShownAfter(before: HostState, after: HostState) {
    match before
    case Queued => after == Rejected
    case Checking => after == Unknown
    case _ => after == before
  }

  lemma {:induction false} FinishDecides(s: State, op: nat)
    requires AllDone(s, op)
    ensures var t := Step(s, Finish(op, Saved));
            && OthersKept(s, t, op) && op !in t.workers && t.sent == s.sent
            && op in t.jobs && !t.jobs[op].live && t.jobs[op].hash == s.jobs[op].hash && |t.jobs[op].hosts| == |s.jobs[op].hosts|
            && (forall i :: 0 <= i < |s.jobs[op].hosts| ==> ShownAfter(s.jobs[op].hosts[i], t.jobs[op].hosts[i]))
            && t.files == s.files[op := t.jobs[op]] && t.durable == s.durable[op := t.jobs[op]]
  {
  }

  /** After a crash an operation shows what its record says, and nothing is asked again. */
  lemma {:induction false} CrashDecides(s: State, op: nat)
    requires op in s.durable && op in s.files && s.files[op] == s.durable[op]
    ensures var t := Step(Step(s, Crash({})), Load(op));
            && t.sent == s.sent && t.workers == map[] && op in t.jobs && !t.jobs[op].live && |t.jobs[op].hosts| == |s.files[op].hosts|
            && forall i :: 0 <= i < |s.files[op].hosts| ==>
                 if s.files[op].live then ShownAfter(s.files[op].hosts[i], t.jobs[op].hosts[i]) else t.jobs[op].hosts[i] == s.files[op].hosts[i]
  {
  }
}
