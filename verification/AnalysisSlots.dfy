/** Publication of analysis artifacts in two slots: a new analysis is written to the slot
    that the saved one does not use, and only then does the job metadata point to it. */
module AnalysisSlots {
  import opened Wrappers
  import opened AtomicFile

  type Id = nat

  datatype Phase = Queued | Running | Completed | Broken | Interrupted

  /** Job metadata: the job, the analysis it keeps available meanwhile, and the slot of
      the available one. */
  datatype Status = Status(id: Id, phase: Phase, saved: Option<Id>, slot: nat)

  /** The two files of a slot, each with the analysis that wrote it. */
  datatype Slot = Slot(full: Option<Id>, compact: Option<Id>)

  /** Everything on disk about the analysis of one run. */
  datatype Disk = Disk(meta: Option<Status>, slots: map<nat, Slot>)

  datatype Publishing = NotPublishing | FullPublished(slot: nat) | BothPublished(slot: nat)

  /** files: what a read sees. durable: what a crash leaves for certain. job: what the
      Controller holds in memory; previous: the completed status a job may return to. */
  datatype State = State(files: Disk, durable: Disk, job: Option<Status>, previous: Option<Status>, publishing: Publishing, next: Id)

  datatype Action =
    | Load
    | Start(keep: bool, write: Write)
    | Persist(write: Write)
    | PublishFull(write: Write)
    | PublishCompact(write: Write)
    | Complete(write: Write)
    | Reuse(write: Write)
    | Fail(phase: Phase, write: Write)
    | Crash(keepMeta: bool, keepFull: set<nat>, keepCompact: set<nat>)

  function Initial(): State {
    var empty := map[0 := Slot(None, None), 1 := Slot(None, None)];
    State(Disk(None, empty), Disk(None, empty), None, None, NotPublishing, 0)
  }

  // ---------- The decisions of the source ----------

  /** Which slot a job may write. */
  function NextSlot(s: Status): nat {
    if s.saved.Some? && s.slot <= 1 then 1 - s.slot else 0
  }

  /** Which analysis this status keeps available. */
  function SavedId(s: Status): Option<Id> {
    if s.phase == Completed then Some(s.id) else s.saved
  }

  predicate Active(s: Status) {
    s.phase == Queued || s.phase == Running
  }

  /** Whether a request for the artifact of a job is answered from the slot of s. */
  predicate Serves(s: Status, job: Option<Id>, saved: bool) {
    if s.phase == Completed then job == None || job == Some(s.id)
    else saved && job.Some? && job == s.saved
  }

  function LoadedStatus(s: Status): Status {
    if Active(s) then s.(phase := Interrupted) else s
  }

  // ---------- Steps ----------

  function WriteMeta(s: State, m: Status, write: Write): State {
    match write
    case Saved => s.(files := s.files.(meta := Some(m)), durable := s.durable.(meta := Some(m)))
    case Renamed => s.(files := s.files.(meta := Some(m)))
    case Failed => s
  }

  function SlotOf(d: Disk, slot: nat): Slot {
    if slot in d.slots then d.slots[slot] else Slot(None, None)
  }

  function PutFull(d: Disk, slot: nat, id: Id): Disk {
    d.(slots := d.slots[slot := SlotOf(d, slot).(full := Some(id))])
  }

  function PutCompact(d: Disk, slot: nat, id: Id): Disk {
    d.(slots := d.slots[slot := SlotOf(d, slot).(compact := Some(id))])
  }

  function WriteFull(s: State, slot: nat, id: Id, write: Write): State {
    match write
    case Saved => s.(files := PutFull(s.files, slot, id), durable := PutFull(s.durable, slot, id))
    case Renamed => s.(files := PutFull(s.files, slot, id))
    case Failed => s
  }

  function WriteCompact(s: State, slot: nat, id: Id, write: Write): State {
    match write
    case Saved => s.(files := PutCompact(s.files, slot, id), durable := PutCompact(s.durable, slot, id))
    case Renamed => s.(files := PutCompact(s.files, slot, id))
    case Failed => s
  }

  /** A replacement keeps the saved analysis and its slot; it runs only once that is durable. */
  function StartStep(s: State, keep: bool, write: Write): State {
    if s.job.Some? && Active(s.job.value) then s
    else
      var job := if s.job.None? then Status(s.next, Queued, None, 0)
                 else Status(s.next, Queued, SavedId(s.job.value), s.job.value.slot);
      var t := WriteMeta(s, job, write).(next := s.next + 1, publishing := NotPublishing);
      if write.Saved? then
        t.(job := Some(job), previous := if keep && s.job.Some? && s.job.value.phase == Completed then s.job else None)
      else t
  }

  function Failing(s: State, phase: Phase, write: Write): State
    requires s.job.Some?
  {
    var m := s.job.value.(phase := if phase == Interrupted then Interrupted else Broken);
    WriteMeta(s, m, write).(job := Some(m), publishing := NotPublishing)
  }

  function CompleteStep(s: State, slot: nat, write: Write): State
    requires s.job.Some?
  {
    var m := Status(s.job.value.id, Completed, None, slot);
    var t := WriteMeta(s, m, write);
    if write.Saved? then t.(job := Some(m), publishing := NotPublishing) else Failing(t, Broken, Failed)
  }

  function Survives(s: State, keepMeta: bool, keepFull: set<nat>, keepCompact: set<nat>): Disk {
    Disk(if keepMeta then s.files.meta else s.durable.meta,
         map slot | slot in {0, 1} ::
           Slot(SlotOf(if slot in keepFull then s.files else s.durable, slot).full,
                SlotOf(if slot in keepCompact then s.files else s.durable, slot).compact))
  }

  function Step(s: State, a: Action): State {
    match a
    case Load => if s.job.None? && s.files.meta.Some? then s.(job := Some(LoadedStatus(s.files.meta.value))) else s
    case Start(keep, write) => if s.job.None? && s.files.meta.Some? then s else StartStep(s, keep, write)
    case Persist(write) =>
      if s.job.Some? && Active(s.job.value) && s.publishing.NotPublishing? then
        var m := s.job.value.(phase := Running);
        WriteMeta(s, m, write).(job := Some(m))
      else s
    case PublishFull(write) =>
      if s.job.Some? && Active(s.job.value) && s.publishing.NotPublishing? then
        var slot := NextSlot(s.job.value);
        var t := WriteFull(s, slot, s.job.value.id, write);
        if write.Saved? then t.(publishing := FullPublished(slot)) else Failing(t, Broken, Failed)
      else s
    case PublishCompact(write) =>
      if s.job.Some? && Active(s.job.value) && s.publishing.FullPublished? then
        var t := WriteCompact(s, s.publishing.slot, s.job.value.id, write);
        if write.Saved? then t.(publishing := BothPublished(s.publishing.slot)) else Failing(t, Broken, Failed)
      else s
    case Complete(write) =>
      if s.job.Some? && Active(s.job.value) && s.publishing.BothPublished? then CompleteStep(s, s.publishing.slot, write) else s
    case Reuse(write) =>
      if s.job.Some? && Active(s.job.value) && s.previous.Some? && s.publishing.NotPublishing? then
        var t := WriteMeta(s, s.previous.value, write);
        if write.Saved? then t.(job := s.previous) else Failing(t, Broken, Failed)
      else s
    case Fail(phase, write) => if s.job.Some? && !s.job.value.phase.Completed? then Failing(s, phase, write) else s
    case Crash(keepMeta, keepFull, keepCompact) =>
      var left := Survives(s, keepMeta, keepFull, keepCompact);
      State(left, left, None, None, NotPublishing, s.next)
  }

  function Run(s: State, actions: seq<Action>): State
    decreases |actions|
  {
    if actions == [] then s else Run(Step(s, actions[0]), actions[1..])
  }

  // ---------- The invariant ----------

  /** Both files of the slot belong to this analysis, now and after any crash. */
  ghost predicate Holds(s: State, slot: nat, id: Id) {
    && SlotOf(s.files, slot) == Slot(Some(id), Some(id))
    && SlotOf(s.durable, slot) == Slot(Some(id), Some(id))
  }

  /** What a status keeps available is there. */
  ghost predicate Kept(s: State, m: Status) {
    m.slot <= 1 && (SavedId(m).Some? ==> Holds(s, m.slot, SavedId(m).value))
  }

  /** No status that a reader or a restart could find points to the slot being written. */
  ghost predicate Apart(m: Option<Status>, slot: nat) {
    m.Some? && SavedId(m.value).Some? ==> m.value.slot != slot
  }

  ghost predicate JobOk(s: State) {
    s.job.Some? && Active(s.job.value) ==>
      && Apart(s.files.meta, NextSlot(s.job.value)) && Apart(s.durable.meta, NextSlot(s.job.value))
      && (s.previous.Some? ==> s.previous.value.phase == Completed && s.job.value.saved == Some(s.previous.value.id)
                               && s.previous.value.slot == s.job.value.slot)
  }

  ghost predicate PublishOk(s: State) {
    match s.publishing
    case NotPublishing => true
    case FullPublished(slot) =>
      && s.job.Some? && Active(s.job.value) && slot == NextSlot(s.job.value)
      && SlotOf(s.files, slot).full == SlotOf(s.durable, slot).full == Some(s.job.value.id)
    case BothPublished(slot) =>
      s.job.Some? && Active(s.job.value) && slot == NextSlot(s.job.value) && Holds(s, slot, s.job.value.id)
  }

  ghost predicate Inv(s: State) {
    && (s.files.meta.Some? ==> Kept(s, s.files.meta.value))
    && (s.durable.meta.Some? ==> Kept(s, s.durable.meta.value))
    && (s.job.Some? ==> Kept(s, s.job.value))
    && JobOk(s) && PublishOk(s)
  }

  // ---------- Steps keep it ----------

  /** Replacing metadata by a status that keeps its promise. */
  lemma {:induction false} KeepMeta(s: State, m: Status, write: Write)
    requires Inv(s) && Kept(s, m)
    requires s.job.Some? && Active(s.job.value) ==> Apart(Some(m), NextSlot(s.job.value))
    ensures Inv(WriteMeta(s, m, write))
  {
  }

  /** Ending a job without a result keeps what was saved. */
  lemma {:induction false} KeepFailing(s: State, phase: Phase, write: Write)
    requires Inv(s) && s.job.Some? && s.job.value.phase != Completed
    ensures Inv(Failing(s, phase, write))
  {
    var m := s.job.value.(phase := if phase == Interrupted then Interrupted else Broken);
    KeepMeta(s.(job := Some(m), publishing := NotPublishing), m, write);
  }

  lemma {:induction false} KeepStart(s: State, keep: bool, write: Write)
    requires Inv(s)
    ensures Inv(StartStep(s, keep, write))
  {
  }

  /** Writing the slot that nothing points to. */
  lemma {:induction false} KeepFull(s: State, write: Write)
    requires Inv(s) && s.job.Some? && Active(s.job.value) && s.publishing.NotPublishing?
    ensures Inv(WriteFull(s, NextSlot(s.job.value), s.job.value.id, write))
  {
  }

  lemma {:induction false} KeepCompact(s: State, write: Write)
    requires Inv(s) && s.publishing.FullPublished?
    ensures Inv(WriteCompact(s, s.publishing.slot, s.job.value.id, write).(publishing := NotPublishing))
    ensures write.Saved? ==> Holds(WriteCompact(s, s.publishing.slot, s.job.value.id, write), s.publishing.slot, s.job.value.id)
  {
  }

  lemma {:induction false} KeepComplete(s: State, write: Write)
    requires Inv(s) && s.publishing.BothPublished?
    ensures Inv(CompleteStep(s, s.publishing.slot, write))
  {
    var m := Status(s.job.value.id, Completed, None, s.publishing.slot);
    if !write.Saved? {
      var u := s.(job := Some(s.job.value.(phase := Broken)), publishing := NotPublishing);
      assert Inv(u);
      KeepMeta(u, m, write);
      assert CompleteStep(s, s.publishing.slot, write) == WriteMeta(u, m, write);
    }
  }

  lemma {:induction false} KeepReuse(s: State, write: Write)
    requires Inv(s)
    ensures Inv(Step(s, Reuse(write)))
  {
    if s.job.Some? && Active(s.job.value) && s.previous.Some? && s.publishing.NotPublishing? {
      KeepMeta(s, s.previous.value, write);
      KeepFailing(WriteMeta(s, s.previous.value, write), Broken, Failed);
    }
  }

  lemma {:induction false} KeepCrash(s: State, keepMeta: bool, keepFull: set<nat>, keepCompact: set<nat>)
    requires Inv(s)
    ensures Inv(Step(s, Crash(keepMeta, keepFull, keepCompact)))
  {
  }

  lemma {:induction false} KeepStep(s: State, a: Action)
    requires Inv(s)
    ensures Inv(Step(s, a))
  {
    match a
    case Load =>
    case Start(keep, write) => KeepStart(s, keep, write);
    case Persist(write) =>
      if s.job.Some? && Active(s.job.value) && s.publishing.NotPublishing? {
        var m := s.job.value.(phase := Running);
        KeepMeta(s.(job := Some(m)), m, write);
      }
    case PublishFull(write) =>
      if s.job.Some? && Active(s.job.value) && s.publishing.NotPublishing? {
        KeepFull(s, write);
        KeepFailing(WriteFull(s, NextSlot(s.job.value), s.job.value.id, write), Broken, Failed);
      }
    case PublishCompact(write) =>
      if s.job.Some? && Active(s.job.value) && s.publishing.FullPublished? {
        KeepCompact(s, write);
        KeepFailing(WriteCompact(s, s.publishing.slot, s.job.value.id, write).(publishing := NotPublishing), Broken, Failed);
      }
    case Complete(write) => if s.publishing.BothPublished? { KeepComplete(s, write); }
    case Reuse(write) => KeepReuse(s, write);
    case Fail(phase, write) => if s.job.Some? && !s.job.value.phase.Completed? { KeepFailing(s, phase, write); }
    case Crash(keepMeta, keepFull, keepCompact) => KeepCrash(s, keepMeta, keepFull, keepCompact);
  }

  lemma {:induction false} KeepRun(s: State, actions: seq<Action>)
    requires Inv(s)
    ensures Inv(Run(s, actions))
    decreases |actions|
  {
    hide Inv, Step;
    if actions != [] {
      KeepStep(s, actions[0]);
      KeepRun(Step(s, actions[0]), actions[1..]);
    }
  }

  /** Main result: over every run with retries, reuse, failures and crashes between any two
      publications, the slot that the metadata names holds both files of the analysis it
      keeps available, on the disk as it is and as any crash would leave it. */
  lemma {:induction false} SavedSurvives(actions: seq<Action>)
    ensures var s := Run(Initial(), actions);
      && (s.files.meta.Some? ==> Kept(s, s.files.meta.value))
      && (s.durable.meta.Some? ==> Kept(s, s.durable.meta.value))
      && (s.job.Some? ==> Kept(s, s.job.value))
  {
    assert Inv(Initial());
    KeepRun(Initial(), actions);
    hide Run;
  }

  /** Whatever is served for a job was produced by that job. */
  lemma {:induction false} ServedIsGenuine(actions: seq<Action>, job: Option<Id>, saved: bool)
    ensures var s := Run(Initial(), actions);
      s.job.Some? && Serves(s.job.value, job, saved) ==>
        var id := if job.Some? then job.value else s.job.value.id;
        SlotOf(s.files, s.job.value.slot) == Slot(Some(id), Some(id))
  {
    SavedSurvives(actions);
    hide Run;
  }

  // ---------- What is served, and until when ----------

  /** Some analysis is available, whichever metadata a reader or a restart finds. */
  predicate Available(s: State) {
    && s.files.meta.Some? && SavedId(s.files.meta.value).Some?
    && s.durable.meta.Some? && SavedId(s.durable.meta.value).Some?
    && (s.job.Some? ==> SavedId(s.job.value).Some?)
    && (s.previous.Some? ==> SavedId(s.previous.value).Some?)
  }

  lemma {:induction false} AvailableStays(s: State, a: Action)
    requires Available(s)
    ensures Available(Step(s, a))
  {
  }

  /** Once an analysis has completed, every loaded job serves one from then on: through
      replacements, failures and crashes, until another takes its place. */
  lemma {:induction false} ServedForever(s: State, actions: seq<Action>)
    requires Inv(s) && Available(s)
    ensures var t := Run(s, actions);
      && Available(t)
      && (t.job.Some? ==>
            var id := SavedId(t.job.value).value;
            Serves(t.job.value, Some(id), true) && SlotOf(t.files, t.job.value.slot) == Slot(Some(id), Some(id)))
    decreases |actions|
  {
    if actions != [] {
      KeepStep(s, actions[0]);
      AvailableStays(s, actions[0]);
      hide Inv, Available, Step, Serves;
      ServedForever(Step(s, actions[0]), actions[1..]);
    }
  }

  /** Which analysis is available changes only when another one completes, or with a restart. */
  lemma {:induction false} OnlyCompletionReplaces(s: State, a: Action)
    requires Inv(s) && s.job.Some? && !a.Crash?
    ensures Step(s, a).job.Some?
    ensures SavedId(Step(s, a).job.value) ==
      if a == Complete(Saved) && Active(s.job.value) && s.publishing.BothPublished? then Some(s.job.value.id) else SavedId(s.job.value)
  {
  }

  /** A job that is started, writes both files and completes. */
  function Published(keep: bool, noted: Write): seq<Action> {
    [Start(keep, Saved), Persist(noted), PublishFull(Saved), PublishCompact(Saved), Complete(Saved)]
  }

  lemma {:induction false} PublishingRuns(s: State, keep: bool, noted: Write)
    ensures Run(s, Published(keep, noted)) ==
      Step(Step(Step(Step(Step(s, Start(keep, Saved)), Persist(noted)), PublishFull(Saved)), PublishCompact(Saved)), Complete(Saved))
  {
    hide Step;
    var a := Published(keep, noted);
    assert a[1..][1..] == a[2..] && a[2..][1..] == a[3..] && a[3..][1..] == a[4..] && a[4..][1..] == [];
    assert a[0] == Start(keep, Saved) && a[1..][0] == Persist(noted) && a[2..][0] == PublishFull(Saved);
    assert a[3..][0] == PublishCompact(Saved) && a[4..][0] == Complete(Saved);
    var b := Step(Step(s, Start(keep, Saved)), Persist(noted));
    assert Run(s, a) == Run(b, a[2..]);
    var c := Step(Step(b, PublishFull(Saved)), PublishCompact(Saved));
    assert Run(b, a[2..]) == Run(c, a[4..]);
  }

  /** An idle job can be started, whatever became of the one before, and if no write fails
      the new analysis is served and nothing else. */
  lemma {:induction false} PublishedIsServed(s: State, keep: bool, noted: Write, job: Option<Id>, saved: bool)
    requires Inv(s) && (if s.job.None? then s.files.meta.None? else !Active(s.job.value))
    ensures var t := Run(s, Published(keep, noted));
      && Inv(t) && Available(t) && t.job.Some? && t.files.meta == t.durable.meta == t.job && t.job.value.phase == Completed
      && (Serves(t.job.value, job, saved) <==> job == None || job == Some(s.next))
      && Holds(t, t.job.value.slot, s.next)
  {
    var a := Step(s, Start(keep, Saved));
    var b := Step(a, Persist(noted));
    var c := Step(b, PublishFull(Saved));
    var d := Step(c, PublishCompact(Saved));
    KeepRun(s, Published(keep, noted));
    PublishingRuns(s, keep, noted);
    hide Run, Published, Inv;
    assert a.previous.Some? ==> a.previous.value.phase == Completed;
  }

  /** After a restart no job is active, and a completed analysis is found again. */
  lemma {:induction false} RestartServes(s: State, keepMeta: bool, keepFull: set<nat>, keepCompact: set<nat>)
    requires Inv(s)
    ensures var t := Run(s, [Crash(keepMeta, keepFull, keepCompact), Load]);
      && (t.job.Some? ==> !Active(t.job.value))
      && (t.job.Some? <==> (if keepMeta then s.files else s.durable).meta.Some?)
      && (s.job.Some? && s.job.value.phase == Completed && s.files.meta == s.durable.meta == s.job ==>
            t.job == s.job && Holds(t, t.job.value.slot, t.job.value.id))
  {
    var c := Step(s, Crash(keepMeta, keepFull, keepCompact));
    KeepCrash(s, keepMeta, keepFull, keepCompact);
    KeepStep(c, Load);
    TwoSteps(s, Crash(keepMeta, keepFull, keepCompact), Load);
    hide Run;
  }

  lemma {:induction false} TwoSteps(s: State, a: Action, b: Action)
    ensures Run(s, [a, b]) == Step(Step(s, a), b)
  {
    hide Step;
    assert [a, b][1..] == [b] && [b][1..] == [];
    assert Run(Step(s, a), [b]) == Step(Step(s, a), b);
  }

  /** A replacement that finds its sources unchanged gives way to what was there. */
  lemma {:induction false} ReuseRestores(s: State)
    requires s.job.Some? && s.job.value.phase == Completed
    ensures var t := Run(s, [Start(true, Saved), Reuse(Saved)]);
      t.job == t.files.meta == t.durable.meta == s.job && t.files.slots == s.files.slots && t.durable.slots == s.durable.slots
  {
    TwoSteps(s, Start(true, Saved), Reuse(Saved));
    hide Run;
  }
}
