/** Admission of repeated runs into a batch: a prepared record names the runs before they
    are written, a committed record publishes them, and recovery takes back whatever a
    prepared record names. */
module BatchAdmission {
  import opened Wrappers
  import opened AtomicFile

  type Id = nat

  const MAX_REPETITIONS: nat := 100

  datatype RunState = Queued | Running | Completed | Failed | Canceled | Interrupted

  datatype Experiment = Experiment(id: Id, batch: Id, iteration: nat, repetitions: nat, state: RunState, started: bool,
                                   previous: seq<Id>, content: nat)

  datatype Record = Record(repetitions: nat, pending: seq<Id>, pendingTotal: nat, before: seq<Experiment>,
                           retired: set<Id>, current: map<nat, Id>)

  /** The record of one batch, and all run directories: some without metadata yet. */
  datatype Disk = Disk(record: Option<Record>, runs: map<Id, Option<Experiment>>)

  // ---------- Reading ----------

  predicate Distinct<T(==)>(s: seq<T>) {
    forall i, j :: 0 <= i < j < |s| ==> s[i] != s[j]
  }

  predicate CurrentOk(current: map<nat, Id>, repetitions: nat) {
    && (forall i :: i in current ==> 1 <= i <= repetitions)
    && (forall i, j :: i in current && j in current && current[i] == current[j] ==> i == j)
  }

  /** The checks made whenever a record is read. */
  predicate Readable(batch: Id, r: Record) {
    && 1 <= r.repetitions <= MAX_REPETITIONS && |r.pending| <= MAX_REPETITIONS && r.pendingTotal <= MAX_REPETITIONS
    && Distinct(r.pending) && CurrentOk(r.current, r.repetitions)
    && (r.before != [] ==> |r.before| == |r.pending|)
    && (forall i :: 0 <= i < |r.before| ==> r.before[i].id == r.pending[i] && r.before[i].batch == batch && !r.before[i].started)
  }

  /** A run as readers see it: with the committed total, and marked when superseded. */
  datatype Seen = Seen(run: Experiment, superseded: bool)

  predicate Shown(record: Option<Record>, e: Experiment) {
    record.Some? ==> e.id !in record.value.pending && e.repetitions <= record.value.repetitions
  }

  function Project(record: Option<Record>, e: Experiment): Seen {
    if record.None? then Seen(e, false)
    else Seen(e.(repetitions := record.value.repetitions), e.id in record.value.retired)
  }

  /** What readers make of the directory of run i. */
  ghost function View(batch: Id, d: Disk, i: Id): Option<Seen> {
    if i in d.runs && d.runs[i].Some? && d.runs[i].value.batch == batch && d.runs[i].value.id == i && Shown(d.record, d.runs[i].value)
    then Some(Project(d.record, d.runs[i].value)) else None
  }

  // ---------- Rollback as a function ----------

  predicate Removable(batch: Id, total: nat, found: Option<Experiment>) {
    found.Some? ==> found.value.batch == batch && found.value.repetitions == total && found.value.state == Queued && !found.value.started
  }

  function Total(r: Record): nat {
    if r.pendingTotal == 0 then r.repetitions + |r.pending| else r.pendingTotal
  }

  function Cleared(r: Record): Record {
    r.(pending := [], before := [], pendingTotal := 0)
  }

  function Index(s: seq<Id>, i: Id): (k: nat)
    requires i in s
    ensures k < |s| && s[k] == i
  {
    if s[0] == i then 0 else 1 + Index(s[1..], i)
  }

  /** The run directories once the pending runs have been taken back: reused runs get
      their image back, new ones are gone. */
  function Restored(r: Record, runs: map<Id, Option<Experiment>>): map<Id, Option<Experiment>>
    requires r.before != [] ==> |r.before| == |r.pending|
  {
    map i | i in runs && (i !in r.pending || r.before != []) ::
      if i in r.pending then Some(r.before[Index(r.pending, i)]) else runs[i]
  }

  ghost predicate CanRestore(batch: Id, r: Record, runs: map<Id, Option<Experiment>>) {
    r.before != [] || forall i :: i in r.pending && i in runs ==> Removable(batch, Total(r), runs[i])
  }

  /** What recovery leaves behind; None if it refuses to touch the batch. */
  ghost function Recover(batch: Id, d: Disk): Option<Disk> {
    if d.record.None? then Some(d)
    else
      var r := d.record.value;
      if !Readable(batch, r) then None
      else if r.pending == [] then Some(d)
      else if !CanRestore(batch, r, d.runs) then None
      else Some(Disk(Some(Cleared(r)), Restored(r, d.runs)))
  }

  // ---------- An admission ----------

  /** What a caller asks for: the runs, the total they bring the batch to, the members it
      has read, and the images of reused runs. */
  datatype Admission = Admission(pending: seq<Experiment>, total: nat, members: seq<Experiment>, before: seq<Experiment>)

  function Ids(runs: seq<Experiment>): (ids: seq<Id>)
    ensures |ids| == |runs| && forall i :: 0 <= i < |runs| ==> ids[i] == runs[i].id
  {
    seq(|runs|, i requires 0 <= i < |runs| => runs[i].id)
  }

  function Prior(d: Disk, a: Admission): nat {
    if d.record.Some? then d.record.value.repetitions
    else if a.members != [] then a.members[0].repetitions
    else a.total
  }

  function Fill(current: map<nat, Id>, members: seq<Experiment>): map<nat, Id>
    decreases |members|
  {
    if members == [] then current
    else
      var m := members[0];
      Fill(FillOne(current, m), members[1..])
  }

  function Base(d: Disk, a: Admission): Record {
    if d.record.Some? then d.record.value else Record(Prior(d, a), [], 0, [], {}, map[])
  }

  function Prepare(d: Disk, a: Admission): Record {
    var base := Base(d, a);
    base.(pending := base.pending + Ids(a.pending), pendingTotal := a.total, before := a.before, current := Fill(base.current, a.members))
  }

  function Publish(current: map<nat, Id>, pending: seq<Experiment>): map<nat, Id>
    decreases |pending|
  {
    if pending == [] then current
    else Publish(current[pending[0].iteration := pending[0].id], pending[1..])
  }

  function Predecessors(pending: seq<Experiment>): set<Id> {
    set r, i | r in pending && i in r.previous :: i
  }

  function Commit(d: Disk, a: Admission): Record {
    var r := Prepare(d, a);
    Cleared(r).(repetitions := a.total, retired := r.retired + Predecessors(a.pending), current := Publish(r.current, a.pending))
  }

  /** Between admissions every run of the batch is within the committed total, and the
      record names each iteration's newest run. */
  ghost predicate Settled(batch: Id, d: Disk) {
    && (d.record.Some? ==> Readable(batch, d.record.value) && d.record.value.pending == [] && d.record.value.before == [] && d.record.value.pendingTotal == 0)
    && (forall i :: i in d.runs && d.runs[i].Some? && d.runs[i].value.batch == batch ==>
          d.runs[i].value.id == i && (d.record.Some? ==> d.runs[i].value.repetitions <= d.record.value.repetitions))
    && (d.record.Some? ==> forall n :: n in d.record.value.current ==> Places(d.runs, d.record.value.current[n], n))
  }

  ghost predicate Places(runs: map<Id, Option<Experiment>>, i: Id, iteration: nat) {
    i in runs && runs[i].Some? ==> runs[i].value.iteration == iteration
  }

  /** What the callers make sure of before they admit. */
  ghost predicate Admissible(batch: Id, d: Disk, a: Admission) {
    && Settled(batch, d)
    && 0 < |a.pending| <= a.total <= MAX_REPETITIONS && 1 <= Prior(d, a) <= a.total
    && Distinct(Ids(a.pending))
    && (forall k :: 0 <= k < |a.pending| ==>
          var e := a.pending[k];
          e.batch == batch && e.repetitions == a.total && e.state == Queued && !e.started && 1 <= e.iteration <= a.total)
    && (forall j, k :: 0 <= j < k < |a.pending| ==> a.pending[j].iteration != a.pending[k].iteration)
    && (d.record.None? ==> forall i :: i in d.runs && d.runs[i].Some? && d.runs[i].value.batch == batch ==>
          d.runs[i].value.repetitions == Prior(d, a))
    && MembersOk(batch, d, a)
    && (if a.before == [] then Fresh(d, a) else Reuses(batch, d, a))
  }

  ghost predicate MembersOk(batch: Id, d: Disk, a: Admission) {
    && (forall j, k :: 0 <= j < k < |a.members| ==> a.members[j].iteration != a.members[k].iteration && a.members[j].id != a.members[k].id)
    && (forall k :: 0 <= k < |a.members| ==>
          var m := a.members[k];
          && m.id in d.runs && d.runs[m.id].Some? && d.runs[m.id].value.iteration == m.iteration
          && 1 <= m.iteration <= Prior(d, a))
  }

  /** New identities, used nowhere yet. */
  ghost predicate Fresh(d: Disk, a: Admission) {
    forall k :: 0 <= k < |a.pending| ==>
      a.pending[k].id !in d.runs && (d.record.Some? ==> a.pending[k].id !in d.record.value.current.Values)
  }

  /** Never-started runs that keep their identity; `before` is how readers see them now. */
  ghost predicate Reuses(batch: Id, d: Disk, a: Admission) {
    && |a.before| == |a.pending| && a.total == Prior(d, a)
    && forall k :: 0 <= k < |a.pending| ==>
         var e := a.pending[k];
         && View(batch, d, e.id).Some? && a.before[k] == View(batch, d, e.id).value.run
         && !a.before[k].started && a.before[k].iteration == e.iteration && e.iteration <= Prior(d, a)
         && (exists m :: m in a.members && m.id == e.id)
  }

  // ---------- Every state an admission can leave behind ----------

  /** The prepared record is durable; each pending run is, independently of the others,
      anything between its old and its new state. */
  ghost predicate InFlight(d0: Disk, d: Disk, a: Admission) {
    && d.record == Some(Prepare(d0, a))
    && (forall i :: i !in Ids(a.pending) ==> (i in d.runs <==> i in d0.runs) && (i in d0.runs ==> d.runs[i] == d0.runs[i]))
    && (forall k :: 0 <= k < |a.pending| ==> RunInFlight(d0, d, a, k))
  }

  ghost predicate RunInFlight(d0: Disk, d: Disk, a: Admission, k: nat)
    requires k < |a.pending|
  {
    var i := a.pending[k].id;
    if a.before == [] then i in d.runs ==> d.runs[i] == None || d.runs[i] == Some(a.pending[k])
    else i in d0.runs && i in d.runs && k < |a.before| && d.runs[i] in {d0.runs[i], Some(a.pending[k]), Some(a.before[k])}
  }

  // ---------- Records stay readable ----------

  ghost predicate AllPlaced(runs: map<Id, Option<Experiment>>, current: map<nat, Id>) {
    forall n :: n in current ==> Places(runs, current[n], n)
  }

  ghost predicate MemberOk(runs: map<Id, Option<Experiment>>, m: Experiment, repetitions: nat) {
    m.id in runs && runs[m.id].Some? && runs[m.id].value.iteration == m.iteration && 1 <= m.iteration <= repetitions
  }

  function FillOne(current: map<nat, Id>, m: Experiment): map<nat, Id> {
    if m.iteration in current then current else current[m.iteration := m.id]
  }

  lemma {:induction false} FillOneOk(runs: map<Id, Option<Experiment>>, current: map<nat, Id>, m: Experiment, repetitions: nat)
    requires CurrentOk(current, repetitions) && AllPlaced(runs, current) && MemberOk(runs, m, repetitions)
    ensures CurrentOk(FillOne(current, m), repetitions) && AllPlaced(runs, FillOne(current, m))
  {
    assert forall n :: n in current && current[n] == m.id ==> n == m.iteration;
  }

  lemma {:induction false} FillOk(runs: map<Id, Option<Experiment>>, current: map<nat, Id>, members: seq<Experiment>, repetitions: nat)
    requires CurrentOk(current, repetitions) && AllPlaced(runs, current)
    requires forall k :: 0 <= k < |members| ==> MemberOk(runs, members[k], repetitions)
    ensures CurrentOk(Fill(current, members), repetitions) && AllPlaced(runs, Fill(current, members))
    decreases |members|
  {
    hide CurrentOk, AllPlaced, MemberOk;
    if members != [] {
      FillOneOk(runs, current, members[0], repetitions);
      FillOk(runs, FillOne(current, members[0]), members[1..], repetitions);
    }
  }

  lemma {:induction false} FillAvoids(current: map<nat, Id>, members: seq<Experiment>, i: Id)
    requires i !in current.Values && forall k :: 0 <= k < |members| ==> members[k].id != i
    ensures i !in Fill(current, members).Values
    decreases |members|
  {
    if members != [] {
      FillAvoids(FillOne(current, members[0]), members[1..], i);
    }
  }

  lemma {:induction false} BaseOk(batch: Id, d: Disk, a: Admission)
    requires Admissible(batch, d, a)
    ensures var b := Base(d, a);
      && CurrentOk(b.current, b.repetitions) && AllPlaced(d.runs, b.current)
      && b.pending == [] && b.repetitions == Prior(d, a) && 1 <= b.repetitions <= MAX_REPETITIONS
    ensures forall k :: 0 <= k < |a.members| ==> MemberOk(d.runs, a.members[k], Prior(d, a))
    ensures |a.pending| <= MAX_REPETITIONS && a.total <= MAX_REPETITIONS && Distinct(Ids(a.pending))
  {
    hide Distinct;
  }

  lemma {:induction false} BeforeOk(batch: Id, d: Disk, a: Admission)
    requires Admissible(batch, d, a)
    ensures a.before != [] ==> |a.before| == |a.pending|
    ensures forall k :: 0 <= k < |a.before| ==> a.before[k].id == a.pending[k].id && a.before[k].batch == batch && !a.before[k].started
  {
    hide Distinct, Settled, MembersOk;
  }

  /** A prepared record can always be read back. */
  lemma {:induction false} PrepareReadable(batch: Id, d: Disk, a: Admission)
    requires Admissible(batch, d, a)
    ensures Readable(batch, Prepare(d, a)) && Prepare(d, a).pending == Ids(a.pending) && Prepare(d, a).before == a.before
    ensures Prepare(d, a).repetitions == Prior(d, a) && Total(Prepare(d, a)) == a.total
    ensures AllPlaced(d.runs, Prepare(d, a).current)
  {
    BaseOk(batch, d, a);
    BeforeOk(batch, d, a);
    assert a.total > 0;
    hide Admissible, CurrentOk, AllPlaced, Distinct, MemberOk;
    FillOk(d.runs, Base(d, a).current, a.members, Prior(d, a));
    assert [] + Ids(a.pending) == Ids(a.pending);
  }

  // ---------- Recovery from any interrupted admission ----------

  lemma {:induction false} InFlightRemovable(batch: Id, d0: Disk, d: Disk, a: Admission)
    requires Admissible(batch, d0, a) && InFlight(d0, d, a)
    ensures a.before == [] ==> forall i :: i in Ids(a.pending) && i in d.runs ==> Removable(batch, a.total, d.runs[i])
  {
    hide Admissible, Prepare, Removable;
    forall i | i in Ids(a.pending) && i in d.runs && a.before == []
      ensures Removable(batch, a.total, d.runs[i])
    {
      var k := Index(Ids(a.pending), i);
      assert RunInFlight(d0, d, a, k);
      PendingRemovable(batch, d0, a, k);
    }
  }

  lemma {:induction false} InFlightRestorable(batch: Id, d0: Disk, d: Disk, a: Admission)
    requires Admissible(batch, d0, a) && InFlight(d0, d, a)
    ensures BeforeOkPart(batch, d0, a)
    ensures Recover(batch, d) == Some(Disk(Some(Cleared(Prepare(d0, a))), Restored(Prepare(d0, a), d.runs)))
  {
    PrepareReadable(batch, d0, a);
    BeforeOk(batch, d0, a);
    InFlightRemovable(batch, d0, d, a);
    assert |Ids(a.pending)| > 0 && d == Disk(Some(Prepare(d0, a)), d.runs);
    hide Admissible, InFlight, Readable, Prepare, Recover, Removable, Ids;
  }

  lemma {:induction false} PendingRemovable(batch: Id, d: Disk, a: Admission, k: nat)
    requires Admissible(batch, d, a) && k < |a.pending|
    ensures Removable(batch, a.total, Some(a.pending[k])) && Removable(batch, a.total, None)
  {
  }

  /** Before the admission, as far as any reader can tell. */
  ghost predicate SameView(batch: Id, d: Disk, d0: Disk) {
    forall i :: View(batch, d, i) == View(batch, d0, i)
  }

  /** The image of a reused run is its file with the committed total. */
  lemma {:induction false} ReusedImage(batch: Id, d: Disk, a: Admission, k: nat)
    requires Admissible(batch, d, a) && a.before != [] && k < |a.pending|
    ensures var i := a.pending[k].id;
      && k < |a.before| && i in d.runs && d.runs[i].Some? && a.before[k] == d.runs[i].value.(repetitions := Prior(d, a))
  {
    hide Distinct, MembersOk;
    assert View(batch, d, a.pending[k].id).Some?;
  }

  /** Restored run i: as before the admission, up to the total in its own metadata. */
  lemma {:induction false} RestoredIs(batch: Id, d0: Disk, d: Disk, a: Admission, i: Id)
    requires Admissible(batch, d0, a) && InFlight(d0, d, a)
    requires Readable(batch, Prepare(d0, a)) && Prepare(d0, a).pending == Ids(a.pending) && Prepare(d0, a).before == a.before
    ensures var runs := Restored(Prepare(d0, a), d.runs);
      && (i in runs <==> i in d0.runs)
      && (i in runs ==> runs[i] == d0.runs[i] || (d0.runs[i].Some? && runs[i] == Some(d0.runs[i].value.(repetitions := Prior(d0, a)))))
  {
    assert a.before != [] ==> |a.before| == |a.pending|;
    hide Admissible, Readable, Prepare;
    if i in Ids(a.pending) {
      var k := Index(Ids(a.pending), i);
      assert RunInFlight(d0, d, a, k);
      if a.before != [] {
        ReusedImage(batch, d0, a, k);
      } else {
        FreshRun(batch, d0, a, k);
      }
    }
  }

  lemma {:induction false} FreshRun(batch: Id, d: Disk, a: Admission, k: nat)
    requires Admissible(batch, d, a) && a.before == [] && k < |a.pending|
    ensures a.pending[k].id !in d.runs
  {
  }

  /** Any run of the batch looks the same under the old record and the cleared one. */
  lemma {:induction false} SameProjection(batch: Id, d: Disk, a: Admission, e: Experiment)
    requires Admissible(batch, d, a) && e.id in d.runs && d.runs[e.id] == Some(e) && e.batch == batch
    ensures var r := Some(Cleared(Prepare(d, a)));
      && Shown(d.record, e) && Shown(r, e) && Shown(r, e.(repetitions := Prior(d, a)))
      && Project(r, e) == Project(d.record, e) == Project(r, e.(repetitions := Prior(d, a)))
  {
    hide Distinct, MembersOk, Fresh, Reuses, Readable;
  }

  lemma {:induction false} RestoredRun(batch: Id, d0: Disk, d: Disk, a: Admission, i: Id)
    requires Admissible(batch, d0, a) && InFlight(d0, d, a)
    ensures BeforeOkPart(batch, d0, a)
    ensures var r := Prepare(d0, a); var e := Disk(Some(Cleared(r)), Restored(r, d.runs)); View(batch, e, i) == View(batch, d0, i)
  {
    PrepareReadable(batch, d0, a);
    BeforeOk(batch, d0, a);
    RestoredIs(batch, d0, d, a, i);
    hide Admissible, InFlight, Readable, Restored, Prepare, Project, Shown;
    if i in d0.runs && d0.runs[i].Some? && d0.runs[i].value.batch == batch && d0.runs[i].value.id == i {
      SameProjection(batch, d0, a, d0.runs[i].value);
    }
  }

  ghost predicate BeforeOkPart(batch: Id, d: Disk, a: Admission) {
    Prepare(d, a).before != [] ==> |Prepare(d, a).before| == |Prepare(d, a).pending|
  }

  lemma {:induction false} SettledParts(batch: Id, d: Disk, a: Admission)
    requires Admissible(batch, d, a)
    ensures forall i :: i in d.runs && d.runs[i].Some? && d.runs[i].value.batch == batch ==>
      d.runs[i].value.id == i && d.runs[i].value.repetitions <= Prior(d, a)
  {
    hide Distinct, MembersOk, Fresh, Reuses, Readable;
  }

  /** The same runs, up to the total in their metadata. */
  ghost predicate SameRuns(from: map<Id, Option<Experiment>>, runs: map<Id, Option<Experiment>>, prior: nat) {
    forall i ::
      && (i in runs <==> i in from)
      && (i in runs ==> runs[i] == from[i] || (from[i].Some? && runs[i] == Some(from[i].value.(repetitions := prior))))
  }

  lemma {:induction false} SettledFrom(batch: Id, from: map<Id, Option<Experiment>>, runs: map<Id, Option<Experiment>>, r: Record)
    requires Readable(batch, r) && r.pending == [] && r.before == [] && r.pendingTotal == 0
    requires SameRuns(from, runs, r.repetitions) && AllPlaced(from, r.current)
    requires forall i :: i in from && from[i].Some? && from[i].value.batch == batch ==>
      from[i].value.id == i && from[i].value.repetitions <= r.repetitions
    ensures Settled(batch, Disk(Some(r), runs))
  {
    hide Readable;
  }

  lemma {:induction false} RecoveredSettled(batch: Id, d0: Disk, d: Disk, a: Admission)
    requires Admissible(batch, d0, a) && InFlight(d0, d, a)
    ensures BeforeOkPart(batch, d0, a)
    ensures var r := Prepare(d0, a); Settled(batch, Disk(Some(Cleared(r)), Restored(r, d.runs)))
  {
    hide Admissible, InFlight, Settled, Readable, AllPlaced;
    PrepareReadable(batch, d0, a);
    BeforeOk(batch, d0, a);
    SettledParts(batch, d0, a);
    ClearedReadable(batch, Prepare(d0, a));
    hide Prepare, Restored;
    var runs := Restored(Prepare(d0, a), d.runs);
    forall i
      ensures (i in runs <==> i in d0.runs)
      ensures i in runs ==> runs[i] == d0.runs[i] || (d0.runs[i].Some? && runs[i] == Some(d0.runs[i].value.(repetitions := Prior(d0, a))))
    {
      RestoredIs(batch, d0, d, a, i);
    }
    SettledFrom(batch, d0.runs, runs, Cleared(Prepare(d0, a)));
  }

  lemma {:induction false} ClearedReadable(batch: Id, r: Record)
    requires Readable(batch, r)
    ensures Readable(batch, Cleared(r))
  {
  }

  /** Main result: whatever an interrupted admission has left behind, recovery does not
      refuse it and brings back exactly what readers saw before. */
  lemma {:induction false} InFlightRecovers(batch: Id, d0: Disk, d: Disk, a: Admission)
    requires Admissible(batch, d0, a) && InFlight(d0, d, a)
    ensures Recover(batch, d).Some? && SameView(batch, Recover(batch, d).value, d0) && Settled(batch, Recover(batch, d).value)
  {
    InFlightRestorable(batch, d0, d, a);
    RecoveredSettled(batch, d0, d, a);
    hide Admissible, InFlight, Settled, Recover;
    forall i
      ensures View(batch, Recover(batch, d).value, i) == View(batch, d0, i)
    {
      RestoredRun(batch, d0, d, a, i);
    }
  }

  /** Another total than the pending runs were to bring the batch to, another batch, or a run
      that has left the queue: nothing that an unfinished admission can have written. */
  predicate Foreign(batch: Id, r: Record, e: Experiment) {
    || e.batch != batch || e.state != Queued || e.started
    || e.repetitions != (if r.pendingTotal != 0 then r.pendingTotal else r.repetitions + |r.pending|)
  }

  /** Recovery refuses exactly unreadable records and those naming a new run that is not one
      of an unfinished admission. */
  lemma {:induction false} RecoveryRefuses(batch: Id, d: Disk)
    ensures Recover(batch, d) == None <==>
      && d.record.Some?
      && (|| !Readable(batch, d.record.value)
          || (d.record.value.before == []
              && exists i :: i in d.record.value.pending && i in d.runs && d.runs[i].Some? && Foreign(batch, d.record.value, d.runs[i].value)))
  {
    hide Readable;
    if d.record.Some? && d.record.value.before == [] && !CanRestore(batch, d.record.value, d.runs) {
      var i :| i in d.record.value.pending && i in d.runs && !Removable(batch, Total(d.record.value), d.runs[i]);
      assert Foreign(batch, d.record.value, d.runs[i].value);
    }
  }

  /** Recovery touches only runs that the record names: it removes directories of queued,
      never-started runs of this batch, or puts an image of such a run back. */
  lemma {:induction false} RecoverySpares(batch: Id, d: Disk, i: Id)
    requires Recover(batch, d).Some?
    ensures var e := Recover(batch, d).value;
      && (i in e.runs ==> i in d.runs)
      && (i in d.runs && !(i in e.runs && e.runs[i] == d.runs[i]) ==>
            && d.record.Some? && i in d.record.value.pending
            && (if i in e.runs then e.runs[i].Some? && e.runs[i].value in d.record.value.before
                                    && e.runs[i].value.id == i && e.runs[i].value.batch == batch && !e.runs[i].value.started
                else d.runs[i].Some? ==> d.runs[i].value.batch == batch && d.runs[i].value.state == Queued && !d.runs[i].value.started))
      && (d.record.Some? ==> e.record == Some(d.record.value.(pending := [], before := e.record.value.before, pendingTotal := e.record.value.pendingTotal)))
      && (d.record.Some? && d.record.value.pending != [] ==> i in d.record.value.pending && i in e.runs ==> d.record.value.before != [])
  {
    if d.record.Some? && d.record.value.pending != [] && i in d.record.value.pending && i in d.runs && d.record.value.before != [] {
      var r := d.record.value;
      var k := Index(r.pending, i);
      assert r.before[k].id == r.pending[k] && r.before[k] in r.before;
    }
  }

  /** Recovery is idempotent, and does nothing between admissions. */
  lemma {:induction false} RecoverTwice(batch: Id, d: Disk)
    requires Recover(batch, d).Some?
    ensures Recover(batch, Recover(batch, d).value) == Recover(batch, d)
  {
  }

  lemma {:induction false} InvisibleRun(batch: Id, d0: Disk, d: Disk, a: Admission, i: Id)
    requires Admissible(batch, d0, a) && InFlight(d0, d, a) && a.before == []
    ensures View(batch, d, i) == View(batch, d0, i)
  {
    PrepareReadable(batch, d0, a);
    hide Admissible, Prepare, Readable, AllPlaced;
    if i in Ids(a.pending) {
      var k := Index(Ids(a.pending), i);
      FreshRun(batch, d0, a, k);
    } else if i in d0.runs && d0.runs[i].Some? && d0.runs[i].value.batch == batch && d0.runs[i].value.id == i {
      SameProjection(batch, d0, a, d0.runs[i].value);
    }
  }

  /** New runs stay invisible even before recovery. */
  lemma {:induction false} PendingInvisible(batch: Id, d0: Disk, d: Disk, a: Admission)
    requires Admissible(batch, d0, a) && InFlight(d0, d, a) && a.before == []
    ensures SameView(batch, d, d0)
  {
    hide Admissible, InFlight, View;
    forall i
      ensures View(batch, d, i) == View(batch, d0, i)
    {
      InvisibleRun(batch, d0, d, a, i);
    }
  }

  // ---------- The committed admission ----------

  function Written(runs: map<Id, Option<Experiment>>, pending: seq<Experiment>): map<Id, Option<Experiment>> {
    map i | i in runs.Keys + (set e | e in pending :: e.id) ::
      if i in Ids(pending) then Some(pending[Index(Ids(pending), i)]) else runs[i]
  }

  function Committed(d: Disk, a: Admission): Disk {
    Disk(Some(Commit(d, a)), Written(d.runs, a.pending))
  }

  lemma {:induction false} PublishOk(runs: map<Id, Option<Experiment>>, current: map<nat, Id>, pending: seq<Experiment>, repetitions: nat)
    requires CurrentOk(current, repetitions)
    requires forall k :: 0 <= k < |pending| ==> 1 <= pending[k].iteration <= repetitions
    requires forall j, k :: 0 <= j < k < |pending| ==> pending[j].id != pending[k].id && pending[j].iteration != pending[k].iteration
    requires forall k, n :: 0 <= k < |pending| && n in current && current[n] == pending[k].id ==> n == pending[k].iteration
    ensures CurrentOk(Publish(current, pending), repetitions)
    ensures forall n :: n in Publish(current, pending) ==>
      (n in current && Publish(current, pending)[n] == current[n]) || (exists k :: 0 <= k < |pending| && Publish(current, pending)[n] == pending[k].id && n == pending[k].iteration)
    decreases |pending|
  {
    if pending != [] {
      var next := current[pending[0].iteration := pending[0].id];
      var rest := pending[1..];
      assert forall k :: 0 <= k < |rest| ==> rest[k] == pending[k + 1];
      PublishOk(runs, next, rest, repetitions);
      forall n | n in Publish(current, pending) && !(n in current && Publish(current, pending)[n] == current[n])
        ensures exists k :: 0 <= k < |pending| && Publish(current, pending)[n] == pending[k].id && n == pending[k].iteration
      {
        if !(n in next && Publish(next, rest)[n] == next[n]) {
          var k :| 0 <= k < |rest| && Publish(next, rest)[n] == rest[k].id && n == rest[k].iteration;
          assert pending[k + 1] == rest[k];
        } else {
          assert n == pending[0].iteration;
        }
      }
    }
  }

  /** What the record calls current for a pending identity, it calls so at that iteration. */
  lemma {:induction false} PendingPlaced(batch: Id, d: Disk, a: Admission, k: nat, n: nat)
    requires Admissible(batch, d, a) && k < |a.pending|
    requires n in Prepare(d, a).current && Prepare(d, a).current[n] == a.pending[k].id
    ensures n == a.pending[k].iteration
  {
    BaseOk(batch, d, a);
    FillOk(d.runs, Base(d, a).current, a.members, Prior(d, a));
    var current := Fill(Base(d, a).current, a.members);
    assert Places(d.runs, current[n], n);
    if a.before == [] {
      FreshRun(batch, d, a, k);
      hide Admissible;
      assert forall j :: 0 <= j < |a.members| ==> MemberOk(d.runs, a.members[j], Prior(d, a)) && a.members[j].id != a.pending[k].id;
      FillAvoids(Base(d, a).current, a.members, a.pending[k].id);
      assert false;
    } else {
      ReusedImage(batch, d, a, k);
      assert a.before[k].iteration == a.pending[k].iteration;
    }
  }

  lemma {:induction false} PendingApart(batch: Id, d: Disk, a: Admission)
    requires Admissible(batch, d, a)
    ensures forall j, k :: 0 <= j < k < |a.pending| ==> a.pending[j].id != a.pending[k].id && a.pending[j].iteration != a.pending[k].iteration
    ensures forall k :: 0 <= k < |a.pending| ==> 1 <= a.pending[k].iteration <= a.total
    ensures 1 <= Prior(d, a) <= a.total <= MAX_REPETITIONS
  {
    hide Settled, MembersOk, Fresh, Reuses;
    forall j, k | 0 <= j < k < |a.pending|
      ensures a.pending[j].id != a.pending[k].id && a.pending[j].iteration != a.pending[k].iteration
    {
      assert Ids(a.pending)[j] != Ids(a.pending)[k];
    }
  }

  /** The published record: readable, and every current run at its iteration. */
  lemma {:induction false} PublishedOk(batch: Id, d: Disk, a: Admission)
    requires Admissible(batch, d, a)
    ensures CurrentOk(Publish(Prepare(d, a).current, a.pending), a.total)
    ensures AllPlaced(Written(d.runs, a.pending), Publish(Prepare(d, a).current, a.pending))
  {
    PrepareReadable(batch, d, a);
    var current := Prepare(d, a).current;
    assert CurrentOk(current, Prior(d, a));
    hide Readable;
    PendingApart(batch, d, a);
    forall k, n | 0 <= k < |a.pending| && n in current && current[n] == a.pending[k].id
      ensures n == a.pending[k].iteration
    {
      PendingPlaced(batch, d, a, k, n);
    }
    hide Admissible, Prepare;
    assert CurrentOk(current, a.total);
    PublishOk(d.runs, current, a.pending, a.total);
    PublishedPlaced(d.runs, current, a.pending);
  }

  lemma {:induction false} PublishedPlaced(runs: map<Id, Option<Experiment>>, current: map<nat, Id>, pending: seq<Experiment>)
    requires AllPlaced(runs, current)
    requires forall k, n :: 0 <= k < |pending| && n in current && current[n] == pending[k].id ==> n == pending[k].iteration
    requires forall j, k :: 0 <= j < k < |pending| ==> pending[j].id != pending[k].id
    requires forall n :: n in Publish(current, pending) ==>
      (n in current && Publish(current, pending)[n] == current[n]) || (exists k :: 0 <= k < |pending| && Publish(current, pending)[n] == pending[k].id && n == pending[k].iteration)
    ensures AllPlaced(Written(runs, pending), Publish(current, pending))
  {
    hide Publish;
    var p := Publish(current, pending);
    forall n | n in p
      ensures Places(Written(runs, pending), p[n], n)
    {
      if p[n] in Ids(pending) {
        var j := Index(Ids(pending), p[n]);
        assert pending[j].id == p[n];
      }
    }
  }

  lemma {:induction false} CommitReadable(batch: Id, d: Disk, a: Admission)
    requires Admissible(batch, d, a)
    ensures Readable(batch, Commit(d, a)) && AllPlaced(Written(d.runs, a.pending), Commit(d, a).current)
  {
    PublishedOk(batch, d, a);
    PendingApart(batch, d, a);
    hide Admissible, Prepare, Publish, AllPlaced, CurrentOk, Written;
  }

  /** What readers see of run i once the admission is committed. */
  ghost function AfterView(batch: Id, d: Disk, a: Admission, i: Id): Option<Seen> {
    var superseded := Predecessors(a.pending);
    if i in Ids(a.pending) then Some(Seen(a.pending[Index(Ids(a.pending), i)], i in Base(d, a).retired + superseded))
    else if View(batch, d, i).None? then None
    else Some(Seen(View(batch, d, i).value.run.(repetitions := a.total), View(batch, d, i).value.superseded || i in superseded))
  }

  lemma {:induction false} PendingRun(batch: Id, d: Disk, a: Admission, i: Id)
    requires Admissible(batch, d, a) && i in Ids(a.pending)
    ensures var e := a.pending[Index(Ids(a.pending), i)];
            e.id == i && e.batch == batch && e.repetitions == a.total && Prior(d, a) <= a.total
  {
  }

  /** The commit publishes exactly the pending runs, gives every run the new total and
      supersedes exactly the named predecessors. */
  lemma {:induction false} CommittedView(batch: Id, d: Disk, a: Admission, i: Id)
    requires Admissible(batch, d, a)
    ensures View(batch, Committed(d, a), i) == AfterView(batch, d, a, i)
  {
    if i in Ids(a.pending) {
      PendingRun(batch, d, a, i);
    } else {
      SettledParts(batch, d, a);
      if i in d.runs && d.runs[i].Some? && d.runs[i].value.batch == batch {
        SameProjection(batch, d, a, d.runs[i].value);
        assert Prior(d, a) <= a.total;
      }
      hide Admissible, Fill, Publish;
    }
  }

  lemma {:induction false} CommittedSettled(batch: Id, d: Disk, a: Admission)
    requires Admissible(batch, d, a)
    ensures Settled(batch, Committed(d, a))
  {
    CommitReadable(batch, d, a);
    SettledParts(batch, d, a);
    assert Prior(d, a) <= a.total;
    var e := Committed(d, a);
    forall i | i in e.runs && e.runs[i].Some? && e.runs[i].value.batch == batch
      ensures e.runs[i].value.id == i && e.runs[i].value.repetitions <= a.total
    {
      if i in Ids(a.pending) {
        PendingRun(batch, d, a, i);
      }
    }
    hide Admissible, Readable, Prepare, Publish;
  }

  // ---------- Interrupted rollback ----------

  /** Some of the pending runs have been taken back, or half taken back. */
  ghost predicate Midway(batch: Id, r: Record, from: map<Id, Option<Experiment>>, runs: map<Id, Option<Experiment>>) {
    && (forall i :: i !in r.pending ==> (i in runs <==> i in from) && (i in from ==> runs[i] == from[i]))
    && (forall i :: i in r.pending && r.before != [] ==> (i in runs <==> i in from))
    && (forall i :: i in r.pending && r.before == [] && i in runs ==> i in from)
    && (forall i :: i in r.pending && r.before == [] && i in from && !(i in runs && runs[i] == from[i]) ==>
          Removable(batch, Total(r), from[i]) && (i in runs ==> runs[i] == None))
  }

  lemma {:induction false} MidwayRecovers(batch: Id, r: Record, from: map<Id, Option<Experiment>>, runs: map<Id, Option<Experiment>>)
    requires Readable(batch, r) && Midway(batch, r, from, runs)
    ensures Recover(batch, Disk(Some(r), runs)) == Recover(batch, Disk(Some(r), from))
  {
    hide Readable;
    if r.pending != [] {
      assert CanRestore(batch, r, runs) <==> CanRestore(batch, r, from);
      assert |r.before| == |r.pending| || r.before == [] by { ImageCount(batch, r); }
      assert Restored(r, runs) == Restored(r, from);
    } else {
      assert runs == from;
    }
  }

  lemma {:induction false} ImageCount(batch: Id, r: Record)
    requires Readable(batch, r)
    ensures r.before != [] ==> |r.before| == |r.pending|
  {
  }

  // ---------- In place ----------

  /** Recovery makes this state exactly what was before, for readers, or exactly the
      committed state. */
  ghost predicate Outcome(batch: Id, d0: Disk, a: Admission, d: Disk) {
    var r := Recover(batch, d);
    r.Some? && Settled(batch, r.value) && (SameView(batch, r.value, d0) || r.value == Committed(d0, a))
  }

  ghost predicate WrittenUpTo(d0: Disk, runs: map<Id, Option<Experiment>>, a: Admission, k: nat) {
    && k <= |a.pending|
    && (forall i :: i !in Ids(a.pending) ==> (i in runs <==> i in d0.runs) && (i in d0.runs ==> runs[i] == d0.runs[i]))
    && (forall j :: 0 <= j < k ==> a.pending[j].id in runs && runs[a.pending[j].id] == Some(a.pending[j]))
    && (forall j :: k <= j < |a.pending| ==>
          (a.pending[j].id in runs <==> a.pending[j].id in d0.runs) && (a.pending[j].id in runs ==> runs[a.pending[j].id] == d0.runs[a.pending[j].id]))
  }

  lemma {:induction false} NotBegun(batch: Id, d0: Disk, a: Admission)
    requires Admissible(batch, d0, a)
    ensures Outcome(batch, d0, a, d0)
  {
    hide Readable;
  }

  lemma {:induction false} InFlightOutcome(batch: Id, d0: Disk, d: Disk, a: Admission)
    requires Admissible(batch, d0, a) && InFlight(d0, d, a)
    ensures Outcome(batch, d0, a, d)
  {
    hide Admissible, InFlight, Recover, Settled, SameView;
    InFlightRecovers(batch, d0, d, a);
  }

  lemma {:induction false} PendingFacts(batch: Id, d0: Disk, a: Admission)
    requires Admissible(batch, d0, a)
    ensures forall j, k :: 0 <= j < k < |a.pending| ==> a.pending[j].id != a.pending[k].id
    ensures a.before == [] ==> forall k :: 0 <= k < |a.pending| ==> a.pending[k].id !in d0.runs
    ensures a.before != [] ==> |a.before| == |a.pending| && forall k :: 0 <= k < |a.pending| ==> a.pending[k].id in d0.runs
  {
    forall j, k | 0 <= j < k < |a.pending|
      ensures a.pending[j].id != a.pending[k].id
    {
      assert Ids(a.pending)[j] != Ids(a.pending)[k];
    }
    hide Settled, MembersOk;
    forall k | 0 <= k < |a.pending| && a.before != []
      ensures a.pending[k].id in d0.runs
    {
      ReusedImage(batch, d0, a, k);
    }
  }

  lemma {:induction false} WrittenInFlight(batch: Id, d0: Disk, runs: map<Id, Option<Experiment>>, a: Admission, k: nat)
    requires Admissible(batch, d0, a) && WrittenUpTo(d0, runs, a, k)
    ensures InFlight(d0, Disk(Some(Prepare(d0, a)), runs), a)
  {
    PendingFacts(batch, d0, a);
    hide Admissible, Prepare;
  }

  lemma {:induction false} NothingWritten(batch: Id, d0: Disk, a: Admission)
    requires Admissible(batch, d0, a)
    ensures WrittenUpTo(d0, d0.runs, a, 0) && Outcome(batch, d0, a, Disk(Some(Prepare(d0, a)), d0.runs))
  {
    WrittenInFlight(batch, d0, d0.runs, a, 0);
    hide Admissible, InFlight, Outcome, Prepare;
    InFlightOutcome(batch, d0, Disk(Some(Prepare(d0, a)), d0.runs), a);
  }

  /** Writing the next run, whether it succeeds, fails or half fails. */
  lemma {:induction false} NextRun(batch: Id, d0: Disk, runs: map<Id, Option<Experiment>>, a: Admission, k: nat)
    requires Admissible(batch, d0, a) && k < |a.pending| && WrittenUpTo(d0, runs, a, k)
    ensures var e := a.pending[k];
      && (a.before == [] <==> e.id !in runs)
      && WrittenUpTo(d0, runs[e.id := Some(e)], a, k + 1)
      && Outcome(batch, d0, a, Disk(Some(Prepare(d0, a)), runs))
      && Outcome(batch, d0, a, Disk(Some(Prepare(d0, a)), runs[e.id := Some(e)]))
      && (a.before == [] ==> Outcome(batch, d0, a, Disk(Some(Prepare(d0, a)), runs[e.id := None])))
  {
    var e := a.pending[k];
    PendingFacts(batch, d0, a);
    assert a.before == [] <==> e.id !in runs;
    hide Admissible, Outcome, Prepare, InFlight, WrittenUpTo;
    WrittenInFlight(batch, d0, runs, a, k);
    InFlightOutcome(batch, d0, Disk(Some(Prepare(d0, a)), runs), a);
    WrittenMore(d0, runs, a, k);
    WrittenInFlight(batch, d0, runs[e.id := Some(e)], a, k + 1);
    InFlightOutcome(batch, d0, Disk(Some(Prepare(d0, a)), runs[e.id := Some(e)]), a);
    if a.before == [] {
      HalfWritten(d0, runs, a, k);
      InFlightOutcome(batch, d0, Disk(Some(Prepare(d0, a)), runs[e.id := None]), a);
    }
  }

  lemma {:induction false} WrittenMore(d0: Disk, runs: map<Id, Option<Experiment>>, a: Admission, k: nat)
    requires k < |a.pending| && WrittenUpTo(d0, runs, a, k)
    requires forall i, j :: 0 <= i < j < |a.pending| ==> a.pending[i].id != a.pending[j].id
    ensures WrittenUpTo(d0, runs[a.pending[k].id := Some(a.pending[k])], a, k + 1)
  {
    assert a.pending[k].id in Ids(a.pending) by { assert Ids(a.pending)[k] == a.pending[k].id; }
  }

  lemma {:induction false} HalfWritten(d0: Disk, runs: map<Id, Option<Experiment>>, a: Admission, k: nat)
    requires k < |a.pending| && a.before == [] && InFlight(d0, Disk(Some(Prepare(d0, a)), runs), a)
    ensures InFlight(d0, Disk(Some(Prepare(d0, a)), runs[a.pending[k].id := None]), a)
  {
    hide Prepare;
    assert a.pending[k].id in Ids(a.pending) by { assert Ids(a.pending)[k] == a.pending[k].id; }
    var d, e := Disk(Some(Prepare(d0, a)), runs), Disk(Some(Prepare(d0, a)), runs[a.pending[k].id := None]);
    forall j | 0 <= j < |a.pending|
      ensures RunInFlight(d0, e, a, j)
    {
      assert RunInFlight(d0, d, a, j);
    }
  }

  lemma {:induction false} SameIds(pending: seq<Experiment>)
    ensures forall i :: i in (set e | e in pending :: e.id) <==> i in Ids(pending)
  {
    forall i | i in Ids(pending)
      ensures i in (set e | e in pending :: e.id)
    {
      var j := Index(Ids(pending), i);
      assert pending[j].id == i && pending[j] in pending;
    }
    forall i | i in (set e | e in pending :: e.id)
      ensures i in Ids(pending)
    {
      var e :| e in pending && e.id == i;
      var j :| 0 <= j < |pending| && pending[j] == e;
      assert Ids(pending)[j] == i;
    }
  }

  lemma {:induction false} WrittenIs(d0: Disk, runs: map<Id, Option<Experiment>>, a: Admission)
    requires WrittenUpTo(d0, runs, a, |a.pending|)
    ensures runs == Written(d0.runs, a.pending)
  {
    SameIds(a.pending);
    forall i | i in Ids(a.pending)
      ensures i in runs && runs[i] == Some(a.pending[Index(Ids(a.pending), i)])
    {
      assert a.pending[Index(Ids(a.pending), i)].id == i;
    }
  }

  lemma {:induction false} SettledIsStable(batch: Id, d: Disk)
    requires Settled(batch, d)
    ensures Recover(batch, d) == Some(d)
  {
    hide Readable;
  }

  lemma {:induction false} AllWritten(batch: Id, d0: Disk, runs: map<Id, Option<Experiment>>, a: Admission)
    requires Admissible(batch, d0, a) && WrittenUpTo(d0, runs, a, |a.pending|)
    ensures Disk(Some(Commit(d0, a)), runs) == Committed(d0, a)
    ensures Outcome(batch, d0, a, Committed(d0, a))
  {
    hide Admissible, Commit, WrittenUpTo, Written, Settled, Recover, SameView;
    CommittedSettled(batch, d0, a);
    SettledIsStable(batch, Committed(d0, a));
    WrittenIs(d0, runs, a);
  }

  lemma {:induction false} StillOutcome(batch: Id, d0: Disk, a: Admission, stuck: Disk)
    requires Outcome(batch, d0, a, stuck)
    ensures forall d :: Recover(batch, d) == Recover(batch, stuck) ==> Outcome(batch, d0, a, d)
  {
    hide Recover, Settled, SameView, Committed;
  }

  datatype Result = Done | Refused | StorageError

  class BatchStore {
    const batch: Id
    var record: Option<Record>
    var runs: map<Id, Option<Experiment>>
    /** Every state of the disk after a storage operation, and every state a crash may make of it. */
    ghost var images: seq<Disk>
    /** How many storage operations have failed. */
    ghost var faults: nat

    constructor (batch: Id, d: Disk)
      ensures this.batch == batch && Now() == d && images == []
    {
      this.batch, record, runs, images, faults := batch, d.record, d.runs, [], 0;
    }

    function Now(): Disk
      reads this
    {
      Disk(record, runs)
    }

    twostate predicate OneImage()
      reads this
    {
      images == old(images) + [Now()]
    }

    /** Replace the record. Until the rename is synced, a crash may bring the old one back. */
    method WriteRecord(r: Record) returns (write: Write)
      modifies this
      ensures runs == old(runs) && record == if write.Failed? then old(record) else Some(r)
      ensures images == old(images) + (if write.Renamed? then [old(Now())] else []) + [Now()]
      ensures faults == old(faults) + if write.Saved? then 0 else 1
    {
      if * {
        write := Write.Failed;
      } else {
        if * { write := Saved; } else { write := Renamed; }
        images := images + if write.Renamed? then [Now()] else [];
        record := Some(r);
      }
      images, faults := images + [Now()], faults + if write.Saved? then 0 else 1;
    }

    /** Create the directory and its metadata; a failure may leave the directory alone. */
    method CreateRun(e: Experiment) returns (ok: bool)
      requires e.id !in runs
      modifies this
      ensures OneImage() && record == old(record)
      ensures runs in {old(runs), old(runs)[e.id := None], old(runs)[e.id := Some(e)]}
      ensures ok ==> runs == old(runs)[e.id := Some(e)]
      ensures faults == old(faults) + if ok then 0 else 1
    {
      ok := *;
      if ok {
        runs := runs[e.id := Some(e)];
      } else if * {
        runs := runs[e.id := None];
      } else if * {
        runs := runs[e.id := Some(e)];
      }
      images, faults := images + [Now()], faults + if ok then 0 else 1;
    }

    method ReplaceRun(i: Id, e: Experiment) returns (ok: bool)
      requires i in runs
      modifies this
      ensures OneImage() && record == old(record)
      ensures runs == old(runs) || runs == old(runs)[i := Some(e)]
      ensures ok ==> runs == old(runs)[i := Some(e)]
      ensures faults == old(faults) + if ok then 0 else 1
    {
      ok := *;
      if ok {
        runs := runs[i := Some(e)];
      } else if * {
        runs := runs[i := Some(e)];
      }
      images, faults := images + [Now()], faults + if ok then 0 else 1;
    }

    /** Remove a directory; a failure may have removed its metadata only. */
    method RemoveRun(i: Id) returns (ok: bool)
      requires i in runs
      modifies this
      ensures OneImage() && record == old(record)
      ensures runs in {old(runs), old(runs)[i := None], old(runs) - {i}}
      ensures ok ==> runs == old(runs) - {i}
      ensures faults == old(faults) + if ok then 0 else 1
    {
      ok := *;
      if ok {
        runs := runs - {i};
      } else if * {
        runs := runs[i := None];
      } else if * {
        runs := runs - {i};
      }
      images, faults := images + [Now()], faults + if ok then 0 else 1;
    }

    /** Take back an uncommitted admission. At every step, recovery would still end in the
        same state; it refuses exactly what is not an uncommitted admission. */
    method Rollback() returns (result: Result)
      modifies this
      ensures old(images) <= images
      ensures forall k :: |old(images)| <= k < |images| ==> Recover(batch, images[k]) == Recover(batch, old(Now()))
      ensures result == Done ==> Recover(batch, old(Now())) == Some(Now())
      ensures result == Refused ==> Recover(batch, old(Now())) == None
      ensures Recover(batch, Now()) == Recover(batch, old(Now()))
      ensures old(faults) <= faults && (result == StorageError <==> old(faults) < faults)
    {
      hide Readable;
      if record.None? {
        return Done;
      }
      var r := record.value;
      if !Readable(batch, r) {
        return Refused;
      }
      if r.pending == [] {
        return Done;
      }
      ImageCount(batch, r);
      ghost var from := runs;
      hide Recover, Midway;
      MidwayStart(batch, r, from);
      for k := 0 to |r.pending|
        invariant record == Some(r) && Midway(batch, r, from, runs) && old(images) <= images && faults == old(faults)
        invariant forall n :: |old(images)| <= n < |images| ==> Recover(batch, images[n]) == Recover(batch, old(Now()))
        invariant forall j :: 0 <= j < k && r.pending[j] in runs ==> r.before != [] && runs[r.pending[j]] == Some(r.before[j])
      {
        var i := r.pending[k];
        PendingDistinct(batch, r, k);
        if i in runs {
          var ok;
          if r.before != [] {
            MidwayReplace(batch, r, from, runs, i, r.before[k]);
            ok := ReplaceRun(i, r.before[k]);
          } else {
            if !Removable(batch, Total(r), runs[i]) {
              Unrestorable(batch, r, runs, i);
              MidwayRecovers(batch, r, from, runs);
              return Refused;
            }
            MidwayRemove(batch, r, from, runs, i);
            ok := RemoveRun(i);
          }
          MidwayRecovers(batch, r, from, runs);
          if !ok {
            return StorageError;
          }
        }
      }
      MidwayRecovers(batch, r, from, runs);
      AllRestored(batch, r, runs);
      var write := WriteRecord(Cleared(r));
      ClearedIsStable(batch, r, runs);
      result := if write.Saved? then Done else StorageError;
    }

    /** Admit runs: prepare, write them, publish. It succeeds unless a storage operation fails. Success means that readers see the new
        runs; and each state on the way, success or not, recovers to exactly the old view
        or to exactly the committed state. */
    method Admit(a: Admission) returns (ok: bool)
      requires Admissible(batch, Now(), a)
      modifies this
      ensures ok ==> Now() == Committed(old(Now()), a)
      ensures ok <==> faults == old(faults)
      ensures old(images) <= images && Outcome(batch, old(Now()), a, Now())
      ensures forall k :: |old(images)| <= k < |images| ==> Outcome(batch, old(Now()), a, images[k])
    {
      hide Admissible, Outcome, Committed, Prepare, Commit, InFlight, Recover, WrittenUpTo;
      var d0 := Now();
      NotBegun(batch, d0, a);
      NothingWritten(batch, d0, a);
      var r := Prepare(Now(), a);
      var write := WriteRecord(r);
      if !write.Saved? {
        return false;
      }
      for k := 0 to |a.pending|
        invariant Now() == Disk(Some(Prepare(d0, a)), runs) && WrittenUpTo(d0, runs, a, k)
        invariant old(images) <= images && Outcome(batch, d0, a, Now()) && faults == old(faults)
        invariant forall n :: |old(images)| <= n < |images| ==> Outcome(batch, d0, a, images[n])
      {
        var e := a.pending[k];
        NextRun(batch, d0, runs, a, k);
        if a.before == [] {
          ok := CreateRun(e);
        } else {
          ok := ReplaceRun(e.id, e);
        }
        if !ok {
          ghost var stuck := Now();
          var result := Rollback();
          StillOutcome(batch, d0, a, stuck);
          return false;
        }
      }
      AllWritten(batch, d0, runs, a);
      write := WriteRecord(Commit(d0, a));
      if write.Saved? {
        return true;
      }
      ghost var stuck := Now();
      var result := Rollback();
      StillOutcome(batch, d0, a, stuck);
      return false;
    }
  }

  lemma {:induction false} MidwayStart(batch: Id, r: Record, from: map<Id, Option<Experiment>>)
    ensures Midway(batch, r, from, from)
  {
  }

  lemma {:induction false} PendingDistinct(batch: Id, r: Record, k: nat)
    requires Readable(batch, r) && k < |r.pending|
    ensures forall j :: 0 <= j < |r.pending| && j != k ==> r.pending[j] != r.pending[k]
  {
  }

  lemma {:induction false} MidwayReplace(batch: Id, r: Record, from: map<Id, Option<Experiment>>, runs: map<Id, Option<Experiment>>, i: Id, e: Experiment)
    requires Midway(batch, r, from, runs) && i in r.pending && i in runs && r.before != []
    ensures Midway(batch, r, from, runs[i := Some(e)])
  {
  }

  lemma {:induction false} MidwayRemove(batch: Id, r: Record, from: map<Id, Option<Experiment>>, runs: map<Id, Option<Experiment>>, i: Id)
    requires Midway(batch, r, from, runs) && i in r.pending && i in runs && r.before == [] && Removable(batch, Total(r), runs[i])
    ensures Midway(batch, r, from, runs[i := None]) && Midway(batch, r, from, runs - {i})
  {
  }

  lemma {:induction false} Unrestorable(batch: Id, r: Record, runs: map<Id, Option<Experiment>>, i: Id)
    requires Readable(batch, r) && r.before == [] && i in r.pending && i in runs && !Removable(batch, Total(r), runs[i])
    ensures Recover(batch, Disk(Some(r), runs)) == None
  {
    assert r.pending != [];
  }

  lemma {:induction false} AllRestored(batch: Id, r: Record, runs: map<Id, Option<Experiment>>)
    requires Readable(batch, r) && r.pending != []
    requires r.before != [] ==> |r.before| == |r.pending|
    requires forall j :: 0 <= j < |r.pending| && r.pending[j] in runs ==> r.before != [] && runs[r.pending[j]] == Some(r.before[j])
    ensures Recover(batch, Disk(Some(r), runs)) == Some(Disk(Some(Cleared(r)), runs))
  {
    forall i | i in r.pending && i in runs
      ensures r.before != [] && runs[i] == Some(r.before[Index(r.pending, i)])
    {
      assert r.pending[Index(r.pending, i)] == i;
    }
    assert Restored(r, runs) == runs;
  }

  lemma {:induction false} ClearedIsStable(batch: Id, r: Record, runs: map<Id, Option<Experiment>>)
    requires Readable(batch, r)
    ensures Recover(batch, Disk(Some(Cleared(r)), runs)) == Some(Disk(Some(Cleared(r)), runs))
  {
  }
}
