/** Which attempt of each iteration counts, over whole histories of a batch. */
module BatchAttempts {
  import opened Wrappers
  import opened BatchAdmission
  import opened BatchMembers
  import opened BatchPlans

  // ---------- Deletion ----------

  function StoredPrevious(batch: Id, runs: map<Id, Option<Experiment>>): set<Id> {
    set j, i | j in runs && runs[j].Some? && runs[j].value.batch == batch && i in runs[j].value.previous :: i
  }

  /** The record written before a run is deleted: history is derived from the stored runs
      only when the record does not name the current attempts yet. */
  function Retained(batch: Id, d: Disk, n: Experiment, current: map<nat, Id>): Record {
    var r := if d.record.Some? then d.record.value else Record(n.repetitions, [], 0, [], {}, map[]);
    if |r.current| == 0 then r.(current := current, retired := StoredPrevious(batch, d.runs)) else r
  }

  function Deleted(batch: Id, d: Disk, n: Id, current: map<nat, Id>): Disk
    requires Deletable(batch, d, n)
  {
    Disk(Some(Retained(batch, d, d.runs[n].value, current)), d.runs - {n})
  }

  /** All stored runs of a batch that has no record yet agree on the total. */
  ghost predicate Uniform(batch: Id, d: Disk) {
    d.record.None? ==> forall i, j :: Deletable(batch, d, i) && Deletable(batch, d, j) ==>
      d.runs[i].value.repetitions == d.runs[j].value.repetitions
  }

  lemma {:induction false} MembersLeft(batch: Id, d: Disk, n: Id, current: map<nat, Id>, i: Id)
    requires Settled(batch, d) && Uniform(batch, d) && Deletable(batch, d, n)
    ensures var e := Deleted(batch, d, n, current);
      && (Member(batch, e, i) <==> Member(batch, d, i) && i != n)
      && (Member(batch, e, i) ==>
            && View(batch, e, i).value.run.previous == d.runs[i].value.previous
            && View(batch, e, i).value.superseded == (i in Retained(batch, d, d.runs[n].value, current).retired))
  {
    MembersStored(batch, d, i);
    hide Readable;
    if i != n && Deletable(batch, d, i) {
      assert d.record.None? ==> d.runs[i].value.repetitions == d.runs[n].value.repetitions;
      assert d.runs[i].value.id == i;
    }
  }

  /** Run n is the only thing that keeps run i from being current. */
  ghost predicate OnlyWitness(batch: Id, d: Disk, n: Id, i: Id)
    requires Deletable(batch, d, n)
  {
    && Member(batch, d, i) && i != n && i in d.runs[n].value.previous
    && (forall j :: Member(batch, d, j) && j != i && j != n ==> i !in View(batch, d, j).value.run.previous)
  }

  /** The condition under which deleting run n makes run i current again: the record
      already names current attempts but does not retire i, which only n does; or it
      retires i without naming current attempts, and no stored run confirms it. */
  ghost predicate Revives(batch: Id, d: Disk, n: Id, i: Id)
    requires Deletable(batch, d, n)
  {
    d.record.Some? && Member(batch, d, i) && i != n &&
    if |d.record.value.current| > 0 then i !in d.record.value.retired && OnlyWitness(batch, d, n, i)
    else i in d.record.value.retired && i !in StoredPrevious(batch, d.runs)
  }

  lemma {:induction false} ReplacedLeft(batch: Id, d: Disk, n: Id, current: map<nat, Id>, i: Id)
    requires Settled(batch, d) && Uniform(batch, d) && Deletable(batch, d, n)
    ensures Replaced(batch, Deleted(batch, d, n, current), i) <==>
      exists j :: Member(batch, d, j) && j != i && j != n && i in View(batch, d, j).value.run.previous
  {
    hide Settled, Uniform, Deletable, View, Deleted;
    var e := Deleted(batch, d, n, current);
    if Replaced(batch, e, i) {
      var j :| Member(batch, e, j) && j != i && i in View(batch, e, j).value.run.previous;
      MembersLeft(batch, d, n, current, j);
      MembersStored(batch, d, j);
      assert Member(batch, d, j) && j != i && j != n && i in View(batch, d, j).value.run.previous;
    }
    if j :| Member(batch, d, j) && j != i && j != n && i in View(batch, d, j).value.run.previous {
      MembersLeft(batch, d, n, current, j);
      MembersStored(batch, d, j);
      assert Member(batch, e, j) && j != i && i in View(batch, e, j).value.run.previous;
    }
  }

  lemma {:induction false} ListedIsStored(batch: Id, d: Disk, i: Id)
    requires Settled(batch, d)
    ensures Replaced(batch, d, i) ==> i in StoredPrevious(batch, d.runs)
  {
    if Replaced(batch, d, i) {
      var j :| Member(batch, d, j) && j != i && i in View(batch, d, j).value.run.previous;
      MembersStored(batch, d, j);
      hide Settled, View;
    }
  }

  /** Main result on deletion: exactly when Revives holds does deleting run n make an
      attempt current that was not. */
  lemma {:induction false} DeletionRevives(batch: Id, d: Disk, n: Id, current: map<nat, Id>, i: Id)
    requires Settled(batch, d) && Uniform(batch, d) && Deletable(batch, d, n)
    ensures !IsCurrent(batch, d, i) && IsCurrent(batch, Deleted(batch, d, n, current), i) <==> Revives(batch, d, n, i)
  {
    var e := Deleted(batch, d, n, current);
    MembersStored(batch, d, i);
    MembersStored(batch, d, n);
    MembersLeft(batch, d, n, current, i);
    ReplacedLeft(batch, d, n, current, i);
    ListedIsStored(batch, d, i);
    assert Replaced(batch, e, i) ==> Replaced(batch, d, i);
    hide Settled, Uniform, View, StoredPrevious;
  }

  // ---------- Every history ----------

  /** An admission that was interrupted at some point, after recovery. */
  ghost predicate Abandoned(batch: Id, d: Disk, e: Disk, a: Admission) {
    exists mid :: InFlight(d, mid, a) && Recover(batch, mid) == Some(e)
  }

  /** A run of the batch is executed: its state and its data change, its place does not. */
  ghost predicate Progressed(batch: Id, d: Disk, e: Disk, i: Id, x: Experiment) {
    && Deletable(batch, d, i) && e == d.(runs := d.runs[i := Some(x)])
    && (var was := d.runs[i].value; x == was.(repetitions := x.repetitions, state := x.state, started := x.started, content := x.content))
    && (d.record.Some? ==> x.repetitions <= d.record.value.repetitions)
  }

  /** Whatever happens to the runs of other batches. */
  ghost predicate Elsewhere(batch: Id, d: Disk, e: Disk) {
    && e.record == d.record
    && (forall i :: Deletable(batch, d, i) <==> Deletable(batch, e, i))
    && (forall i :: Deletable(batch, d, i) ==> e.runs[i] == d.runs[i])
    && (d.record.Some? ==> forall n :: n in d.record.value.current ==>
          var i := d.record.value.current[n]; (i in e.runs <==> i in d.runs) && (i in d.runs ==> e.runs[i] == d.runs[i]))
  }

  /** One step in the life of a batch: a submission, an append, a retry or a continuation,
      committed or abandoned; the progress of a run; the deletion of one; or anything that
      happens to other batches. */
  ghost predicate Next(batch: Id, d: Disk, e: Disk) {
    || (exists a, live :: Planned(batch, d, a, live) && Abandoned(batch, d, e, a))
    || (exists a, live :: Planned(batch, d, a, live) && e == Committed(d, a))
    || (exists i, x :: Progressed(batch, d, e, i, x))
    || (exists n, current :: Deletable(batch, d, n) && e == Deleted(batch, d, n, current))
    || Elsewhere(batch, d, e)
  }

  lemma {:induction false} RecordKept(batch: Id, d: Disk, n: Id, current: map<nat, Id>)
    requires Tracked(batch, d) && Deletable(batch, d, n)
    ensures d.record.Some? && Deleted(batch, d, n, current).record == d.record && Settled(batch, Deleted(batch, d, n, current))
  {
    hide Readable;
  }

  lemma {:induction false} KeepDeleted(batch: Id, d: Disk, n: Id, current: map<nat, Id>)
    requires Tracked(batch, d) && Deletable(batch, d, n)
    ensures Tracked(batch, Deleted(batch, d, n, current))
  {
    var e := Deleted(batch, d, n, current);
    RecordKept(batch, d, n, current);
    forall i, j | IsCurrent(batch, e, i) && IsCurrent(batch, e, j) && Iteration(batch, e, i) == Iteration(batch, e, j)
      ensures i == j
    {
      CurrentMeans(batch, d, i);
      CurrentMeans(batch, d, j);
      MembersStored(batch, e, i);
      MembersStored(batch, e, j);
      MembersStored(batch, d, i);
      MembersStored(batch, d, j);
    }
    hide Settled, IsCurrent;
  }

  /** A stored run after an admission: an old one, or a pending one. */
  lemma {:induction false} StoredAfter(batch: Id, d: Disk, a: Admission, i: Id)
    requires Admissible(batch, d, a)
    ensures var e := Committed(d, a);
      && (i in Ids(a.pending) ==> Deletable(batch, e, i) && e.runs[i].value == a.pending[Index(Ids(a.pending), i)])
      && (i !in Ids(a.pending) ==> (Deletable(batch, e, i) <==> Deletable(batch, d, i)) && (Deletable(batch, d, i) ==> e.runs[i] == d.runs[i]))
  {
    SameIds(a.pending);
    if i in Ids(a.pending) {
      PendingRun(batch, d, a, i);
    }
    hide Admissible, Commit;
  }

  lemma {:induction false} RetiredAfter(batch: Id, d: Disk, a: Admission)
    requires Admissible(batch, d, a)
    ensures Committed(d, a).record.Some? && |Committed(d, a).record.value.current| > 0
    ensures d.record.Some? ==> d.record.value.retired <= Committed(d, a).record.value.retired
    ensures forall k, p :: 0 <= k < |a.pending| && p in a.pending[k].previous ==> p in Committed(d, a).record.value.retired
  {
    assert |a.pending| > 0;
    hide Admissible;
    PublishNotEmpty(Prepare(d, a).current, a.pending);
    var e := Committed(d, a).record.value;
    forall k, p | 0 <= k < |a.pending| && p in a.pending[k].previous
      ensures p in e.retired
    {
      assert a.pending[k] in a.pending;
      assert p in Predecessors(a.pending);
    }
  }

  lemma {:induction false} PublishNotEmpty(current: map<nat, Id>, pending: seq<Experiment>)
    requires pending != []
    ensures |Publish(current, pending)| > 0
    decreases |pending|
  {
    var next := current[pending[0].iteration := pending[0].id];
    if |pending| > 1 {
      PublishNotEmpty(next, pending[1..]);
    } else {
      assert pending[0].iteration in next;
      assert next.Keys != {};
    }
  }

  lemma {:induction false} AfterPrevious(batch: Id, d: Disk, a: Admission, i: Id, p: Id)
    requires Tracked(batch, d) && Admissible(batch, d, a)
    requires Deletable(batch, Committed(d, a), i) && p in Committed(d, a).runs[i].value.previous
    ensures Committed(d, a).record.Some? && p in Committed(d, a).record.value.retired
  {
    hide Admissible, IsCurrent, Settled, Committed;
    StoredAfter(batch, d, a, i);
    RetiredAfter(batch, d, a);
  }

  /** A current run after an admission is a pending one, or was current and is not replaced. */
  lemma {:induction false} CurrentAfter(batch: Id, d: Disk, a: Admission, i: Id)
    requires Tracked(batch, d) && Admissible(batch, d, a) && AttemptsOk(batch, d, a)
    requires IsCurrent(batch, Committed(d, a), i)
    ensures var e := Committed(d, a);
      || (i in Ids(a.pending) && Iteration(batch, e, i) == a.pending[Index(Ids(a.pending), i)].iteration)
      || (i !in Ids(a.pending) && IsCurrent(batch, d, i) && Iteration(batch, e, i) == Iteration(batch, d, i)
          && forall k :: 0 <= k < |a.pending| ==> i !in a.pending[k].previous)
  {
    var e := Committed(d, a);
    StoredAfter(batch, d, a, i);
    RetiredAfter(batch, d, a);
    CommittedSettled(batch, d, a);
    MembersStored(batch, e, i);
    CurrentMeans(batch, d, i);
    MembersStored(batch, d, i);
    hide Admissible, Settled, Committed, View, AttemptsOk;
  }

  lemma {:induction false} OneCurrent(batch: Id, d: Disk, a: Admission, i: Id, j: Id)
    requires Tracked(batch, d) && Admissible(batch, d, a) && AttemptsOk(batch, d, a)
    requires IsCurrent(batch, Committed(d, a), i) && IsCurrent(batch, Committed(d, a), j)
    requires Iteration(batch, Committed(d, a), i) == Iteration(batch, Committed(d, a), j)
    ensures i == j
  {
    CurrentAfter(batch, d, a, i);
    CurrentAfter(batch, d, a, j);
    assert forall x, y :: 0 <= x < y < |a.pending| ==> a.pending[x].iteration != a.pending[y].iteration;
    hide Admissible, Settled, Committed, View;
  }

  lemma {:induction false} KeepAdmitted(batch: Id, d: Disk, a: Admission)
    requires Tracked(batch, d) && Admissible(batch, d, a) && AttemptsOk(batch, d, a)
    ensures Tracked(batch, Committed(d, a))
  {
    var e := Committed(d, a);
    CommittedSettled(batch, d, a);
    RetiredAfter(batch, d, a);
    forall i, p | Deletable(batch, e, i) && p in e.runs[i].value.previous
      ensures p in e.record.value.retired
    {
      AfterPrevious(batch, d, a, i, p);
    }
    forall i, j | IsCurrent(batch, e, i) && IsCurrent(batch, e, j) && Iteration(batch, e, i) == Iteration(batch, e, j)
      ensures i == j
    {
      OneCurrent(batch, d, a, i, j);
    }
    hide Admissible, AttemptsOk, Settled, IsCurrent, Committed;
  }

  /** A history of a batch from its first submission. */
  ghost predicate History(batch: Id, trace: seq<Disk>) {
    && trace != [] && trace[0].record.None? && (forall i :: !Deletable(batch, trace[0], i))
    && (forall k :: 0 <= k < |trace| - 1 ==> Next(batch, trace[k], trace[k + 1]))
  }

  lemma {:induction false} FillKeeps(current: map<nat, Id>, members: seq<Experiment>)
    ensures |current| > 0 ==> |Fill(current, members)| > 0
    decreases |members|
  {
    if members != [] {
      var m := members[0];
      assert |current| > 0 && m.iteration !in current ==> |FillOne(current, m)| == |current| + 1;
      FillKeeps(FillOne(current, m), members[1..]);
    }
  }

  /** An abandoned admission leaves the history as it was. */
  lemma {:induction false} AbandonedRecord(batch: Id, d: Disk, e: Disk, a: Admission)
    requires Admissible(batch, d, a) && Abandoned(batch, d, e, a)
    ensures Settled(batch, e) && SameView(batch, e, d) && e.record.Some?
    ensures d.record.Some? ==> e.record.value.retired == d.record.value.retired
    ensures d.record.Some? && |d.record.value.current| > 0 ==> |e.record.value.current| > 0
    ensures forall i :: Deletable(batch, e, i) <==> Deletable(batch, d, i)
    ensures forall i :: Deletable(batch, d, i) ==> e.runs[i].value.previous == d.runs[i].value.previous
  {
    var mid :| InFlight(d, mid, a) && Recover(batch, mid) == Some(e);
    InFlightRecovers(batch, d, mid, a);
    InFlightRestorable(batch, d, mid, a);
    PrepareReadable(batch, d, a);
    FillKeeps(Base(d, a).current, a.members);
    hide Settled, SameView;
    forall i
      ensures Deletable(batch, e, i) <==> Deletable(batch, d, i)
      ensures Deletable(batch, d, i) ==> e.runs[i].value.previous == d.runs[i].value.previous
    {
      RestoredIs(batch, d, mid, a, i);
      hide Admissible, InFlight, Recover, Readable;
    }
  }

  lemma {:induction false} SameCurrent(batch: Id, d: Disk, e: Disk, i: Id)
    requires SameView(batch, e, d)
    ensures IsCurrent(batch, e, i) <==> IsCurrent(batch, d, i)
  {
    hide View;
    if Replaced(batch, d, i) {
      var j :| Member(batch, d, j) && j != i && i in View(batch, d, j).value.run.previous;
      assert Member(batch, e, j);
    }
    if Replaced(batch, e, i) {
      var j :| Member(batch, e, j) && j != i && i in View(batch, e, j).value.run.previous;
      assert Member(batch, d, j);
    }
  }

  lemma {:induction false} KeepAbandoned(batch: Id, d: Disk, e: Disk, a: Admission)
    requires Tracked(batch, d) && Admissible(batch, d, a) && Abandoned(batch, d, e, a)
    ensures Tracked(batch, e)
  {
    hide Settled, Admissible, Abandoned, View, IsCurrent, Deletable, SameView;
    AbandonedRecord(batch, d, e, a);
    forall i, j | IsCurrent(batch, e, i) && IsCurrent(batch, e, j) && Member(batch, e, i) && Member(batch, e, j) && Iteration(batch, e, i) == Iteration(batch, e, j)
      ensures i == j
    {
      SameCurrent(batch, d, e, i);
      SameCurrent(batch, d, e, j);
      SameSeen(batch, d, e, i);
      SameSeen(batch, d, e, j);
    }
    CurrentIsMember(batch, e);
  }

  lemma {:induction false} SameSeen(batch: Id, d: Disk, e: Disk, i: Id)
    requires SameView(batch, e, d)
    ensures View(batch, e, i) == View(batch, d, i)
  {
  }

  lemma {:induction false} CurrentIsMember(batch: Id, d: Disk)
    ensures forall i :: IsCurrent(batch, d, i) ==> Member(batch, d, i)
  {
    hide View;
  }

  lemma {:induction false} SettledProgressed(batch: Id, d: Disk, e: Disk, i: Id, x: Experiment)
    requires Settled(batch, d) && Progressed(batch, d, e, i, x)
    ensures Settled(batch, e)
    ensures forall j :: Deletable(batch, e, j) <==> Deletable(batch, d, j)
    ensures forall j :: Deletable(batch, d, j) ==> e.runs[j].value.previous == d.runs[j].value.previous && e.runs[j].value.iteration == d.runs[j].value.iteration
  {
    hide Readable;
  }

  lemma {:induction false} SettledElsewhere(batch: Id, d: Disk, e: Disk)
    requires Settled(batch, d) && Elsewhere(batch, d, e)
    ensures Settled(batch, e)
  {
    hide Readable;
    forall i | i in e.runs && e.runs[i].Some? && e.runs[i].value.batch == batch
      ensures e.runs[i].value.id == i && (e.record.Some? ==> e.runs[i].value.repetitions <= e.record.value.repetitions)
    {
      assert Deletable(batch, e, i);
    }
  }

  /** The same record and the same places: the same attempts are current. */
  lemma {:induction false} KeepPlaces(batch: Id, d: Disk, e: Disk)
    requires Tracked(batch, d) && Settled(batch, e) && e.record == d.record
    requires forall j :: Deletable(batch, e, j) <==> Deletable(batch, d, j)
    requires forall j :: Deletable(batch, d, j) && Deletable(batch, e, j) ==>
      e.runs[j].value.previous == d.runs[j].value.previous && e.runs[j].value.iteration == d.runs[j].value.iteration
    ensures Tracked(batch, e)
  {
    forall i, j | IsCurrent(batch, e, i) && IsCurrent(batch, e, j) && Iteration(batch, e, i) == Iteration(batch, e, j)
      ensures i == j
    {
      CurrentMeans(batch, d, i);
      CurrentMeans(batch, d, j);
      MembersStored(batch, e, i);
      MembersStored(batch, e, j);
      MembersStored(batch, d, i);
      MembersStored(batch, d, j);
    }
    hide Settled, IsCurrent, Deletable;
  }

  lemma {:induction false} KeepNext(batch: Id, d: Disk, e: Disk)
    requires Tracked(batch, d) && Next(batch, d, e)
    ensures Tracked(batch, e)
    ensures forall i :: d.record.Some? && i in d.record.value.retired ==> e.record.Some? && i in e.record.value.retired
  {
    hide Tracked, Settled, Admissible, AttemptsOk, IsCurrent, Abandoned, Planned, Progressed, Elsewhere, Deletable;
    if a, live :| Planned(batch, d, a, live) && Abandoned(batch, d, e, a) {
      PlanAdmits(batch, d, a, live);
      KeepAbandoned(batch, d, e, a);
      AbandonedRecord(batch, d, e, a);
    } else if a, live :| Planned(batch, d, a, live) && e == Committed(d, a) {
      PlanAdmits(batch, d, a, live);
      KeepAdmitted(batch, d, a);
      RetiredAfter(batch, d, a);
    } else if i, x :| Progressed(batch, d, e, i, x) {
      KeepProgressed(batch, d, e, i, x);
    } else if n, current :| Deletable(batch, d, n) && e == Deleted(batch, d, n, current) {
      KeepDeleted(batch, d, n, current);
      RecordKept(batch, d, n, current);
    } else {
      KeepElsewhere(batch, d, e);
    }
  }

  lemma {:induction false} KeepProgressed(batch: Id, d: Disk, e: Disk, i: Id, x: Experiment)
    requires Tracked(batch, d) && Progressed(batch, d, e, i, x)
    ensures Tracked(batch, e) && e.record == d.record
  {
    hide Settled, IsCurrent;
    SettledProgressed(batch, d, e, i, x);
    KeepPlaces(batch, d, e);
  }

  lemma {:induction false} KeepElsewhere(batch: Id, d: Disk, e: Disk)
    requires Tracked(batch, d) && Elsewhere(batch, d, e)
    ensures Tracked(batch, e) && e.record == d.record
  {
    hide Settled, IsCurrent, Deletable;
    SettledElsewhere(batch, d, e);
    KeepPlaces(batch, d, e);
  }

  lemma {:induction false} StartTracked(batch: Id, d: Disk)
    requires d.record.None? && forall i :: !Deletable(batch, d, i)
    ensures Tracked(batch, d)
  {
    forall i
      ensures !(i in d.runs && d.runs[i].Some? && d.runs[i].value.batch == batch)
    {
      assert !Deletable(batch, d, i);
    }
    forall i
      ensures !IsCurrent(batch, d, i)
    {
      MembersStored(batch, d, i);
    }
  }

  lemma {:induction false} HistoryStep(batch: Id, trace: seq<Disk>, k: nat)
    requires History(batch, trace) && 0 < k < |trace|
    ensures Next(batch, trace[k - 1], trace[k])
  {
    assert Next(batch, trace[k - 1], trace[(k - 1) + 1]);
  }

  lemma {:induction false} HistoryTracked(batch: Id, trace: seq<Disk>, k: nat)
    requires History(batch, trace) && k < |trace|
    ensures Tracked(batch, trace[k])
  {
    if k == 0 {
      StartTracked(batch, trace[0]);
    } else {
      hide Tracked, Next, History;
      HistoryTracked(batch, trace, k - 1);
      HistoryStep(batch, trace, k);
      KeepNext(batch, trace[k - 1], trace[k]);
    }
  }

  lemma {:induction false} RetiredForever(batch: Id, trace: seq<Disk>, m: nat, k: nat, i: Id)
    requires History(batch, trace) && m <= k < |trace| && trace[m].record.Some? && i in trace[m].record.value.retired
    ensures trace[k].record.Some? && i in trace[k].record.value.retired
  {
    hide Tracked, Next, History;
    if m < k {
      RetiredForever(batch, trace, m, k - 1, i);
      HistoryTracked(batch, trace, k - 1);
      HistoryStep(batch, trace, k);
      KeepNext(batch, trace[k - 1], trace[k]);
    }
  }

  /** Main result: through every sequence of submissions, appends, retries, continuations,
      executions and deletions, each iteration has at most one current attempt, and an attempt that
      has ceased to be current never becomes current again. */
  lemma {:induction false} NeverFallsBack(batch: Id, trace: seq<Disk>, m: nat, k: nat, i: Id, j: Id)
    requires History(batch, trace) && m <= k < |trace|
    ensures IsCurrent(batch, trace[k], i) && IsCurrent(batch, trace[k], j) && Iteration(batch, trace[k], i) == Iteration(batch, trace[k], j) ==> i == j
    ensures Member(batch, trace[m], i) && !IsCurrent(batch, trace[m], i) ==> !IsCurrent(batch, trace[k], i)
  {
    HistoryTracked(batch, trace, m);
    HistoryTracked(batch, trace, k);
    assert Settled(batch, trace[m]);
    MembersStored(batch, trace[m], i);
    hide History, Settled;
    CurrentMeans(batch, trace[m], i);
    CurrentMeans(batch, trace[k], i);
    if Deletable(batch, trace[m], i) && i in trace[m].record.value.retired {
      RetiredForever(batch, trace, m, k, i);
    }
  }

  /** A planned attempt takes over: once it is committed, it is the current one of its
      iteration, and none of those it names is. */
  lemma {:induction false} AttemptTakesOver(batch: Id, d: Disk, a: Admission, live: set<Id>, k: nat)
    requires Tracked(batch, d) && Planned(batch, d, a, live) && k < |a.pending|
    ensures var e := Committed(d, a);
            && IsCurrent(batch, e, a.pending[k].id) && Iteration(batch, e, a.pending[k].id) == a.pending[k].iteration
            && forall p :: p in a.pending[k].previous ==> !IsCurrent(batch, e, p)
  {
    hide Tracked, Planned, Admissible, AttemptsOk, IsCurrent, Settled, View, Fill, Publish;
    var e, i := Committed(d, a), a.pending[k].id;
    PlanAdmits(batch, d, a, live);
    KeepAdmitted(batch, d, a);
    RetiredAfter(batch, d, a);
    NotReplaced(batch, d, a, live, k);
    PendingAt(batch, d, a, k);
    CurrentMeans(batch, e, i);
    TrackedSettled(batch, e);
    MembersStored(batch, e, i);
    forall p | p in a.pending[k].previous
      ensures !IsCurrent(batch, e, p)
    {
      CurrentMeans(batch, e, p);
    }
  }

  lemma {:induction false} PendingAt(batch: Id, d: Disk, a: Admission, k: nat)
    requires Admissible(batch, d, a) && k < |a.pending|
    ensures var i := a.pending[k].id; Deletable(batch, Committed(d, a), i) && Committed(d, a).runs[i].value == a.pending[k]
  {
    hide Admissible, Committed, Deletable, Index;
    var i := a.pending[k].id;
    assert Ids(a.pending)[k] == i;
    StoredAfter(batch, d, a, i);
    PendingApart(batch, d, a);
    assert a.pending[Index(Ids(a.pending), i)].id == i;
  }

  // ---------- A retry ----------

  function FirstRun(state: RunState, started: bool): Experiment {
    Experiment(1, 1, 1, 1, state, started, [], 0)
  }

  function FirstSubmission(): Admission {
    Admission([FirstRun(Queued, false)], 1, [], [])
  }

  function FirstRetry(): Admission {
    Admission([Experiment(2, 1, 1, 1, Queued, false, [1], 0)], 1, [FirstRun(RunState.Failed, true)], [])
  }

  lemma {:induction false} SubmittedOnce()
    ensures var d := Committed(Disk(None, map[]), FirstSubmission());
            && Submits(1, Disk(None, map[]), FirstSubmission()) && d.runs == map[1 := Some(FirstRun(Queued, false))]
            && d.record.Some? && d.record.value.repetitions == 1 && d.record.value.retired == {} && d.record.value.current == map[1 := 1]
  {
    var a := FirstSubmission();
    assert Ids(a.pending) == [1];
    assert a.pending[1..] == [];
    assert Predecessors(a.pending) == {};
    assert Committed(Disk(None, map[]), a).runs.Keys == {1};
    assert Index([1], 1) == 0;
  }

  lemma {:induction false} RetryPicks()
    ensures Pick(FirstRetry().members, true, 0, {}) == FirstRetry().members
  {
    var members := FirstRetry().members;
    assert members[..0] == [];
    assert Pick(members[..0], true, 0, {}) == [];
  }

  lemma {:induction false} RetryPlanned()
    ensures RetryPlan(FirstRetry(), {})
  {
    hide Pick;
    RetryPicks();
  }

  lemma {:induction false} FirstListed(d: Disk)
    requires Tracked(1, d) && d.runs == map[1 := Some(FirstRun(RunState.Failed, true))]
    requires d.record.Some? && d.record.value.repetitions == 1 && d.record.value.retired == {}
    ensures Lists(1, d, FirstRetry().members)
  {
    hide Settled, IsCurrent;
    forall i
      ensures IsCurrent(1, d, i) <==> i == 1
    {
      CurrentMeans(1, d, i);
    }
    MembersStored(1, d, 1);
    assert FirstRetry().members[0].id == 1;
  }

  lemma {:induction false} RetriedOnce(d: Disk)
    requires Tracked(1, d) && d.runs == map[1 := Some(FirstRun(RunState.Failed, true))]
    requires d.record.Some? && d.record.value.repetitions == 1 && d.record.value.retired == {} && d.record.value.current == map[1 := 1]
    ensures Retries(1, d, FirstRetry(), {})
  {
    hide Tracked, Lists, RetryPlan;
    RetryPlanned();
    FirstListed(d);
    assert Ids(FirstRetry().pending) == [2];
  }

  /** A history in which a run is submitted, fails and is retried: the new attempt is current. */
  lemma {:induction false} FailedIsRetried() returns (trace: seq<Disk>)
    ensures |trace| == 4 && History(1, trace)
    ensures Member(1, trace[3], 1) && !IsCurrent(1, trace[3], 1) && IsCurrent(1, trace[3], 2)
  {
    hide Tracked, Settled, Submits, Retries, Admissible, IsCurrent, Committed;
    var d0 := Disk(None, map[]);
    var d1 := Committed(d0, FirstSubmission());
    SubmittedOnce();
    StartTracked(1, d0);
    PlanAdmits(1, d0, FirstSubmission(), {});
    KeepAdmitted(1, d0, FirstSubmission());
    var d2 := d1.(runs := map[1 := Some(FirstRun(RunState.Failed, true))]);
    assert d2.runs == d1.runs[1 := Some(FirstRun(RunState.Failed, true))];
    assert Progressed(1, d1, d2, 1, FirstRun(RunState.Failed, true));
    KeepProgressed(1, d1, d2, 1, FirstRun(RunState.Failed, true));
    RetriedOnce(d2);
    assert Planned(1, d2, FirstRetry(), {});
    var d3 := Committed(d2, FirstRetry());
    AttemptTakesOver(1, d2, FirstRetry(), {}, 0);
    assert Planned(1, d0, FirstSubmission(), {});
    trace := [d0, d1, d2, d3];
    assert Next(1, trace[0], trace[1]) && Next(1, trace[1], trace[2]) && Next(1, trace[2], trace[3]);
    PlanAdmits(1, d2, FirstRetry(), {});
    StoredAfter(1, d2, FirstRetry(), 1);
    CommittedSettled(1, d2, FirstRetry());
    MembersStored(1, d3, 1);
  }

  // ---------- Groups from before the record ----------

  /** A group of one iteration whose only retry was made before records existed. */
  function Legacy(): Disk {
    Disk(None, map[1 := Some(Experiment(1, 9, 1, 1, Failed, true, [], 0)), 2 := Some(Experiment(2, 9, 1, 1, Completed, true, [1], 0))])
  }

  /** One more iteration is appended. */
  function LegacyAppend(): Admission {
    Admission([Experiment(3, 9, 2, 2, Queued, false, [], 0)], 2, [Experiment(2, 9, 1, 1, Completed, true, [1], 0)], [])
  }

  lemma {:induction false} LegacyAppends()
    ensures Appends(9, Legacy(), LegacyAppend(), {})
  {
    var d, a := Legacy(), LegacyAppend();
    hide Replaced;
    assert View(9, d, 2) == Some(Seen(a.members[0], false));
    assert Replaced(9, d, 1) by { LegacyReplaced(); }
    assert !Replaced(9, d, 2) by { LegacyReplaced(); }
    assert forall i :: IsCurrent(9, d, i) ==> i == 2 && a.members[0].id == i;
    assert Ids(a.pending) == [3];
  }

  lemma {:induction false} LegacyReplaced()
    ensures Replaced(9, Legacy(), 1) && !Replaced(9, Legacy(), 2)
  {
    var d := Legacy();
    assert Member(9, d, 2) && 1 in View(9, d, 2).value.run.previous;
    forall j | Member(9, d, j)
      ensures 2 !in View(9, d, j).value.run.previous
    {
      assert j in {1, 2};
    }
  }

  lemma {:induction false} LegacyAdmissible()
    ensures Admissible(9, Legacy(), LegacyAppend())
    ensures Ids(LegacyAppend().pending) == [3]
  {
    assert Ids(LegacyAppend().pending) == [3];
  }

  lemma {:induction false} LegacyCommitted()
    ensures var d := Committed(Legacy(), LegacyAppend());
      && Settled(9, d) && d.record.Some? && |d.record.value.current| > 0 && d.record.value.retired == {}
      && d.runs.Keys == {1, 2, 3} && d.runs[1] == Legacy().runs[1] && d.runs[2] == Legacy().runs[2] && d.runs[3] == Some(LegacyAppend().pending[0])
  {
    var d0, a := Legacy(), LegacyAppend();
    LegacyAdmissible();
    hide Admissible, Fill, Publish, Settled;
    CommittedSettled(9, d0, a);
    RetiredAfter(9, d0, a);
    SameIds(a.pending);
    assert Predecessors(a.pending) == {};
    assert Index([3], 3) == 0;
  }

  /** For such a group the promise does not hold: appending to it and then deleting the
      newest attempt of the first iteration makes the old attempt current again. */
  lemma {:induction false} LegacyFallsBack()
    ensures Appends(9, Legacy(), LegacyAppend(), {}) && Admissible(9, Legacy(), LegacyAppend())
    ensures var d := Committed(Legacy(), LegacyAppend());
      && Deletable(9, d, 2) && !IsCurrent(9, d, 1) && IsCurrent(9, Deleted(9, d, 2, map[]), 1)
  {
    hide Appends;
    LegacyAppends();
    LegacyAdmissible();
    LegacyCommitted();
    var d := Committed(Legacy(), LegacyAppend());
    hide Admissible, Committed, Settled, View, IsCurrent;
    MembersStored(9, d, 1);
    forall j | Member(9, d, j) && j != 1 && j != 2
      ensures 1 !in View(9, d, j).value.run.previous
    {
      MembersStored(9, d, j);
      assert j in {1, 2, 3};
    }
    DeletionRevives(9, d, 2, map[], 1);
  }
}
