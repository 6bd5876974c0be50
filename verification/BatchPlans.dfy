/** How the Controller puts together an admission: a submission, an append, a retry of the
    unfinished iterations, or the continuation of the runs that never started. Each is
    admissible, and its attempts name the attempts they replace. */
module BatchPlans {
  import opened Wrappers
  import opened BatchAdmission
  import opened BatchMembers

  // ---------- What the callers read ----------

  /** The current members as a caller lists them, by iteration. */
  ghost predicate Lists(batch: Id, d: Disk, members: seq<Experiment>) {
    && (forall k :: 0 <= k < |members| ==> IsCurrent(batch, d, members[k].id) && members[k] == View(batch, d, members[k].id).value.run)
    && (forall i :: IsCurrent(batch, d, i) ==> exists k :: 0 <= k < |members| && members[k].id == i)
    && (forall j, k :: 0 <= j < k < |members| ==> members[j].id != members[k].id && members[j].iteration <= members[k].iteration)
  }

  /** A stored run that claims to be active is interrupted unless this Controller runs it. */
  function SeenState(e: Experiment, live: set<Id>): RunState {
    if (e.state == Queued || e.state == Running) && e.id !in live then Interrupted else e.state
  }

  predicate Attempted(e: Experiment, live: set<Id>) {
    e.started || SeenState(e, live) == Failed || SeenState(e, live) == Completed
  }

  predicate Broken(e: Experiment, live: set<Id>) {
    SeenState(e, live) == Failed || (SeenState(e, live) == Interrupted && e.started)
  }

  predicate Stopped(e: Experiment, live: set<Id>) {
    SeenState(e, live) == Canceled || SeenState(e, live) == Interrupted
  }

  /** The metadata of the members agrees. */
  predicate Consistent(members: seq<Experiment>, minimum: nat) {
    && (forall k :: 0 <= k < |members| ==>
          && minimum <= members[k].repetitions <= MAX_REPETITIONS && members[k].repetitions == members[0].repetitions
          && 1 <= members[k].iteration <= members[0].repetitions)
    && (forall j, k :: 0 <= j < k < |members| ==> members[j].iteration != members[k].iteration)
  }

  /** The last iteration that was attempted. */
  function LastAttempt(members: seq<Experiment>, live: set<Id>): nat {
    if members == [] then 0
    else
      var n := |members| - 1;
      var before := LastAttempt(members[..n], live);
      if Attempted(members[n], live) && members[n].iteration > before then members[n].iteration else before
  }

  /** Which member takes part: in a retry every unfinished one, in a continuation those that
      were stopped before they started, behind the last attempt. */
  predicate Chosen(e: Experiment, retry: bool, last: nat, live: set<Id>) {
    if retry then SeenState(e, live) != Completed else e.iteration > last && !e.started && Stopped(e, live)
  }

  function Pick(members: seq<Experiment>, retry: bool, last: nat, live: set<Id>): (r: seq<Experiment>)
    ensures |r| <= |members|
  {
    if members == [] then []
    else
      var n := |members| - 1;
      Pick(members[..n], retry, last, live) + if Chosen(members[n], retry, last, live) then [members[n]] else []
  }

  lemma {:induction false} PickedIs(members: seq<Experiment>, retry: bool, last: nat, live: set<Id>)
    ensures forall e :: e in Pick(members, retry, last, live) <==> e in members && Chosen(e, retry, last, live)
  {
    hide Chosen;
    if members != [] {
      var n := |members| - 1;
      PickedIs(members[..n], retry, last, live);
      assert members == members[..n] + [members[n]];
    }
  }

  /** Members with different identities and iterations. */
  predicate Apart(members: seq<Experiment>) {
    forall j, k :: 0 <= j < k < |members| ==> members[j].id != members[k].id && members[j].iteration != members[k].iteration
  }

  lemma {:induction false} PickedApart(members: seq<Experiment>, retry: bool, last: nat, live: set<Id>)
    requires Apart(members)
    ensures Apart(Pick(members, retry, last, live))
  {
    hide Chosen;
    if members != [] {
      var n := |members| - 1;
      PickedApart(members[..n], retry, last, live);
      PickedIs(members[..n], retry, last, live);
      var before := Pick(members[..n], retry, last, live);
      forall k | 0 <= k < |before|
        ensures before[k].id != members[n].id && before[k].iteration != members[n].iteration
      {
        assert before[k] in members[..n];
      }
    }
  }

  // ---------- The four plans ----------

  /** Identities that were never used before. */
  ghost predicate NewIds(d: Disk, pending: seq<Experiment>) {
    && Distinct(Ids(pending))
    && forall k :: 0 <= k < |pending| ==>
         && pending[k].id !in d.runs
         && (d.record.Some? ==> pending[k].id !in d.record.value.current.Values && pending[k].id !in d.record.value.retired)
  }

  /** New runs of the iterations behind `from`. */
  ghost predicate NewRuns(batch: Id, pending: seq<Experiment>, from: nat, total: nat) {
    forall k :: 0 <= k < |pending| ==>
      pending[k] == Experiment(pending[k].id, batch, from + k + 1, total, Queued, false, [], pending[k].content)
  }

  /** The first runs of a batch. A submission may be repeated under the same receipt, and so
      with the same total, until one is committed. */
  ghost predicate Submits(batch: Id, d: Disk, a: Admission) {
    && (forall i :: !Deletable(batch, d, i))
    && (d.record.Some? ==> |d.record.value.current| == 0 && d.record.value.repetitions == a.total)
    && 1 <= a.total <= MAX_REPETITIONS && |a.pending| == a.total && a.members == [] && a.before == []
    && NewRuns(batch, a.pending, 0, a.total) && NewIds(d, a.pending)
  }

  /** More iterations, once all are completed. */
  ghost predicate Appends(batch: Id, d: Disk, a: Admission, live: set<Id>) {
    var expected := |a.members|;
    && Lists(batch, d, a.members) && expected >= 1 && |a.pending| >= 1 && a.total == expected + |a.pending| <= MAX_REPETITIONS && a.before == []
    && (forall k :: 0 <= k < expected ==>
          SeenState(a.members[k], live) == Completed && a.members[k].repetitions == expected && a.members[k].iteration == k + 1)
    && NewRuns(batch, a.pending, expected, a.total) && NewIds(d, a.pending)
  }

  /** The next attempt of a run: a new identity behind the old ones. */
  function Successor(e: Experiment, id: Id, content: nat): Experiment {
    e.(id := id, previous := e.previous + [e.id], state := Queued, started := false, content := content)
  }

  /** The same run, queued again. */
  function Requeued(e: Experiment, content: nat): Experiment {
    e.(state := Queued, content := content)
  }

  /** Something is unfinished, and all that is unfinished has ended. */
  ghost predicate Retryable(members: seq<Experiment>, live: set<Id>) {
    var unfinished := Pick(members, true, 0, live);
    && Consistent(members, 1) && unfinished != []
    && (forall k :: 0 <= k < |unfinished| ==> Over(unfinished[k], live))
  }

  predicate Over(e: Experiment, live: set<Id>) {
    SeenState(e, live) == Failed || Stopped(e, live)
  }

  /** An attempt failed, and runs behind the last attempt have not started. */
  ghost predicate Continuable(members: seq<Experiment>, live: set<Id>) {
    && Consistent(members, 2) && (exists e :: e in members && Broken(e, live))
    && Pick(members, false, LastAttempt(members, live), live) != []
  }

  /** What is put together for a retry. */
  ghost predicate RetryPlan(a: Admission, live: set<Id>) {
    var unfinished := Pick(a.members, true, 0, live);
    && Retryable(a.members, live)
    && a.total == a.members[0].repetitions && a.before == [] && |a.pending| == |unfinished|
    && forall k :: 0 <= k < |a.pending| ==> a.pending[k] == Successor(unfinished[k], a.pending[k].id, a.pending[k].content)
  }

  /** What is put together for a continuation. */
  ghost predicate ContinuePlan(a: Admission, live: set<Id>) {
    var waiting := Pick(a.members, false, LastAttempt(a.members, live), live);
    && Continuable(a.members, live)
    && a.total == a.members[0].repetitions && a.before == waiting && |a.pending| == |waiting|
    && forall k :: 0 <= k < |a.pending| ==> a.pending[k] == Requeued(waiting[k], a.pending[k].content)
  }

  ghost predicate Retries(batch: Id, d: Disk, a: Admission, live: set<Id>) {
    Lists(batch, d, a.members) && RetryPlan(a, live) && NewIds(d, a.pending)
  }

  ghost predicate Continues(batch: Id, d: Disk, a: Admission, live: set<Id>) {
    Lists(batch, d, a.members) && ContinuePlan(a, live)
  }

  ghost predicate Planned(batch: Id, d: Disk, a: Admission, live: set<Id>) {
    Submits(batch, d, a) || Appends(batch, d, a, live) || Retries(batch, d, a, live) || Continues(batch, d, a, live)
  }

  // ---------- Each plan is admissible ----------

  /** What a listed member is on disk. */
  lemma {:induction false} MemberAt(batch: Id, d: Disk, members: seq<Experiment>, k: nat)
    requires Tracked(batch, d) && Lists(batch, d, members) && k < |members|
    ensures var m := members[k];
            && IsCurrent(batch, d, m.id) && Deletable(batch, d, m.id) && d.record.Some?
            && m == d.runs[m.id].value.(repetitions := d.record.value.repetitions)
            && m.id == d.runs[m.id].value.id && m.batch == batch && Iteration(batch, d, m.id) == m.iteration
            && m.id !in d.record.value.retired
  {
    var m := members[k];
    CurrentMeans(batch, d, m.id);
    MembersStored(batch, d, m.id);
    hide Settled, IsCurrent;
  }

  lemma {:induction false} ListedMember(batch: Id, d: Disk, members: seq<Experiment>, i: Id) returns (k: nat)
    requires Lists(batch, d, members) && IsCurrent(batch, d, i)
    ensures k < |members| && members[k].id == i
  {
    k :| 0 <= k < |members| && members[k].id == i;
  }

  lemma {:induction false} MembersAdmissible(batch: Id, d: Disk, a: Admission)
    requires Tracked(batch, d) && Lists(batch, d, a.members) && a.members != [] && Consistent(a.members, 1)
    ensures d.record.Some? && Prior(d, a) == d.record.value.repetitions == a.members[0].repetitions && MembersOk(batch, d, a)
    ensures Apart(a.members)
  {
    hide Tracked, IsCurrent, View;
    MemberAt(batch, d, a.members, 0);
    forall k | 0 <= k < |a.members|
      ensures Deletable(batch, d, a.members[k].id) && d.runs[a.members[k].id].value.iteration == a.members[k].iteration
    {
      MemberAt(batch, d, a.members, k);
    }
  }

  lemma {:induction false} TrackedSettled(batch: Id, d: Disk)
    requires Tracked(batch, d)
    ensures Settled(batch, d)
  {
  }

  lemma {:induction false} NewRunsOk(batch: Id, pending: seq<Experiment>, from: nat, total: nat, k: nat)
    requires NewRuns(batch, pending, from, total) && k < |pending|
    ensures var e := pending[k];
            e.batch == batch && e.repetitions == total && e.state == Queued && !e.started && e.iteration == from + k + 1 && e.previous == []
  {
  }

  lemma {:induction false} SubmitAdmits(batch: Id, d: Disk, a: Admission)
    requires Tracked(batch, d) && Submits(batch, d, a)
    ensures Admissible(batch, d, a) && AttemptsOk(batch, d, a)
  {
    hide Settled, IsCurrent, Distinct, NewRuns;
    TrackedSettled(batch, d);
    forall k | 0 <= k < |a.pending|
      ensures var e := a.pending[k];
              e.batch == batch && e.repetitions == a.total && e.state == Queued && !e.started && e.iteration == k + 1
    {
      NewRunsOk(batch, a.pending, 0, a.total, k);
    }
    forall i
      ensures !IsCurrent(batch, d, i)
    {
      CurrentMeans(batch, d, i);
    }
    forall i
      ensures !(i in d.runs && d.runs[i].Some? && d.runs[i].value.batch == batch)
    {
      assert !Deletable(batch, d, i);
    }
  }

  lemma {:induction false} AppendAdmits(batch: Id, d: Disk, a: Admission, live: set<Id>)
    requires Tracked(batch, d) && Appends(batch, d, a, live)
    ensures Admissible(batch, d, a) && AttemptsOk(batch, d, a)
  {
    hide Settled, IsCurrent, Distinct, NewRuns, View, Tracked, Lists, MembersOk;
    TrackedSettled(batch, d);
    MembersAdmissible(batch, d, a);
    var expected := |a.members|;
    forall k | 0 <= k < |a.pending|
      ensures var e := a.pending[k];
              e.batch == batch && e.repetitions == a.total && e.state == Queued && !e.started && e.iteration == expected + k + 1
    {
      NewRunsOk(batch, a.pending, expected, a.total, k);
    }
    forall c | IsCurrent(batch, d, c) && Member(batch, d, c)
      ensures Iteration(batch, d, c) <= expected
    {
      var k := ListedMember(batch, d, a.members, c);
      MemberAt(batch, d, a.members, k);
    }
    CurrentMember(batch, d);
  }

  lemma {:induction false} CurrentMember(batch: Id, d: Disk)
    ensures forall i :: IsCurrent(batch, d, i) ==> Member(batch, d, i)
  {
    hide View;
  }

  /** What a picked member is on disk. */
  lemma {:induction false} PickedAt(batch: Id, d: Disk, members: seq<Experiment>, retry: bool, last: nat, live: set<Id>, k: nat)
    requires Tracked(batch, d) && Lists(batch, d, members) && Consistent(members, 1) && k < |Pick(members, retry, last, live)|
    ensures var m := Pick(members, retry, last, live)[k];
            && m in members && Chosen(m, retry, last, live)
            && IsCurrent(batch, d, m.id) && Deletable(batch, d, m.id) && d.record.Some?
            && m == d.runs[m.id].value.(repetitions := d.record.value.repetitions) && m == View(batch, d, m.id).value.run
            && m.batch == batch && Iteration(batch, d, m.id) == m.iteration
            && m.repetitions == members[0].repetitions && 1 <= m.iteration <= m.repetitions <= MAX_REPETITIONS
            && m.id !in d.record.value.retired
  {
    hide Tracked, IsCurrent, View, Chosen, Deletable;
    PickedIs(members, retry, last, live);
    var m := Pick(members, retry, last, live)[k];
    assert m in members;
    var j :| 0 <= j < |members| && members[j] == m;
    MemberAt(batch, d, members, j);
  }

  lemma {:induction false} RetryAdmits(batch: Id, d: Disk, a: Admission, live: set<Id>)
    requires Tracked(batch, d) && Retries(batch, d, a, live)
    ensures Admissible(batch, d, a) && AttemptsOk(batch, d, a)
  {
    hide Settled, IsCurrent, Distinct, View, Tracked, Lists, MembersOk, Pick, Chosen, Stopped, SeenState, Deletable;
    TrackedSettled(batch, d);
    MembersAdmissible(batch, d, a);
    NotTooMany(batch, d, a.members);
    PickedApart(a.members, true, 0, live);
    var unfinished := Pick(a.members, true, 0, live);
    forall k | 0 <= k < |a.pending|
      ensures var e := a.pending[k];
              && e.batch == batch && e.repetitions == a.total && e.state == Queued && !e.started && 1 <= e.iteration <= a.total
              && e.iteration == unfinished[k].iteration
    {
      PickedAt(batch, d, a.members, true, 0, live, k);
    }
    CurrentMember(batch, d);
    forall k, c | 0 <= k < |a.pending| && IsCurrent(batch, d, c) && Member(batch, d, c) && Iteration(batch, d, c) == a.pending[k].iteration
      ensures c in a.pending[k].previous
    {
      PickedAt(batch, d, a.members, true, 0, live, k);
      OnlyCurrent(batch, d, c, unfinished[k].id);
    }
  }

  lemma {:induction false} OnlyCurrent(batch: Id, d: Disk, i: Id, j: Id)
    requires Tracked(batch, d) && IsCurrent(batch, d, i) && IsCurrent(batch, d, j) && Iteration(batch, d, i) == Iteration(batch, d, j)
    ensures i == j
  {
    hide Settled, IsCurrent, View;
  }

  /** Members in order of different iterations are no more than there are iterations. */
  lemma {:induction false} MembersFit(members: seq<Experiment>, k: nat)
    requires Consistent(members, 1) && k < |members|
    requires forall j, k :: 0 <= j < k < |members| ==> members[j].iteration <= members[k].iteration
    ensures members[k].iteration >= k + 1
  {
    if k > 0 {
      MembersFit(members, k - 1);
    }
  }

  lemma {:induction false} NotTooMany(batch: Id, d: Disk, members: seq<Experiment>)
    requires Lists(batch, d, members) && Consistent(members, 1) && members != []
    ensures |members| <= members[0].repetitions <= MAX_REPETITIONS
  {
    hide IsCurrent, View;
    MembersFit(members, |members| - 1);
  }

  lemma {:induction false} ContinueAdmits(batch: Id, d: Disk, a: Admission, live: set<Id>)
    requires Tracked(batch, d) && Continues(batch, d, a, live)
    ensures Admissible(batch, d, a) && AttemptsOk(batch, d, a)
  {
    hide Settled, IsCurrent, View, Tracked, Lists, MembersOk, Pick, Stopped, SeenState, Broken, Deletable;
    TrackedSettled(batch, d);
    MembersAdmissible(batch, d, a);
    NotTooMany(batch, d, a.members);
    var last := LastAttempt(a.members, live);
    PickedApart(a.members, false, last, live);
    var waiting := Pick(a.members, false, last, live);
    forall k | 0 <= k < |a.pending|
      ensures var e := a.pending[k];
              && e.batch == batch && e.repetitions == a.total && e.state == Queued && !e.started && 1 <= e.iteration <= a.total
              && e.iteration == waiting[k].iteration && e.id == waiting[k].id && !waiting[k].started && waiting[k] in a.members
              && IsCurrent(batch, d, e.id) && Member(batch, d, e.id) && Iteration(batch, d, e.id) == e.iteration
              && View(batch, d, e.id).value.run == waiting[k]
    {
      PickedAt(batch, d, a.members, false, last, live, k);
      CurrentMember(batch, d);
    }
  }

  /** Each plan is admissible, and its attempts name the ones they replace. */
  lemma {:induction false} PlanAdmits(batch: Id, d: Disk, a: Admission, live: set<Id>)
    requires Tracked(batch, d) && Planned(batch, d, a, live)
    ensures Admissible(batch, d, a) && AttemptsOk(batch, d, a)
  {
    hide Tracked, Submits, Appends, Retries, Continues, Admissible, AttemptsOk;
    if Submits(batch, d, a) {
      SubmitAdmits(batch, d, a);
    } else if Appends(batch, d, a, live) {
      AppendAdmits(batch, d, a, live);
    } else if Retries(batch, d, a, live) {
      RetryAdmits(batch, d, a, live);
    } else {
      ContinueAdmits(batch, d, a, live);
    }
  }

  // ---------- New attempts are not replaced ----------

  /** What a planned attempt names was retired before, or is a run it replaces. */
  lemma {:induction false} NamesOld(batch: Id, d: Disk, a: Admission, live: set<Id>, j: nat, p: Id)
    requires Tracked(batch, d) && Planned(batch, d, a, live) && j < |a.pending| && p in a.pending[j].previous
    ensures d.record.Some? && (p in d.record.value.retired || (a.before == [] && p in d.runs))
  {
    hide Settled, IsCurrent, Lists, NewIds, Retryable, Continuable, Pick, View;
    if Submits(batch, d, a) {
      NewRunsOk(batch, a.pending, 0, a.total, j);
    } else if Appends(batch, d, a, live) {
      NewRunsOk(batch, a.pending, |a.members|, a.total, j);
    } else if Retries(batch, d, a, live) {
      RetryConsistent(a, live);
      PickedAt(batch, d, a.members, true, 0, live, j);
    } else {
      ContinueConsistent(a, live);
      PickedAt(batch, d, a.members, false, LastAttempt(a.members, live), live, j);
    }
  }

  lemma {:induction false} RetryConsistent(a: Admission, live: set<Id>)
    requires RetryPlan(a, live)
    ensures Consistent(a.members, 1)
  {
  }

  lemma {:induction false} ContinueConsistent(a: Admission, live: set<Id>)
    requires ContinuePlan(a, live)
    ensures Consistent(a.members, 1)
  {
  }

  /** A planned attempt has a new identity, or is a current run that is queued again. */
  lemma {:induction false} NotRetired(batch: Id, d: Disk, a: Admission, live: set<Id>, k: nat)
    requires Tracked(batch, d) && Planned(batch, d, a, live) && k < |a.pending|
    ensures a.pending[k].id !in Base(d, a).retired && (a.before == [] ==> a.pending[k].id !in d.runs)
  {
    hide Settled, IsCurrent, Lists, Retryable, Continuable, Pick, View, Distinct, NewRuns;
    if !Submits(batch, d, a) && !Appends(batch, d, a, live) && !Retries(batch, d, a, live) {
      ContinueConsistent(a, live);
      PickedAt(batch, d, a.members, false, LastAttempt(a.members, live), live, k);
    }
  }

  lemma {:induction false} NotReplaced(batch: Id, d: Disk, a: Admission, live: set<Id>, k: nat)
    requires Tracked(batch, d) && Planned(batch, d, a, live) && k < |a.pending|
    ensures a.pending[k].id !in Base(d, a).retired + Predecessors(a.pending)
  {
    hide Tracked, Planned;
    NotRetired(batch, d, a, live, k);
    forall j, p | 0 <= j < |a.pending| && p in a.pending[j].previous
      ensures p != a.pending[k].id
    {
      NamesOld(batch, d, a, live, j, p);
    }
  }

  // ---------- Who can be resumed, by what is stored ----------

  /** This run claims to be under way. */
  predicate ClaimsActive(e: Experiment) {
    e.state == Queued || e.state == Running
  }

  /** This run ended early: it was canceled or interrupted, or nothing runs it any more. */
  predicate LeftOver(e: Experiment, live: set<Id>) {
    e.state == Canceled || e.state == Interrupted || (ClaimsActive(e) && e.id !in live)
  }

  /** This run was tried: it started or has a final state. */
  predicate Tried(e: Experiment) {
    e.started || e.state == RunState.Failed || e.state == Completed
  }

  function Unfinished(members: seq<Experiment>): seq<Experiment> {
    if members == [] then []
    else
      var n := |members| - 1;
      Unfinished(members[..n]) + if members[n].state != Completed then [members[n]] else []
  }

  /** Left over, never started, and behind every iteration that was tried. */
  ghost predicate Waits(e: Experiment, members: seq<Experiment>, live: set<Id>) {
    !e.started && LeftOver(e, live) && forall m :: m in members && Tried(m) ==> m.iteration < e.iteration
  }

  ghost function Waiting(some: seq<Experiment>, members: seq<Experiment>, live: set<Id>): seq<Experiment> {
    if some == [] then []
    else
      var n := |some| - 1;
      Waiting(some[..n], members, live) + if Waits(some[n], members, live) then [some[n]] else []
  }

  lemma {:induction false} PickedUnfinished(members: seq<Experiment>, live: set<Id>)
    ensures Pick(members, true, 0, live) == Unfinished(members)
  {
    if members != [] {
      PickedUnfinished(members[..|members| - 1], live);
    }
  }

  lemma {:induction false} UnfinishedIs(members: seq<Experiment>)
    ensures forall e :: e in Unfinished(members) <==> e in members && e.state != Completed
  {
    if members != [] {
      var n := |members| - 1;
      UnfinishedIs(members[..n]);
      assert members == members[..n] + [members[n]];
    }
  }

  /** A retry is possible exactly when the metadata agrees, something is unfinished, and this
      Controller runs none of the members. */
  lemma {:induction false} RetryDecides(members: seq<Experiment>, live: set<Id>)
    ensures Retryable(members, live) <==>
      && Consistent(members, 1) && (exists e :: e in members && e.state != Completed)
      && (forall e :: e in members && ClaimsActive(e) ==> e.id !in live)
  {
    hide Consistent;
    PickedUnfinished(members, live);
    UnfinishedIs(members);
    var unfinished := Unfinished(members);
    assert unfinished != [] ==> unfinished[0] in unfinished;
    forall e | e in unfinished
      ensures Over(e, live) <==> !(ClaimsActive(e) && e.id in live)
    {
    }
    if (forall k :: 0 <= k < |unfinished| ==> Over(unfinished[k], live)) {
      forall e | e in members && ClaimsActive(e)
        ensures e.id !in live
      {
        assert e in unfinished;
        var k :| 0 <= k < |unfinished| && unfinished[k] == e;
      }
    }
  }

  /** After a restart of the Controller nothing is under way, so whatever agrees and is
      unfinished can be retried. */
  lemma {:induction false} RestartIsRetryable(members: seq<Experiment>)
    requires Consistent(members, 1) && exists e :: e in members && e.state != Completed
    ensures Retryable(members, {})
  {
    hide Consistent, Retryable;
    RetryDecides(members, {});
  }

  lemma {:induction false} LastTried(members: seq<Experiment>, live: set<Id>, i: nat)
    requires forall e :: e in members ==> e.iteration >= 1
    ensures i >= 1 ==> (i > LastAttempt(members, live) <==> forall m :: m in members && Tried(m) ==> m.iteration < i)
  {
    if members != [] {
      var n := |members| - 1;
      LastTried(members[..n], live, i);
      assert members == members[..n] + [members[n]];
      assert Attempted(members[n], live) <==> Tried(members[n]);
      hide Attempted, Tried;
    }
  }

  lemma {:induction false} PickedWaiting(some: seq<Experiment>, members: seq<Experiment>, live: set<Id>)
    requires forall e :: e in some + members ==> e.iteration >= 1
    ensures Pick(some, false, LastAttempt(members, live), live) == Waiting(some, members, live)
  {
    if some != [] {
      var n := |some| - 1;
      assert some == some[..n] + [some[n]];
      PickedWaiting(some[..n], members, live);
      LastTried(members, live, some[n].iteration);
      assert some[n] in some + members;
      hide LastAttempt;
    }
  }

  /** A continuation is possible exactly when the metadata agrees, an attempt failed or was
      cut short, and a run waits behind everything that was tried. */
  lemma {:induction false} ContinueDecides(members: seq<Experiment>, live: set<Id>)
    ensures Continuable(members, live) <==>
      && Consistent(members, 2)
      && (exists e :: e in members && (e.state == RunState.Failed || (e.started && e.state != Canceled && LeftOver(e, live))))
      && (exists e :: e in members && Waits(e, members, live))
    ensures Consistent(members, 2) ==> Pick(members, false, LastAttempt(members, live), live) == Waiting(members, members, live)
  {
    if Consistent(members, 2) {
      assert forall e :: e in members + members ==> e.iteration >= 1;
      PickedWaiting(members, members, live);
      WaitingIs(members, members, live);
      var waiting := Waiting(members, members, live);
      assert waiting != [] ==> waiting[0] in waiting;
      assert forall e :: Broken(e, live) <==> (e.state == RunState.Failed || (e.started && e.state != Canceled && LeftOver(e, live)));
      hide Consistent, Broken, LeftOver, LastAttempt, Pick, Waits;
    }
  }

  lemma {:induction false} WaitingIs(some: seq<Experiment>, members: seq<Experiment>, live: set<Id>)
    ensures forall e :: e in Waiting(some, members, live) <==> e in some && Waits(e, members, live)
  {
    hide Waits;
    if some != [] {
      var n := |some| - 1;
      WaitingIs(some[..n], members, live);
      assert some == some[..n] + [some[n]];
    }
  }

  // ---------- Putting a plan together ----------

  ghost function Iterations(members: seq<Experiment>): set<nat> {
    set m | m in members :: m.iteration
  }

  lemma {:induction false} ConsistentPrefix(members: seq<Experiment>, minimum: nat, i: nat)
    requires i < |members| && Consistent(members[..i], minimum)
    ensures var m := members[i];
            Consistent(members[..i + 1], minimum) <==>
              && minimum <= m.repetitions <= MAX_REPETITIONS && m.repetitions == members[0].repetitions
              && 1 <= m.iteration <= members[0].repetitions && m.iteration !in Iterations(members[..i])
  {
    var before, now := members[..i], members[..i + 1];
    assert now == before + [members[i]] && now[0] == members[0];
    if Consistent(now, minimum) {
      forall j | 0 <= j < i
        ensures before[j].iteration != members[i].iteration
      {
        assert now[j].iteration != now[i].iteration;
      }
    } else if minimum <= members[i].repetitions <= MAX_REPETITIONS && members[i].repetitions == members[0].repetitions
              && 1 <= members[i].iteration <= members[0].repetitions && members[i].iteration !in Iterations(before) {
      forall j | 0 <= j < i
        ensures before[j].iteration != members[i].iteration
      {
        assert before[j] in before;
      }
    }
  }

  lemma {:induction false} ConsistentWhole(members: seq<Experiment>, minimum: nat, i: nat)
    requires i <= |members| && Consistent(members, minimum)
    ensures Consistent(members[..i], minimum)
  {
  }

  /** Check the members and find the last attempt and whether one failed. */
  method Survey(members: seq<Experiment>, minimum: nat, live: set<Id>) returns (ok: bool, expected: nat, last: nat, failure: bool)
    requires minimum >= 1
    ensures ok <==> Consistent(members, minimum)
    ensures ok ==> last == LastAttempt(members, live) && (failure <==> exists e :: e in members && Broken(e, live))
    ensures ok && members != [] ==> expected == members[0].repetitions
  {
    hide Consistent, Broken, Attempted;
    expected, last, failure := 0, 0, false;
    var seen: set<nat> := {};
    NothingInconsistent(members, minimum);
    for i := 0 to |members|
      invariant Consistent(members[..i], minimum) && seen == Iterations(members[..i])
      invariant expected == if i == 0 then 0 else members[0].repetitions
      invariant i > 0 ==> expected >= minimum
      invariant last == LastAttempt(members[..i], live)
      invariant failure <==> exists e :: e in members[..i] && Broken(e, live)
    {
      var m := members[i];
      if expected == 0 {
        expected := m.repetitions;
      }
      ConsistentPrefix(members, minimum, i);
      if expected < minimum || expected > MAX_REPETITIONS || m.repetitions != expected || m.iteration < 1 || m.iteration > expected || m.iteration in seen {
        if Consistent(members, minimum) {
          ConsistentWhole(members, minimum, i + 1);
        }
        ok := false;
        return;
      }
      assert members[..i + 1] == members[..i] + [m];
      seen := seen + {m.iteration};
      if Attempted(m, live) && m.iteration > last {
        last := m.iteration;
      }
      failure := failure || Broken(m, live);
    }
    assert members[..|members|] == members;
    ok := true;
  }

  lemma {:induction false} NothingInconsistent(members: seq<Experiment>, minimum: nat)
    ensures Consistent(members[..0], minimum)
  {
  }

  /** The chosen members and their next attempts; refused if one to be retried is not over. */
  method NextAttempts(members: seq<Experiment>, retry: bool, last: nat, live: set<Id>, ids: seq<Id>, contents: seq<nat>)
    returns (ok: bool, originals: seq<Experiment>, pending: seq<Experiment>)
    requires |ids| == |contents| == |members|
    ensures ok <==> !retry || forall k :: 0 <= k < |Pick(members, retry, last, live)| ==> Over(Pick(members, retry, last, live)[k], live)
    ensures ok ==> originals == Pick(members, retry, last, live) && |pending| == |originals|
    ensures ok && retry ==> forall k :: 0 <= k < |pending| ==> pending[k] == Successor(originals[k], ids[k], contents[k])
    ensures ok && !retry ==> forall k :: 0 <= k < |pending| ==> pending[k] == Requeued(originals[k], contents[k])
  {
    hide Chosen, Over, Successor, Requeued;
    originals, pending := [], [];
    for i := 0 to |members|
      invariant originals == Pick(members[..i], retry, last, live) && |pending| == |originals| <= i
      invariant retry ==> forall k :: 0 <= k < |originals| ==> Over(originals[k], live)
      invariant retry ==> forall k :: 0 <= k < |pending| ==> pending[k] == Successor(originals[k], ids[k], contents[k])
      invariant !retry ==> forall k :: 0 <= k < |pending| ==> pending[k] == Requeued(originals[k], contents[k])
    {
      var m := members[i];
      assert members[..i + 1][..i] == members[..i];
      if Chosen(m, retry, last, live) {
        if retry && !Over(m, live) {
          PickedIs(members, retry, last, live);
          assert m in Pick(members, retry, last, live);
          ok := false;
          return;
        }
        var n := |pending|;
        originals := originals + [m];
        pending := pending + [if retry then Successor(m, ids[n], contents[n]) else Requeued(m, contents[n])];
      }
    }
    assert members[..|members|] == members;
    ok := true;
  }

  /** Choose the members that take part and make their next attempts. `ids` and `contents`
      are what is new about each attempt, in the order in which they are made. */
  method Resume(members: seq<Experiment>, retry: bool, live: set<Id>, ids: seq<Id>, contents: seq<nat>) returns (r: Option<Admission>)
    requires |ids| == |contents| == |members|
    ensures r.Some? <==> if retry then Retryable(members, live) else Continuable(members, live)
    ensures r.Some? ==> r.value.members == members && if retry then RetryPlan(r.value, live) else ContinuePlan(r.value, live)
    ensures r.Some? && retry ==> |r.value.pending| <= |ids| && Ids(r.value.pending) == ids[..|r.value.pending|]
    ensures retry ==> (r.Some? <==>
      && Consistent(members, 1) && (exists e :: e in members && e.state != Completed)
      && (forall e :: e in members && ClaimsActive(e) ==> e.id !in live))
    ensures !retry ==> (r.Some? <==>
      && Consistent(members, 2) && (exists e :: e in members && (e.state == RunState.Failed || (e.started && e.state != Canceled && LeftOver(e, live))))
      && (exists e :: e in members && Waits(e, members, live)))
    ensures r.Some? ==>
      var originals := if retry then Unfinished(members) else Waiting(members, members, live);
      && |r.value.pending| == |originals|
      && forall k :: 0 <= k < |originals| ==>
           r.value.pending[k] == if retry then Successor(originals[k], ids[k], contents[k]) else Requeued(originals[k], contents[k])
  {
    hide Consistent, Broken, Chosen, Over, LastAttempt, Pick, Unfinished, Waiting, LeftOver, Waits, ClaimsActive;
    RetryDecides(members, live);
    ContinueDecides(members, live);
    PickedUnfinished(members, live);
    var ok, expected, last, failure := Survey(members, if retry then 1 else 2, live);
    if !ok || (!retry && !failure) {
      return None;
    }
    var originals, pending;
    ok, originals, pending := NextAttempts(members, retry, if retry then 0 else last, live, ids, contents);
    if !ok || pending == [] {
      return None;
    }
    r := Some(Admission(pending, expected, members, if retry then [] else originals));
  }

}
