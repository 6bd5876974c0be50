/** The members of a batch and which attempt of each iteration is the current one. */
module BatchMembers {
  import opened Wrappers
  import opened BatchAdmission

  /** Runs of the batch as readers list them. */
  ghost predicate Member(batch: Id, d: Disk, i: Id) {
    View(batch, d, i).Some?
  }

  /** Another member names run i as its predecessor. */
  ghost predicate Replaced(batch: Id, d: Disk, i: Id) {
    exists j :: Member(batch, d, j) && j != i && i in View(batch, d, j).value.run.previous
  }

  /** The latest attempt of its iteration. */
  ghost predicate IsCurrent(batch: Id, d: Disk, i: Id) {
    Member(batch, d, i) && !View(batch, d, i).value.superseded && !Replaced(batch, d, i)
  }

  ghost function Iteration(batch: Id, d: Disk, i: Id): nat
    requires Member(batch, d, i)
  {
    View(batch, d, i).value.run.iteration
  }

  predicate Deletable(batch: Id, d: Disk, n: Id) {
    n in d.runs && d.runs[n].Some? && d.runs[n].value.batch == batch
  }

  /** In a settled batch the members are the stored runs. */
  lemma {:induction false} MembersStored(batch: Id, d: Disk, i: Id)
    requires Settled(batch, d)
    ensures Member(batch, d, i) <==> Deletable(batch, d, i)
    ensures Member(batch, d, i) ==>
      && View(batch, d, i).value.run.previous == d.runs[i].value.previous
      && View(batch, d, i).value.run.iteration == d.runs[i].value.iteration
      && View(batch, d, i).value.superseded == (d.record.Some? && i in d.record.value.retired)
  {
    hide Readable;
  }

  /** What this version of the Controller keeps: every predecessor is on record. */
  ghost predicate Tracked(batch: Id, d: Disk) {
    && Settled(batch, d)
    && (forall i :: Deletable(batch, d, i) ==> d.record.Some? && |d.record.value.current| > 0)
    && (forall i, p :: Deletable(batch, d, i) && p in d.runs[i].value.previous ==> p in d.record.value.retired)
    && (forall i, j :: IsCurrent(batch, d, i) && IsCurrent(batch, d, j) && Iteration(batch, d, i) == Iteration(batch, d, j) ==> i == j)
  }

  /** New attempts name the attempt they replace; continued runs are current ones. */
  ghost predicate AttemptsOk(batch: Id, d: Disk, a: Admission) {
    forall k :: 0 <= k < |a.pending| ==>
      if a.before == [] then
        forall c :: IsCurrent(batch, d, c) && Iteration(batch, d, c) == a.pending[k].iteration ==> c in a.pending[k].previous
      else IsCurrent(batch, d, a.pending[k].id) && Iteration(batch, d, a.pending[k].id) == a.pending[k].iteration
  }

  lemma {:induction false} CurrentMeans(batch: Id, d: Disk, i: Id)
    requires Tracked(batch, d)
    ensures IsCurrent(batch, d, i) <==> Deletable(batch, d, i) && i !in d.record.value.retired
  {
    MembersStored(batch, d, i);
    if Replaced(batch, d, i) {
      var j :| Member(batch, d, j) && j != i && i in View(batch, d, j).value.run.previous;
      MembersStored(batch, d, j);
    }
    hide Settled, View;
  }
}
