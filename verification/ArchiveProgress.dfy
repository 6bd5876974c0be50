/** When a pass of the archive worker gets through: unless a segment that the store has
    published is missing there, everything that was local is archived and gone. */
module ArchiveProgress {
  import opened Wrappers
  import opened AtomicFile
  import opened RunArchive

  lemma {:induction false} RunAppend(s: State, a: seq<Action>, b: seq<Action>)
    ensures Run(s, a + b) == Run(Run(s, a), b)
    decreases |a|
  {
    hide Step;
    if a == [] {
      assert a + b == b;
    } else {
      assert (a + b)[0] == a[0] && (a + b)[1..] == a[1..] + b;
      RunAppend(Step(s, a[0]), a[1..], b);
    }
  }

  lemma {:induction false} OneStep(s: State, a: Action)
    ensures Run(s, [a]) == Step(s, a)
  {
    hide Step;
    assert [a][1..] == [];
  }

  // ---------- Copying ----------

  function Uploads(n: nat): seq<Action> {
    if n == 0 then [] else [Upload(Saved)] + Uploads(n - 1)
  }

  predicate PresentIn(objects: map<Object, Content>, m: seq<Part>, names: seq<Name>) {
    forall i :: 0 <= i < |m| && m[i].segment in names ==> Present(objects, m[i])
  }

  /** What the pass relies on without copying it is in the store. */
  predicate Intact(objects: map<Object, Content>, w: Worker)
    requires w.Copying?
  {
    PresentIn(objects, w.manifest, w.todo) && forall i :: 0 <= i < |w.reused| ==> Present(objects, w.reused[i])
  }

  /** The objects of these parts are as before. */
  ghost predicate Untouched(a: map<Object, Content>, b: map<Object, Content>, m: seq<Part>) {
    forall i :: 0 <= i < |m| ==> (Present(a, m[i]) <==> Present(b, m[i]))
  }

  ghost predicate CopyOk(s: State) {
    && s.worker.Copying? && Within(s.worker.reused, s.worker.manifest)
    && forall i :: 0 <= i < |s.worker.todo| ==> s.worker.todo[i] in s.local
  }

  /** What is stored already is relied on from here. */
  lemma {:induction false} RelyStored(s: State)
    requires Inv(s) && CopyOk(s) && s.worker.todo != [] && Lists(s.worker.manifest, s.worker.todo[0])
    ensures var t := Step(s, Upload(Saved));
      && CopyOk(t) && (Intact(t.objects, t.worker) <==> Intact(s.objects, s.worker))
      && t.worker.todo == s.worker.todo[1..] && t.worker.cleanup == s.worker.cleanup + {s.worker.todo[0]}
      && t == s.(worker := t.worker) && t.worker.manifest == s.worker.manifest
  {
    var w, t := s.worker, Step(s, Upload(Saved));
    var name, p := w.todo[0], PartOf(w.manifest, w.todo[0]);
    var j :| 0 <= j < |w.manifest| && w.manifest[j] == p;
    if Intact(t.objects, t.worker) {
      assert t.worker.reused[|w.reused|] == p;
      forall i | 0 <= i < |w.manifest| && w.manifest[i].segment in w.todo
        ensures Present(s.objects, w.manifest[i])
      {
        if w.manifest[i].segment == name {
          SamePart(s.sealed, w.manifest, w.manifest[i], p);
        }
      }
      forall i | 0 <= i < |w.reused|
        ensures Present(s.objects, w.reused[i])
      {
        assert t.worker.reused[i] == w.reused[i];
      }
    }
  }

  /** A copy adds its own part and touches no other. */
  lemma {:induction false} RelyCopied(s: State)
    requires Inv(s) && CopyOk(s) && s.worker.todo != [] && !Lists(s.worker.manifest, s.worker.todo[0])
    ensures var t := Step(s, Upload(Saved));
      && CopyOk(t) && (Intact(t.objects, t.worker) <==> Intact(s.objects, s.worker))
      && t.worker.todo == s.worker.todo[1..] && t.worker.cleanup == s.worker.cleanup + {s.worker.todo[0]}
      && Untouched(s.objects, t.objects, s.worker.manifest) && s.worker.manifest <= t.worker.manifest
      && t == s.(worker := t.worker, objects := t.objects)
  {
    var w, t := s.worker, Step(s, Upload(Saved));
    NewObject(s.sealed, w.manifest, w.todo[0]);
    var m := t.worker.manifest;
    assert w.todo[0] in s.local;
    assert forall i :: 0 <= i < |w.manifest| ==> m[i] == w.manifest[i] && (Present(t.objects, m[i]) <==> Present(s.objects, m[i]));
    assert Present(t.objects, m[|w.manifest|]);
    forall i | 0 <= i < |w.reused|
      ensures Present(t.objects, w.reused[i]) <==> Present(s.objects, w.reused[i])
    {
      assert w.reused[i] in w.manifest;
    }
    assert Intact(t.objects, t.worker) ==> Intact(s.objects, s.worker) by {
      forall i | Intact(t.objects, t.worker) && 0 <= i < |w.manifest| && w.manifest[i].segment in w.todo
        ensures Present(s.objects, w.manifest[i])
      {
        assert w.manifest[i].segment != w.todo[0];
      }
    }
  }

  /** From s to t only copies were made. */
  ghost predicate Onward(s: State, t: State)
    requires CopyOk(s)
  {
    && Inv(t) && CopyOk(t) && (Intact(t.objects, t.worker) <==> Intact(s.objects, s.worker))
    && Untouched(s.objects, t.objects, s.worker.manifest) && s.worker.manifest <= t.worker.manifest
    && t == s.(worker := t.worker, objects := t.objects)
  }

  lemma {:induction false} UploadOne(s: State)
    requires Inv(s) && CopyOk(s) && s.worker.todo != []
    ensures var t := Step(s, Upload(Saved));
      && Onward(s, t) && t.worker.todo == s.worker.todo[1..] && t.worker.cleanup == s.worker.cleanup + {s.worker.todo[0]}
  {
    KeepUpload(s, Saved);
    if Lists(s.worker.manifest, s.worker.todo[0]) {
      RelyStored(s);
    } else {
      RelyCopied(s);
    }
    hide Inv, CopyOk, Intact;
  }

  function Names(names: seq<Name>): set<Name> {
    set name | name in names
  }

  lemma {:induction false} NoNames()
    ensures Names([]) == {}
  {
  }

  lemma {:induction false} FirstName(names: seq<Name>)
    requires names != []
    ensures Names(names) == {names[0]} + Names(names[1..])
  {
    assert names == [names[0]] + names[1..];
  }

  lemma {:induction false} StillUntouched(a: map<Object, Content>, b: map<Object, Content>, c: map<Object, Content>, m: seq<Part>, n: seq<Part>)
    requires Untouched(a, b, m) && Untouched(b, c, n) && m <= n
    ensures Untouched(a, c, m)
  {
  }

  lemma {:induction false} UploadsAll(s: State)
    requires Inv(s) && CopyOk(s)
    ensures var t := Run(s, Uploads(|s.worker.todo|));
      Onward(s, t) && t.worker.todo == [] && t.worker.cleanup == s.worker.cleanup + Names(s.worker.todo)
    decreases |s.worker.todo|
  {
    hide Inv, Intact, Step, Names;
    if s.worker.todo == [] {
      NoNames();
    } else {
      UploadOne(s);
      RunAppend(s, [Upload(Saved)], Uploads(|s.worker.todo| - 1));
      OneStep(s, Upload(Saved));
      FirstName(s.worker.todo);
      UploadsAll(Step(s, Upload(Saved)));
      StillUntouched(s.objects, Step(s, Upload(Saved)).objects, Run(s, Uploads(|s.worker.todo|)).objects,
                     s.worker.manifest, Step(s, Upload(Saved)).worker.manifest);
      hide Run, Within, Untouched, CopyOk;
    }
  }

  // ---------- The pass ----------

  function Unlinks(names: seq<Name>): seq<Action> {
    if names == [] then [] else [Unlink(names[0])] + Unlinks(names[1..])
  }

  lemma {:induction false} UnlinksAll(s: State, names: seq<Name>)
    requires s.worker.Unlinking? && Names(names) <= s.worker.cleanup
    ensures Run(s, Unlinks(names)) == s.(local := s.local - Names(names))
    decreases |names|
  {
    if names != [] {
      FirstName(names);
      RunAppend(s, [Unlink(names[0])], Unlinks(names[1..]));
      OneStep(s, Unlink(names[0]));
      UnlinksAll(Step(s, Unlink(names[0])), names[1..]);
      assert s.local - {names[0]} - Names(names[1..]) == s.local - Names(names);
    }
  }

  lemma {:induction false} UnlinksNothing(s: State, names: seq<Name>)
    requires s.worker.Idle?
    ensures Run(s, Unlinks(names)) == s
    decreases |names|
  {
    if names != [] {
      UnlinksNothing(s, names[1..]);
    }
  }

  /** Every segment here that only the store has published is in the store. */
  ghost predicate Undamaged(s: State) {
    forall p :: p in s.remote && p.segment in s.local && !Lists(s.manifest, p.segment) ==> Present(s.objects, p)
  }

  lemma {:induction false} BeginRelies(s: State, order: seq<Name>)
    requires Inv(s) && s.worker.Idle? && IsTodo(order, s.manifest, s.local)
    ensures var m := Merged(s.manifest, s.remote);
      PresentIn(s.objects, m, order) <==> Undamaged(s)
  {
    var m := Merged(s.manifest, s.remote);
    WithinTrans(s.manifest, s.remoteDurable, s.remote);
    MergedMembers(s.manifest, s.remote);
    MergedCovers(s.sealed, s.manifest, s.remote);
    hide Sound, Merged, AllPresent, Within;
    assert PresentIn(s.objects, m, order) ==> Undamaged(s) by {
      forall p | PresentIn(s.objects, m, order) && p in s.remote && p.segment in s.local && !Lists(s.manifest, p.segment)
        ensures Present(s.objects, p)
      {
        RemoteIsMerged(m, s.remote, p);
      }
    }
    if Undamaged(s) {
      forall i | 0 <= i < |m| && m[i].segment in order
        ensures Present(s.objects, m[i])
      {
        assert m[i] in m && m[i].segment in s.local && !Lists(s.manifest, m[i].segment);
        NotMember(s.manifest, m[i]);
      }
    }
  }

  lemma {:induction false} RemoteIsMerged(m: seq<Part>, remote: seq<Part>, p: Part)
    requires Within(remote, m) && p in remote
    ensures p in m
  {
  }

  lemma {:induction false} NotMember(m: seq<Part>, p: Part)
    requires !Lists(m, p.segment)
    ensures p !in m
  {
  }

  /** A pass begins with what the manifests already name, and with everything else to copy. */
  lemma {:induction false} BeginReady(s: State, order: seq<Name>)
    requires Inv(s) && s.worker.Idle? && IsTodo(order, s.manifest, s.local)
    ensures var t := Step(s, Begin(order));
      && Inv(t) && CopyOk(t) && (Intact(t.objects, t.worker) <==> Undamaged(s))
      && t.worker.todo == order && t.worker.cleanup + Names(order) == s.local.Keys
      && t == s.(worker := t.worker)
  {
    var t := Step(s, Begin(order));
    KeepBegin(s, order);
    BeginRelies(s, order);
    KnownListed(s.manifest, s.local);
    MergedMembers(s.manifest, s.remote);
    forall i | 0 <= i < |t.worker.reused|
      ensures t.worker.reused[i] in t.worker.manifest && Present(s.objects, t.worker.reused[i])
    {
      assert t.worker.reused[i] in t.worker.reused;
    }
    hide Sound, Merged, Known, PresentIn, Undamaged, NothingLost;
  }

  function Settling(): seq<Action> {
    [Verify, PublishRemote(Saved), CommitLocal(Saved)]
  }

  lemma {:induction false} VerifyDecides(s: State)
    requires CopyOk(s) && s.worker.todo == []
    ensures Step(s, Verify) == s.(worker := if Intact(s.objects, s.worker) then Verified(s.worker.manifest, s.worker.cleanup) else Idle)
  {
    hide Within;
  }

  lemma {:induction false} SettlingRuns(s: State)
    ensures Run(s, Settling()) == Step(Step(Step(s, Verify), PublishRemote(Saved)), CommitLocal(Saved))
  {
    hide Run, Step;
    var a := Step(s, Verify);
    RunAppend(s, [Verify, PublishRemote(Saved)], [CommitLocal(Saved)]);
    RunAppend(s, [Verify], [PublishRemote(Saved)]);
    OneStep(s, Verify);
    OneStep(a, PublishRemote(Saved));
    OneStep(Step(a, PublishRemote(Saved)), CommitLocal(Saved));
    assert Settling() == [Verify, PublishRemote(Saved)] + [CommitLocal(Saved)];
    assert [Verify, PublishRemote(Saved)] == [Verify] + [PublishRemote(Saved)];
  }

  /** The manifests are published if and only if everything relied on is there. */
  lemma {:induction false} SettlingDecides(s: State)
    requires CopyOk(s) && s.worker.todo == []
    ensures var t := Run(s, Settling());
      if Intact(s.objects, s.worker) then
        && t.worker == Unlinking(s.worker.cleanup) && t.manifest == t.durable == t.remote == t.remoteDurable == s.worker.manifest
        && t.local == s.local && t.sealed == s.sealed
      else t == s.(worker := Idle)
  {
    hide Run, Settling, Intact, Within;
    VerifyDecides(s);
    SettlingRuns(s);
  }

  /** One pass in which no access fails and nothing else happens. */
  function Pass(order: seq<Name>, names: seq<Name>): seq<Action> {
    [Begin(order)] + Uploads(|order|) + Settling() + Unlinks(names)
  }

  /** The states in which a pass begins to copy, to settle and to unlink. */
  lemma {:induction false} PassRuns(s: State, order: seq<Name>, names: seq<Name>)
    ensures var b := Run(Step(s, Begin(order)), Uploads(|order|));
      Run(s, Pass(order, names)) == Run(Run(b, Settling()), Unlinks(names))
  {
    RunAppend(s, [Begin(order)] + Uploads(|order|) + Settling(), Unlinks(names));
    RunAppend(s, [Begin(order)] + Uploads(|order|), Settling());
    RunAppend(s, [Begin(order)], Uploads(|order|));
    OneStep(s, Begin(order));
    hide Run, Step, Uploads, Settling, Unlinks;
  }

  /** The state behind the copies of a pass. */
  ghost predicate Copied(s: State, b: State) {
    && Inv(b) && CopyOk(b) && b.worker.todo == [] && b.worker.cleanup == s.local.Keys
    && (Intact(b.objects, b.worker) <==> Undamaged(s))
    && Untouched(s.objects, b.objects, Merged(s.manifest, s.remote))
    && b == s.(worker := b.worker, objects := b.objects)
  }

  lemma {:induction false} PassCopies(s: State, order: seq<Name>)
    requires Inv(s) && s.worker.Idle? && IsTodo(order, s.manifest, s.local)
    ensures Copied(s, Run(Step(s, Begin(order)), Uploads(|order|)))
  {
    BeginReady(s, order);
    UploadsAll(Step(s, Begin(order)));
    hide Inv, CopyOk, Intact, Undamaged, Untouched, Merged, Names, Run, Uploads;
  }

  lemma {:induction false} StillDamaged(s: State, b: State, order: seq<Name>)
    requires Inv(s) && s.worker.Idle? && IsTodo(order, s.manifest, s.local) && Copied(s, b) && !Undamaged(s)
    requires Inv(b.(worker := Idle))
    ensures !Undamaged(b.(worker := Idle))
  {
    BeginRelies(s, order);
    BeginRelies(b.(worker := Idle), order);
    hide Inv, CopyOk, Intact, Undamaged, Merged;
  }

  lemma {:induction false} Stopped(s: State)
    requires Inv(s)
    ensures Inv(s.(worker := Idle))
  {
    hide NothingLost, Sound, Within, AllPresent, Lists;
  }

  /** Main result: such a pass archives every segment and removes every local copy if the store
      still has the segments it alone has published; otherwise it stops, here and in every
      later pass, with all local segments and both manifests as they were. */
  lemma {:induction false} PassDecides(s: State, order: seq<Name>, names: seq<Name>)
    requires Inv(s) && s.worker.Idle? && IsTodo(order, s.manifest, s.local) && Names(names) == s.local.Keys
    ensures var t := Run(s, Pass(order, names));
      if Undamaged(s) then t.local == map[] && t.sealed == s.sealed && forall name :: name in s.sealed ==> Archived(t, name)
      else t == s.(objects := t.objects) && !Undamaged(t)
  {
    hide Step, Run, Inv, Intact, Uploads, Unlinks, Settling, CopyOk, Undamaged, Names, Untouched, Archived, IsTodo, Pass;
    var b := Run(Step(s, Begin(order)), Uploads(|order|));
    var t := Run(s, Pass(order, names));
    PassRuns(s, order, names);
    PassCopies(s, order);
    SettlingDecides(b);
    if Undamaged(s) {
      UnlinksAll(Run(b, Settling()), names);
      KeepRun(s, Pass(order, names));
      forall name | name in s.sealed
        ensures Archived(t, name)
      {
        LostIsArchived(t, name);
      }
    } else {
      UnlinksNothing(Run(b, Settling()), names);
      Stopped(b);
      StillDamaged(s, b, order);
    }
  }

  lemma {:induction false} LostIsArchived(s: State, name: Name)
    requires Inv(s) && name in s.sealed && name !in s.local
    ensures Archived(s, name)
  {
    AllWithin(s.objectsDurable, s.durable, s.manifest);
    var i :| 0 <= i < |s.durable| && s.durable[i].segment == name;
    assert s.durable[i] in s.durable && Present(s.objectsDurable, s.durable[i]);
  }
}
