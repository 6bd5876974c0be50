/** Moving sealed log segments to the archive store: copy and verify, publish the remote
    manifest, commit the local one, and only then unlink. The Controller and the store
    may stop between any two steps. One log of one run; digests identify contents. */
module RunArchive {
  import opened Wrappers
  import opened AtomicFile

  type Name = nat
  type Content = nat

  /** The first object of a log carries the log's own name, later ones that of their segment. */
  datatype Object = Logical | Named(segment: Name)

  datatype Part = Part(segment: Name, at: Object, digest: Content)

  /** What one attempt has put together so far: the manifest to be, the segments still to
      copy, those to unlink at the end, and the stored parts it must verify again. */
  datatype Worker =
    | Idle
    | Copying(manifest: seq<Part>, todo: seq<Name>, cleanup: set<Name>, reused: seq<Part>)
    | Verified(manifest: seq<Part>, cleanup: set<Name>)
    | Committing(manifest: seq<Part>, cleanup: set<Name>)
    | Unlinking(cleanup: set<Name>)

  /** sealed: every segment ever sealed. local: the segments still here. A manifest or an
      object has a visible and a durable version. */
  datatype State = State(sealed: map<Name, Content>, local: map<Name, Content>,
                         manifest: seq<Part>, durable: seq<Part>,
                         remote: seq<Part>, remoteDurable: seq<Part>,
                         objects: map<Object, Content>, objectsDurable: map<Object, Content>, worker: Worker)

  function Initial(): State {
    State(map[], map[], [], [], [], [], map[], map[], Idle)
  }

  datatype Action =
    | Seal(name: Name, content: Content)
    | Reappear(name: Name)
    | Begin(order: seq<Name>)
    | Upload(write: Write)
    | Verify
    | PublishRemote(write: Write)
    | CommitLocal(write: Write)
    | Unlink(name: Name)
    | Stop
    | CrashController(keep: bool)
    | CrashStore(keep: bool, kept: set<Object>)

  // ---------- One attempt ----------

  predicate Lists(m: seq<Part>, name: Name) {
    exists i :: 0 <= i < |m| && m[i].segment == name
  }

  predicate Uses(m: seq<Part>, at: Object) {
    exists i :: 0 <= i < |m| && m[i].at == at
  }

  function PartOf(m: seq<Part>, name: Name): (p: Part)
    requires Lists(m, name)
    ensures p in m && p.segment == name
  {
    if m[0].segment == name then m[0] else PartOf(m[1..], name)
  }

  /** The local manifest and whatever else the store has published. */
  function Merged(m: seq<Part>, published: seq<Part>): seq<Part> {
    if published == [] then m
    else
      var rest := Merged(m, published[..|published| - 1]);
      var p := published[|published| - 1];
      if Uses(m, p.at) then rest else rest + [p]
  }

  /** The parts of local segments that the local manifest lists already. */
  function Known(m: seq<Part>, local: map<Name, Content>): seq<Part> {
    if m == [] then []
    else Known(m[..|m| - 1], local) + if m[|m| - 1].segment in local then [m[|m| - 1]] else []
  }

  function KnownNames(m: seq<Part>, local: map<Name, Content>): set<Name> {
    set name | name in local && Lists(m, name)
  }

  /** The segments to copy are the local ones the manifest does not list, in some order. */
  predicate IsTodo(order: seq<Name>, m: seq<Part>, local: map<Name, Content>) {
    && (forall name :: name in order ==> name in local && !Lists(m, name))
    && (forall name :: name in local && !Lists(m, name) ==> name in order)
  }

  function Target(m: seq<Part>, name: Name): Object {
    if m == [] then Logical else Named(name)
  }

  function UploadStep(s: State, w: Worker, write: Write): State
    requires w.Copying? && w.todo != []
  {
    var name, rest := w.todo[0], w.todo[1..];
    if Lists(w.manifest, name) then
      s.(worker := w.(todo := rest, cleanup := w.cleanup + {name}, reused := w.reused + [PartOf(w.manifest, name)]))
    else if write.Failed? || name !in s.local then s.(worker := Idle)
    else
      var at := Target(w.manifest, name);
      s.(objects := s.objects[at := s.local[name]],
         worker := w.(manifest := w.manifest + [Part(name, at, s.local[name])], todo := rest, cleanup := w.cleanup + {name}))
  }

  predicate Present(objects: map<Object, Content>, p: Part) {
    p.at in objects && objects[p.at] == p.digest
  }

  function Step(s: State, a: Action): State {
    var w := s.worker;
    match a
    case Seal(name, content) =>
      if name in s.sealed then s else s.(sealed := s.sealed[name := content], local := s.local[name := content])
    case Reappear(name) => if name in s.sealed && w.Idle? then s.(local := s.local[name := s.sealed[name]]) else s
    case Begin(order) =>
      if w.Idle? && IsTodo(order, s.manifest, s.local)
      then s.(worker := Copying(Merged(s.manifest, s.remote), order, KnownNames(s.manifest, s.local), Known(s.manifest, s.local))) else s
    case Upload(write) => if w.Copying? && w.todo != [] then UploadStep(s, w, write) else s
    case Verify =>
      if w.Copying? && w.todo == [] then
        if forall i :: 0 <= i < |w.reused| ==> Present(s.objects, w.reused[i]) then s.(worker := Verified(w.manifest, w.cleanup))
        else s.(worker := Idle)
      else s
    case PublishRemote(write) =>
      if !w.Verified? then s
      else if write.Saved? then
        s.(remote := w.manifest, remoteDurable := w.manifest, objectsDurable := s.objects, worker := Committing(w.manifest, w.cleanup))
      else if write.Renamed? then s.(remote := w.manifest, worker := Idle)
      else s.(worker := Idle)
    case CommitLocal(write) =>
      if !w.Committing? then s
      else if write.Saved? then s.(manifest := w.manifest, durable := w.manifest, worker := Unlinking(w.cleanup))
      else if write.Renamed? then s.(manifest := w.manifest, worker := Idle)
      else s.(worker := Idle)
    case Unlink(name) => if w.Unlinking? && name in w.cleanup then s.(local := s.local - {name}) else s
    case Stop => s.(worker := Idle)
    case CrashController(keep) =>
      var left := if keep then s.manifest else s.durable;
      s.(manifest := left, durable := left, worker := Idle)
    case CrashStore(keep, kept) =>
      var left := if keep then s.remote else s.remoteDurable;
      var objects := map o | o in s.objects.Keys + s.objectsDurable.Keys && (if o in kept then o in s.objects else o in s.objectsDurable) ::
        if o in kept then s.objects[o] else s.objectsDurable[o];
      s.(remote := left, remoteDurable := left, objects := objects, objectsDurable := objects, worker := Idle)
  }

  function Run(s: State, actions: seq<Action>): State
    decreases |actions|
  {
    if actions == [] then s else Run(Step(s, actions[0]), actions[1..])
  }

  // ---------- The invariant ----------

  /** Every part describes its sealed segment; no segment and no object occurs twice. */
  ghost predicate Sound(sealed: map<Name, Content>, m: seq<Part>) {
    && (forall i :: 0 <= i < |m| ==> m[i].segment in sealed && m[i].digest == sealed[m[i].segment])
    && (forall i :: 0 <= i < |m| ==> m[i].at == Logical || m[i].at == Named(m[i].segment))
    && (forall i, j :: 0 <= i < j < |m| ==> m[i].segment != m[j].segment && m[i].at != m[j].at)
  }

  ghost predicate Within(m: seq<Part>, n: seq<Part>) {
    forall i :: 0 <= i < |m| ==> m[i] in n
  }

  ghost predicate AllPresent(objects: map<Object, Content>, m: seq<Part>) {
    forall i :: 0 <= i < |m| ==> Present(objects, m[i])
  }

  /** Every sealed segment is here, or the durable local manifest says where it went. */
  ghost predicate NothingLost(sealed: map<Name, Content>, local: map<Name, Content>, durable: seq<Part>) {
    && (forall name :: name in local ==> name in sealed && local[name] == sealed[name])
    && (forall name :: name in sealed && name !in local ==> Lists(durable, name))
  }

  ghost predicate ManifestsOk(s: State) {
    && Sound(s.sealed, s.manifest) && Sound(s.sealed, s.durable) && Sound(s.sealed, s.remote) && Sound(s.sealed, s.remoteDurable)
    && Within(s.durable, s.manifest) && Within(s.manifest, s.remoteDurable) && Within(s.remoteDurable, s.remote)
    && AllPresent(s.objects, s.manifest) && AllPresent(s.objectsDurable, s.manifest)
  }

  /** A part of the attempt is committed already, still to be looked at, to be verified, or in place. */
  ghost predicate PartOk(s: State, w: Worker, p: Part)
    requires w.Copying?
  {
    p in s.manifest || p.segment in w.todo || p in w.reused || Present(s.objects, p)
  }

  ghost predicate WorkerOk(s: State) {
    match s.worker
    case Idle => true
    case Copying(m, todo, cleanup, reused) =>
      && Sound(s.sealed, m) && Within(s.manifest, m) && Within(s.remote, m)
      && (forall i :: 0 <= i < |m| ==> PartOk(s, s.worker, m[i]))
      && (forall name :: name in cleanup ==> Lists(m, name))
      && (forall i :: 0 <= i < |todo| ==> todo[i] in s.sealed)
    case Verified(m, cleanup) =>
      && Sound(s.sealed, m) && Within(s.manifest, m) && Within(s.remote, m) && AllPresent(s.objects, m)
      && (forall name :: name in cleanup ==> Lists(m, name))
    case Committing(m, cleanup) =>
      && Sound(s.sealed, m) && Within(s.manifest, m) && s.remote == s.remoteDurable == m
      && AllPresent(s.objects, m) && AllPresent(s.objectsDurable, m)
      && (forall name :: name in cleanup ==> Lists(m, name))
    case Unlinking(cleanup) => forall name :: name in cleanup ==> Lists(s.durable, name)
  }

  ghost predicate Inv(s: State) {
    NothingLost(s.sealed, s.local, s.durable) && ManifestsOk(s) && WorkerOk(s)
  }

  // ---------- Manifests ----------

  lemma {:induction false} WithinTrans(a: seq<Part>, b: seq<Part>, c: seq<Part>)
    requires Within(a, b) && Within(b, c)
    ensures Within(a, c)
  {
  }

  lemma {:induction false} WithinSame(a: seq<Part>)
    ensures Within(a, a)
  {
  }

  lemma {:induction false} ListsWithin(a: seq<Part>, b: seq<Part>, name: Name)
    requires Within(a, b) && Lists(a, name)
    ensures Lists(b, name)
  {
    var i :| 0 <= i < |a| && a[i].segment == name;
    assert a[i] in b;
  }

  lemma {:induction false} SoundSealed(sealed: map<Name, Content>, m: seq<Part>, name: Name, content: Content)
    requires Sound(sealed, m) && name !in sealed
    ensures Sound(sealed[name := content], m)
  {
  }

  /** In a sound manifest a segment, and an object, determine their part. */
  lemma {:induction false} SamePart(sealed: map<Name, Content>, m: seq<Part>, p: Part, q: Part)
    requires Sound(sealed, m) && p in m && q in m && (p.segment == q.segment || p.at == q.at)
    ensures p == q
  {
  }

  lemma {:induction false} MergedMembers(m: seq<Part>, published: seq<Part>)
    ensures Within(m, Merged(m, published))
    ensures forall p :: p in Merged(m, published) <==> p in m || (p in published && !Uses(m, p.at))
  {
    if published != [] {
      var n := |published| - 1;
      MergedMembers(m, published[..n]);
      assert published == published[..n] + [published[n]];
    } else {
      WithinSame(m);
    }
  }

  lemma {:induction false} PrefixSound(sealed: map<Name, Content>, m: seq<Part>)
    requires Sound(sealed, m) && m != []
    ensures Sound(sealed, m[..|m| - 1])
  {
  }

  /** The union of the two manifests is sound: the local one is part of the remote one. */
  lemma {:induction false} MergedSound(sealed: map<Name, Content>, m: seq<Part>, published: seq<Part>, all: seq<Part>)
    requires Sound(sealed, m) && Sound(sealed, published) && Sound(sealed, all) && Within(m, all) && Within(published, all)
    ensures Sound(sealed, Merged(m, published))
    decreases |published|
  {
    if published != [] {
      var n := |published| - 1;
      var front, p := published[..n], published[n];
      PrefixSound(sealed, published);
      MergedSound(sealed, m, front, all);
      MergedMembers(m, front);
      var rest := Merged(m, front);
      if !Uses(m, p.at) {
        forall i | 0 <= i < |rest|
          ensures rest[i].segment != p.segment && rest[i].at != p.at
        {
          assert rest[i] in rest && p in all;
          if rest[i].segment == p.segment || rest[i].at == p.at {
            SamePart(sealed, all, rest[i], p);
            OnlyOnce(published, p);
          }
        }
      }
    }
  }

  lemma {:induction false} OnlyOnce(m: seq<Part>, p: Part)
    requires m != [] && p == m[|m| - 1] && forall i, j :: 0 <= i < j < |m| ==> m[i].segment != m[j].segment
    ensures p !in m[..|m| - 1]
  {
  }

  lemma {:induction false} MergedCovers(sealed: map<Name, Content>, m: seq<Part>, published: seq<Part>)
    requires Sound(sealed, published) && Within(m, published)
    ensures Within(published, Merged(m, published))
  {
    MergedMembers(m, published);
    forall i | 0 <= i < |published|
      ensures published[i] in Merged(m, published)
    {
      if Uses(m, published[i].at) {
        var j :| 0 <= j < |m| && m[j].at == published[i].at;
        assert m[j] in published;
        SamePart(sealed, published, m[j], published[i]);
      }
    }
  }

  lemma {:induction false} KnownListed(m: seq<Part>, local: map<Name, Content>)
    ensures forall p :: p in Known(m, local) ==> p in m
  {
    if m != [] {
      KnownListed(m[..|m| - 1], local);
    }
  }

  // ---------- Steps ----------

  /** A part published but not committed here belongs to a segment that is still here. */
  lemma {:induction false} UncommittedIsLocal(s: State, p: Part)
    requires Inv(s) && p in s.remote && !Uses(s.manifest, p.at)
    ensures p.segment in s.local && !Lists(s.manifest, p.segment)
  {
    WithinTrans(s.manifest, s.remoteDurable, s.remote);
    if Lists(s.manifest, p.segment) {
      var i :| 0 <= i < |s.manifest| && s.manifest[i].segment == p.segment;
      assert s.manifest[i] in s.remote;
      SamePart(s.sealed, s.remote, s.manifest[i], p);
    }
    if p.segment !in s.local {
      ListsWithin(s.durable, s.manifest, p.segment);
    }
  }

  lemma {:induction false} KeepBegin(s: State, order: seq<Name>)
    requires Inv(s) && s.worker.Idle? && IsTodo(order, s.manifest, s.local)
    ensures Inv(Step(s, Begin(order)))
  {
    var m, t := Merged(s.manifest, s.remote), Step(s, Begin(order));
    WithinTrans(s.manifest, s.remoteDurable, s.remote);
    WithinSame(s.remote);
    MergedSound(s.sealed, s.manifest, s.remote, s.remote);
    MergedMembers(s.manifest, s.remote);
    MergedCovers(s.sealed, s.manifest, s.remote);
    forall i | 0 <= i < |m|
      ensures PartOk(t, t.worker, m[i])
    {
      assert m[i] in m;
      if m[i] !in s.manifest {
        UncommittedIsLocal(s, m[i]);
      }
    }
    forall name | name in KnownNames(s.manifest, s.local)
      ensures Lists(m, name)
    {
      ListsWithin(s.manifest, m, name);
    }
    forall i | 0 <= i < |order|
      ensures order[i] in s.sealed
    {
      assert order[i] in order;
    }
    hide Sound, Merged, Within;
  }

  lemma {:induction false} NewObject(sealed: map<Name, Content>, m: seq<Part>, name: Name)
    requires Sound(sealed, m) && !Lists(m, name)
    ensures !Uses(m, Target(m, name))
    ensures name in sealed ==> Sound(sealed, m + [Part(name, Target(m, name), sealed[name])])
  {
  }

  /** A segment that is stored already, by this or an earlier attempt. */
  lemma {:induction false} KeepStored(s: State)
    requires Inv(s) && s.worker.Copying? && s.worker.todo != [] && Lists(s.worker.manifest, s.worker.todo[0])
    ensures Inv(UploadStep(s, s.worker, Saved))
  {
    var w := s.worker;
    var name, t := w.todo[0], UploadStep(s, w, Saved);
    forall i | 0 <= i < |w.manifest|
      ensures PartOk(t, t.worker, w.manifest[i])
    {
      assert PartOk(s, w, w.manifest[i]);
      if w.manifest[i].segment == name {
        SamePart(s.sealed, w.manifest, w.manifest[i], PartOf(w.manifest, name));
      }
    }
    hide Sound, Within;
  }

  /** A segment copied now: its object is new, so nothing published changes. */
  lemma {:induction false} KeepCopied(s: State)
    requires Inv(s) && s.worker.Copying? && s.worker.todo != [] && !Lists(s.worker.manifest, s.worker.todo[0])
    requires s.worker.todo[0] in s.local
    ensures Inv(UploadStep(s, s.worker, Saved))
  {
    var w := s.worker;
    var name, t := w.todo[0], UploadStep(s, w, Saved);
    var at := Target(w.manifest, name);
    NewObject(s.sealed, w.manifest, name);
    var m := t.worker.manifest;
    forall i | 0 <= i < |m|
      ensures PartOk(t, t.worker, m[i])
    {
      if i < |w.manifest| {
        assert PartOk(s, w, w.manifest[i]);
        assert w.manifest[i].segment != name && w.manifest[i].at != at;
      }
    }
    LongerWithin(s.manifest, w.manifest, m);
    LongerWithin(s.remote, w.manifest, m);
    LongerLists(w.manifest, m, w.cleanup, name);
    hide Sound, Within, Lists;
  }

  lemma {:induction false} LongerWithin(a: seq<Part>, b: seq<Part>, c: seq<Part>)
    requires Within(a, b) && b <= c
    ensures Within(a, c)
  {
  }

  lemma {:induction false} LongerLists(a: seq<Part>, b: seq<Part>, names: set<Name>, name: Name)
    requires a <= b && (forall x :: x in names ==> Lists(a, x)) && |b| == |a| + 1 && b[|a|].segment == name
    ensures forall x :: x in names + {name} ==> Lists(b, x)
  {
    forall x | x in names + {name}
      ensures Lists(b, x)
    {
      if x in names {
        var i :| 0 <= i < |a| && a[i].segment == x;
        assert b[i].segment == x;
      } else {
        assert b[|a|].segment == x;
      }
    }
  }

  lemma {:induction false} KeepUpload(s: State, write: Write)
    requires Inv(s) && s.worker.Copying? && s.worker.todo != []
    ensures Inv(UploadStep(s, s.worker, write))
  {
    var name := s.worker.todo[0];
    if Lists(s.worker.manifest, name) {
      KeepStored(s);
    } else if !write.Failed? && name in s.local {
      KeepCopied(s);
    }
  }

  lemma {:induction false} KeepVerify(s: State)
    requires Inv(s)
    ensures Inv(Step(s, Verify))
  {
    var w := s.worker;
    if w.Copying? && w.todo == [] && (forall i :: 0 <= i < |w.reused| ==> Present(s.objects, w.reused[i])) {
      forall i | 0 <= i < |w.manifest|
        ensures Present(s.objects, w.manifest[i])
      {
        assert PartOk(s, w, w.manifest[i]);
      }
    }
    hide Sound, Within, Lists;
  }

  lemma {:induction false} KeepPublish(s: State, write: Write)
    requires Inv(s)
    ensures Inv(Step(s, PublishRemote(write)))
  {
    if s.worker.Verified? {
      var m := s.worker.manifest;
      WithinSame(m);
      WithinTrans(s.remoteDurable, s.remote, m);
      AllWithin(s.objects, s.manifest, m);
    }
    hide Sound, Within, Lists, AllPresent;
  }

  lemma {:induction false} AllWithin(objects: map<Object, Content>, a: seq<Part>, b: seq<Part>)
    requires Within(a, b) && AllPresent(objects, b)
    ensures AllPresent(objects, a)
  {
  }

  lemma {:induction false} KeepCommit(s: State, write: Write)
    requires Inv(s)
    ensures Inv(Step(s, CommitLocal(write)))
  {
    if s.worker.Committing? {
      var m := s.worker.manifest;
      WithinSame(m);
      WithinTrans(s.durable, s.manifest, m);
      LostNothing(s.sealed, s.local, s.durable, m);
    }
    hide Sound, Within, Lists, AllPresent, NothingLost;
  }

  lemma {:induction false} LostNothing(sealed: map<Name, Content>, local: map<Name, Content>, a: seq<Part>, b: seq<Part>)
    requires NothingLost(sealed, local, a) && Within(a, b)
    ensures NothingLost(sealed, local, b)
  {
    forall name | name in sealed && name !in local
      ensures Lists(b, name)
    {
      ListsWithin(a, b, name);
    }
  }

  lemma {:induction false} KeepLocal(s: State, a: Action)
    requires Inv(s) && (a.Seal? || a.Reappear? || a.Unlink? || a.Stop?)
    ensures Inv(Step(s, a))
  {
    if a.Seal? && a.name !in s.sealed {
      SoundSealed(s.sealed, s.manifest, a.name, a.content);
      SoundSealed(s.sealed, s.durable, a.name, a.content);
      SoundSealed(s.sealed, s.remote, a.name, a.content);
      SoundSealed(s.sealed, s.remoteDurable, a.name, a.content);
      if s.worker.Copying? || s.worker.Verified? || s.worker.Committing? {
        SoundSealed(s.sealed, s.worker.manifest, a.name, a.content);
      }
      var t := Step(s, a);
      if s.worker.Copying? {
        forall i | 0 <= i < |s.worker.manifest|
          ensures PartOk(t, t.worker, s.worker.manifest[i])
        {
          assert PartOk(s, s.worker, s.worker.manifest[i]);
        }
      }
    }
    hide Sound, Within, Lists, AllPresent;
  }

  lemma {:induction false} KeepController(s: State, keep: bool)
    requires Inv(s)
    ensures Inv(Step(s, CrashController(keep)))
  {
    WithinSame(s.manifest);
    WithinSame(s.durable);
    WithinTrans(s.durable, s.manifest, s.remoteDurable);
    LostNothing(s.sealed, s.local, s.durable, s.manifest);
    AllWithin(s.objects, s.durable, s.manifest);
    AllWithin(s.objectsDurable, s.durable, s.manifest);
    hide Sound, Within, Lists, AllPresent, NothingLost;
  }

  lemma {:induction false} KeepStore(s: State, keep: bool, kept: set<Object>)
    requires Inv(s)
    ensures Inv(Step(s, CrashStore(keep, kept)))
  {
    WithinSame(s.remote);
    WithinSame(s.remoteDurable);
    WithinTrans(s.manifest, s.remoteDurable, s.remote);
    hide Sound, Within, Lists, NothingLost;
  }

  lemma {:induction false} KeepStep(s: State, a: Action)
    requires Inv(s)
    ensures Inv(Step(s, a))
  {
    match a
    case Seal(_, _) => KeepLocal(s, a);
    case Reappear(_) => KeepLocal(s, a);
    case Unlink(_) => KeepLocal(s, a);
    case Stop => KeepLocal(s, a);
    case Begin(order) => if s.worker.Idle? && IsTodo(order, s.manifest, s.local) { KeepBegin(s, order); }
    case Upload(write) => if s.worker.Copying? && s.worker.todo != [] { KeepUpload(s, write); }
    case Verify => KeepVerify(s);
    case PublishRemote(write) => KeepPublish(s, write);
    case CommitLocal(write) => KeepCommit(s, write);
    case CrashController(keep) => KeepController(s, keep);
    case CrashStore(keep, kept) => KeepStore(s, keep, kept);
  }

  lemma {:induction false} KeepRun(s: State, actions: seq<Action>)
    requires Inv(s)
    ensures Inv(Run(s, actions))
    decreases |actions|
  {
    hide Inv, Step;
    if actions != [] {
      KeepStep(s, actions[0]);
      KeepRun(Step(s, actions[0]), actions[1..]);
    }
  }

  /** Where the content of a segment is found for certain. */
  ghost predicate Archived(s: State, name: Name) {
    name in s.sealed && exists p :: p in s.durable && p.segment == name && p.digest == s.sealed[name] && Present(s.objectsDurable, p)
  }

  /** Main result: after every step, crash and retry, each sealed segment is still local or
      is named by the durable local manifest with a durable object of the same digest; and
      no manifest lists a segment twice. */
  lemma {:induction false} NothingLostOrDoubled(actions: seq<Action>, name: Name)
    ensures var s := Run(Initial(), actions);
      && (name in s.sealed ==> (name in s.local && s.local[name] == s.sealed[name]) || Archived(s, name))
      && forall i, j :: 0 <= i < j < |s.manifest| ==> s.manifest[i].segment != s.manifest[j].segment
    ensures var s := Run(Initial(), actions);
      && (forall i, j :: 0 <= i < j < |s.durable| ==> s.durable[i].segment != s.durable[j].segment)
      && (forall i, j :: 0 <= i < j < |s.remote| ==> s.remote[i].segment != s.remote[j].segment)
  {
    assert Inv(Initial());
    KeepRun(Initial(), actions);
    var s := Run(Initial(), actions);
    hide Run;
    AllWithin(s.objectsDurable, s.durable, s.manifest);
    if name in s.sealed && name !in s.local {
      var i :| 0 <= i < |s.durable| && s.durable[i].segment == name;
      assert s.durable[i] in s.durable && Present(s.objectsDurable, s.durable[i]);
    }
  }
}
