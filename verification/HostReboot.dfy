/** Rebooting a host through its Agent: a receipt is durable before a helper starts, a
    rejection is durable before it is answered, and the Agent or the whole host may
    stop between any two steps. Boot identities and start times are fresh numbers. */
module HostReboot {
  import opened Wrappers
  import opened AtomicFile

  datatype Request = Request(op: nat, node: nat, boot: nat, start: nat)

  /** requested: the helper is known to have run; otherwise its outcome is unknown. */
  datatype Receipt = Receipt(request: Request, requested: bool)

  datatype Files = Files(receipt: Option<Receipt>, rejections: map<nat, Request>)

  /** Where the one request being handled stands. `mine` says that it raised the
      pending flag and takes it back if it is not committed. */
  datatype Stage =
    | Idle
    | Prepared(request: Request)
    | Committed(request: Request)
    | Started(request: Request)
    | Rejecting(request: Request, mine: bool)

  /** disk is what a read sees, durable what survives a crash of the host for certain.
      helpers: every request for which a helper was started, in order. rejected: every
      request whose rejection was made durable before it was answered. */
  datatype State = State(node: nat, boot: nat, start: nat, up: bool, enabled: bool, receipt: Option<Receipt>, pending: bool, stage: Stage,
                         disk: Files, durable: Files, helpers: seq<Request>, rejected: set<Request>)

  function Initial(node: nat): State {
    State(node, 0, 0, false, false, None, false, Idle, Files(None, map[]), Files(None, map[]), [], {})
  }

  datatype Action =
    | Ask(request: Request, readable: bool, quiet: bool)
    | GiveUp
    | SaveReceipt(write: Write)
    | StartHelper
    | SaveOutcome(requested: bool, write: Write)
    | SaveRejection(write: Write)
    | StopAgent
    | StopHost(keepReceipt: bool, lost: set<nat>)
    | StartAgent(enabled: bool, bootKnown: bool, readable: bool)

  function Replace(s: State, receipt: Receipt, write: Write): State {
    match write
    case Saved => s.(disk := s.disk.(receipt := Some(receipt)), durable := s.durable.(receipt := Some(receipt)))
    case Renamed => s.(disk := s.disk.(receipt := Some(receipt)))
    case Failed => s
  }

  predicate RejectedBefore(files: Files, r: Request) {
    r.op in files.rejections && files.rejections[r.op] == r
  }

  /** All the checks of a request, up to the preparation of a reboot. */
  function AskStep(s: State, r: Request, readable: bool, quiet: bool): State {
    if !s.up || !s.stage.Idle? then s
    else if r.node != s.node || r.boot != s.boot || r.start != s.start then s
    else if !readable then s.(pending := true)
    else if RejectedBefore(s.disk, r) then s
    else if !s.enabled then s.(stage := Rejecting(r, false))
    else if s.receipt.Some? && s.receipt.value.request.boot == s.boot then
      if s.receipt.value.request == r then s else s.(stage := Rejecting(r, false))
    else if s.pending || !quiet then s.(stage := Rejecting(r, false))
    else s.(stage := Prepared(r), pending := true)
  }

  function SaveReceiptStep(s: State, r: Request, write: Write): State {
    var t := Replace(s, Receipt(r, false), write);
    if write.Saved? then t.(receipt := Some(Receipt(r, false)), stage := Committed(r)) else t.(stage := Rejecting(r, true))
  }

  function SaveRejectionStep(s: State, r: Request, mine: bool, write: Write): State {
    var seen := s.disk.(rejections := s.disk.rejections[r.op := r]);
    match write
    case Saved =>
      s.(disk := seen, durable := s.durable.(rejections := s.durable.rejections[r.op := r]), rejected := s.rejected + {r},
         pending := s.pending && !mine, stage := Idle)
    case Renamed => s.(disk := seen, pending := true, stage := Idle)
    case Failed => s.(pending := true, stage := Idle)
  }

  function Survivors(s: State, keepReceipt: bool, lost: set<nat>): Files {
    Files(if keepReceipt then s.disk.receipt else s.durable.receipt,
          map op | op in s.disk.rejections.Keys + s.durable.rejections.Keys && (op in s.durable.rejections || op !in lost) ::
            if op in lost || op !in s.disk.rejections then s.durable.rejections[op] else s.disk.rejections[op])
  }

  /** A restarted Agent trusts its receipt unless a rejection proves that nothing ran. */
  function StartStep(s: State, enabled: bool, bootKnown: bool, readable: bool): State {
    var found := s.disk.receipt;
    var doubtful := found.Some? && bootKnown && found.value.request.boot == s.boot && !found.value.requested;
    if s.up || (doubtful && !readable) then s
    else
      var receipt := if doubtful && RejectedBefore(s.disk, found.value.request) then None else found;
      if receipt.Some? && !bootKnown then s
      else s.(up := true, enabled := enabled, receipt := receipt, pending := receipt.Some? && receipt.value.request.boot == s.boot, stage := Idle)
  }

  function Step(s: State, a: Action): State {
    match a
    case Ask(r, readable, quiet) => AskStep(s, r, readable, quiet)
    case GiveUp => if s.stage.Prepared? then s.(stage := Rejecting(s.stage.request, true)) else s
    case SaveReceipt(write) => if s.stage.Prepared? then SaveReceiptStep(s, s.stage.request, write) else s
    case StartHelper =>
      if s.stage.Committed? then s.(helpers := s.helpers + [s.stage.request], stage := Started(s.stage.request)) else s
    case SaveOutcome(requested, write) =>
      if s.stage.Started? then Replace(s, Receipt(s.stage.request, requested), write).(receipt := Some(Receipt(s.stage.request, requested)), stage := Idle) else s
    case SaveRejection(write) =>
      if s.stage.Rejecting? then SaveRejectionStep(s, s.stage.request, s.stage.mine, write) else s
    case StopAgent => s.(up := false, stage := Idle, start := s.start + 1)
    case StopHost(keepReceipt, lost) =>
      var left := Survivors(s, keepReceipt, lost);
      s.(up := false, stage := Idle, start := s.start + 1, boot := s.boot + 1, disk := left, durable := left)
    case StartAgent(enabled, bootKnown, readable) => StartStep(s, enabled, bootKnown, readable)
  }

  function Run(s: State, actions: seq<Action>): State
    decreases |actions|
  {
    if actions == [] then s else Run(Step(s, actions[0]), actions[1..])
  }

  // ---------- The invariant ----------

  predicate Holds(receipt: Option<Receipt>, r: Request) {
    receipt.Some? && receipt.value.request == r
  }

  ghost predicate HelpersOk(s: State) {
    && (forall i, j :: 0 <= i < j < |s.helpers| ==> s.helpers[i].boot != s.helpers[j].boot)
    && (forall i :: 0 <= i < |s.helpers| ==> s.helpers[i].boot <= s.boot && s.helpers[i].start <= s.start)
    && (forall i :: 0 <= i < |s.helpers| && s.helpers[i].start == s.start ==> s.up && s.enabled)
  }

  /** The helper of this boot is on record everywhere a decision is taken. */
  ghost predicate Recorded(s: State) {
    forall i :: 0 <= i < |s.helpers| && s.helpers[i].boot == s.boot ==>
      && Holds(s.disk.receipt, s.helpers[i]) && Holds(s.durable.receipt, s.helpers[i])
      && (s.up ==> Holds(s.receipt, s.helpers[i]))
  }

  ghost predicate NoHelper(s: State) {
    forall i :: 0 <= i < |s.helpers| ==> s.helpers[i].boot != s.boot
  }

  predicate Current(s: State, r: Request) {
    r.node == s.node && r.boot == s.boot && r.start == s.start
  }

  /** Rejections never name a request that has been executed. */
  ghost predicate Exclusive(s: State) {
    forall r :: r in s.helpers ==> !RejectedBefore(s.disk, r) && !RejectedBefore(s.durable, r) && r !in s.rejected
  }

  ghost predicate RejectionsOk(s: State) {
    && (forall r :: r in s.rejected ==> r.start <= s.start && (r.start == s.start ==> Current(s, r) && RejectedBefore(s.disk, r)))
    && (forall op :: op in s.disk.rejections ==>
          && s.disk.rejections[op].op == op && s.disk.rejections[op].start <= s.start
          && (s.disk.rejections[op].start == s.start ==> Current(s, s.disk.rejections[op])))
  }

  ghost predicate StageOk(s: State) {
    match s.stage
    case Idle => true
    case Prepared(r) => s.up && s.enabled && s.pending && Current(s, r) && NoHelper(s) && r !in s.rejected && !RejectedBefore(s.disk, r)
    case Committed(r) => s.up && s.enabled && Current(s, r) && NoHelper(s) && r !in s.rejected && !RejectedBefore(s.disk, r)
                         && Holds(s.disk.receipt, r) && Holds(s.durable.receipt, r) && Holds(s.receipt, r)
    case Started(r) => s.up && Current(s, r) && r in s.helpers
    case Rejecting(r, _) => s.up && Current(s, r) && r !in s.helpers
  }

  /** What is durable about rejections is also visible, or was replaced by a later one. */
  ghost predicate DurableOk(s: State) {
    forall op :: op in s.durable.rejections ==>
      && s.durable.rejections[op].op == op && s.durable.rejections[op].start <= s.start
      && (s.durable.rejections[op].start == s.start ==> RejectedBefore(s.disk, s.durable.rejections[op]))
  }

  predicate OnRecord(s: State) {
    s.receipt.Some? && s.receipt.value.request.boot == s.boot
  }

  /** A recorded operation keeps the Agent closed for peers. */
  ghost predicate PendingOk(s: State) {
    && (s.up && OnRecord(s) ==> s.pending)
    && (s.stage.Prepared? ==> !OnRecord(s)) && (s.stage.Committed? ==> s.pending)
    && (s.stage.Rejecting? && s.stage.mine ==> !OnRecord(s))
  }

  /** Receipts are of this boot or an earlier one, and claim only helpers that were started. */
  ghost predicate ReceiptOk(s: State, receipt: Option<Receipt>) {
    receipt.Some? ==> receipt.value.request.boot <= s.boot && (receipt.value.requested ==> receipt.value.request in s.helpers)
  }

  ghost predicate ReceiptsOk(s: State) {
    ReceiptOk(s, s.disk.receipt) && ReceiptOk(s, s.durable.receipt)
  }

  ghost predicate Inv(s: State) {
    ReceiptsOk(s) && PendingOk(s) && HelpersOk(s) && Recorded(s) && Exclusive(s) && RejectionsOk(s) && StageOk(s) && DurableOk(s)
  }

  lemma {:induction false} KeepAsk(s: State, r: Request, readable: bool, quiet: bool)
    requires Inv(s)
    ensures Inv(AskStep(s, r, readable, quiet))
  {
  }

  lemma {:induction false} KeepSaveReceipt(s: State, write: Write)
    requires Inv(s) && s.stage.Prepared?
    ensures Inv(SaveReceiptStep(s, s.stage.request, write))
  {
  }

  lemma {:induction false} KeepStartHelper(s: State)
    requires Inv(s)
    ensures Inv(Step(s, StartHelper))
  {
  }

  lemma {:induction false} KeepSaveOutcome(s: State, requested: bool, write: Write)
    requires Inv(s)
    ensures Inv(Step(s, SaveOutcome(requested, write)))
  {
  }

  lemma {:induction false} RejectionsKept(s: State, r: Request, mine: bool, write: Write)
    requires RejectionsOk(s) && DurableOk(s) && Current(s, r)
    ensures RejectionsOk(SaveRejectionStep(s, r, mine, write)) && DurableOk(SaveRejectionStep(s, r, mine, write))
  {
    var t := SaveRejectionStep(s, r, mine, write);
    forall q | q in t.rejected
      ensures q.start <= t.start && (q.start == t.start ==> Current(t, q) && RejectedBefore(t.disk, q))
    {
      assert q != r ==> q in s.rejected;
      assert q != r && q.start == s.start ==> q.op != r.op;
    }
  }

  lemma {:induction false} ExclusiveKept(s: State, r: Request, mine: bool, write: Write)
    requires Exclusive(s) && r !in s.helpers
    ensures Exclusive(SaveRejectionStep(s, r, mine, write))
  {
  }

  lemma {:induction false} KeepSaveRejection(s: State, write: Write)
    requires Inv(s) && s.stage.Rejecting?
    ensures Inv(SaveRejectionStep(s, s.stage.request, s.stage.mine, write))
  {
    hide RejectionsOk, DurableOk, Exclusive, RejectedBefore;
    RejectionsKept(s, s.stage.request, s.stage.mine, write);
    ExclusiveKept(s, s.stage.request, s.stage.mine, write);
  }

  lemma {:induction false} KeepStopAgent(s: State)
    requires Inv(s)
    ensures Inv(Step(s, StopAgent))
  {
  }

  /** A rejection that survives was on disk or durable before. */
  lemma {:induction false} SurvivorsOk(s: State, keepReceipt: bool, lost: set<nat>)
    ensures Survivors(s, keepReceipt, lost).receipt in {s.disk.receipt, s.durable.receipt}
    ensures var left := Survivors(s, keepReceipt, lost);
      forall op :: op in left.rejections ==>
        (op in s.disk.rejections && left.rejections[op] == s.disk.rejections[op])
        || (op in s.durable.rejections && left.rejections[op] == s.durable.rejections[op])
  {
  }

  lemma {:induction false} KeepStopHost(s: State, keepReceipt: bool, lost: set<nat>)
    requires Inv(s)
    ensures Inv(Step(s, StopHost(keepReceipt, lost)))
  {
    SurvivorsOk(s, keepReceipt, lost);
    hide Survivors;
    var t := Step(s, StopHost(keepReceipt, lost));
    assert forall r :: RejectedBefore(t.disk, r) ==> RejectedBefore(s.disk, r) || RejectedBefore(s.durable, r);
    assert Exclusive(t);
  }

  lemma {:induction false} KeepStart(s: State, enabled: bool, bootKnown: bool, readable: bool)
    requires Inv(s)
    ensures Inv(StartStep(s, enabled, bootKnown, readable))
  {
  }

  lemma {:induction false} KeepStep(s: State, a: Action)
    requires Inv(s)
    ensures Inv(Step(s, a))
  {
    match a
    case Ask(r, readable, quiet) => KeepAsk(s, r, readable, quiet);
    case GiveUp =>
    case SaveReceipt(write) => if s.stage.Prepared? { KeepSaveReceipt(s, write); }
    case StartHelper => KeepStartHelper(s);
    case SaveOutcome(requested, write) => KeepSaveOutcome(s, requested, write);
    case SaveRejection(write) => if s.stage.Rejecting? { KeepSaveRejection(s, write); }
    case StopAgent => KeepStopAgent(s);
    case StopHost(keepReceipt, lost) => KeepStopHost(s, keepReceipt, lost);
    case StartAgent(enabled, bootKnown, readable) => KeepStart(s, enabled, bootKnown, readable);
  }

  lemma {:induction false} KeepRun(s: State, actions: seq<Action>)
    requires Inv(s)
    ensures Inv(Run(s, actions))
    decreases |actions|
  {
    hide Inv, Step;
    if actions != [] {
      KeepStep(s, actions[0]);
      KeepRun(Step(s, actions[0]), actions[1..]);
    }
  }

  /** Main result: over every run, with requests of any origin and stops at any step, at
      most one helper is started per boot, and no request is both executed and durably
      rejected, in whichever order. */
  lemma {:induction false} AtMostOneHelperPerBoot(node: nat, actions: seq<Action>)
    ensures var s := Run(Initial(node), actions);
      && (forall i, j :: 0 <= i < j < |s.helpers| ==> s.helpers[i].boot != s.helpers[j].boot)
      && (forall i :: 0 <= i < |s.helpers| ==> s.helpers[i] !in s.rejected)
  {
    assert Inv(Initial(node));
    KeepRun(Initial(node), actions);
    hide Run;
  }

  /** While the host has not rebooted, an Agent that runs after a helper was started, however
      often it restarts, keeps refusing work and reports that very operation. */
  lemma {:induction false} StaysPending(node: nat, actions: seq<Action>, r: Request)
    ensures var s := Run(Initial(node), actions);
            r in s.helpers && r.boot == s.boot && s.up ==> s.pending && Holds(s.receipt, r) && Holds(s.disk.receipt, r)
  {
    assert Inv(Initial(node));
    KeepRun(Initial(node), actions);
    hide Run;
  }

  lemma {:induction false} Reachable(node: nat, actions: seq<Action>)
    ensures Inv(Run(Initial(node), actions))
  {
    assert Inv(Initial(node));
    KeepRun(Initial(node), actions);
  }

  // ---------- When the Agent is closed ----------

  /** A helper was started on this boot. */
  ghost predicate HelperRan(s: State) {
    exists r :: r in s.helpers && r.boot == s.boot
  }

  /** A receipt of this boot is kept whose outcome nobody knows: the helper may have run. */
  ghost predicate Undecided(s: State) {
    && s.disk.receipt.Some? && s.disk.receipt.value.request.boot == s.boot
    && !s.disk.receipt.value.requested && !RejectedBefore(s.disk, s.disk.receipt.value.request)
  }

  /** An Agent that starts stays down only if it cannot read what it has to know: its boot
      while a receipt is kept, or whether a receipt of this boot was rejected. Once up it is
      closed exactly when a helper was started on this boot or may have been. */
  lemma {:induction false} StartDecides(node: nat, actions: seq<Action>, enabled: bool, bootKnown: bool, readable: bool)
    requires !Run(Initial(node), actions).up
    ensures var s := Run(Initial(node), actions);
            var t := Step(s, StartAgent(enabled, bootKnown, readable));
            && (bootKnown && readable ==> t.up)
            && (!bootKnown ==> (t.up <==> s.disk.receipt.None?))
            && (t.up ==> t.stage.Idle? && t.enabled == enabled && (t.pending <==> HelperRan(s) || Undecided(s)))
  {
    var s := Run(Initial(node), actions);
    Reachable(node, actions);
    hide Run;
    var t := Step(s, StartAgent(enabled, bootKnown, readable));
    if r :| r in s.helpers && r.boot == s.boot {
      HelperOnDisk(s, r);
    }
    hide PendingOk, HelpersOk, Recorded, Exclusive, RejectionsOk, StageOk, DurableOk;
  }

  lemma {:induction false} HelperOnDisk(s: State, r: Request)
    requires Inv(s) && r in s.helpers && r.boot == s.boot
    ensures Holds(s.disk.receipt, r) && !RejectedBefore(s.disk, r)
  {
    hide PendingOk, HelpersOk, RejectionsOk, StageOk, DurableOk, ReceiptsOk;
  }

  /** After the host has rebooted the Agent comes up open, whatever was under way. */
  lemma {:induction false} OpenAfterReboot(node: nat, actions: seq<Action>, keepReceipt: bool, lost: set<nat>, enabled: bool)
    ensures var s := Run(Initial(node), actions);
            var t := Step(Step(s, StopHost(keepReceipt, lost)), StartAgent(enabled, true, true));
            t.up && !t.pending && t.stage.Idle? && t.boot == s.boot + 1 && t.enabled == enabled && t.helpers == s.helpers
  {
    var s := Run(Initial(node), actions);
    Reachable(node, actions);
    hide Run, PendingOk, HelpersOk, Recorded, Exclusive, RejectionsOk, StageOk, DurableOk;
  }

  // ---------- When a helper is started ----------

  /** Everything a reboot requires. */
  ghost predicate Entitled(s: State, r: Request, readable: bool, quiet: bool) {
    && s.up && s.enabled && Current(s, r) && readable && quiet && !s.pending
    && !RejectedBefore(s.disk, r) && !OnRecord(s)
  }

  /** A request that nothing interrupts starts its helper exactly when everything it requires
      is there, and closes the Agent. */
  lemma {:induction false} RequestDecides(node: nat, actions: seq<Action>, r: Request, readable: bool, quiet: bool)
    requires Run(Initial(node), actions).stage.Idle?
    ensures var s := Run(Initial(node), actions);
            var t := Step(Step(Step(s, Ask(r, readable, quiet)), SaveReceipt(Saved)), StartHelper);
            && (Entitled(s, r, readable, quiet) ==>
                  t.helpers == s.helpers + [r] && t.pending && t.stage == Started(r) && t.durable.receipt == Some(Receipt(r, false)))
            && (!Entitled(s, r, readable, quiet) ==> t.helpers == s.helpers && t.durable == s.durable)
  {
    hide Run;
  }

  /** A current request that cannot be carried out, and was not answered before, is rejected:
      the rejection is durable, nothing else changes, and the Agent is as open as it was. */
  lemma {:induction false} RejectionDecides(node: nat, actions: seq<Action>, r: Request, quiet: bool)
    requires var s := Run(Initial(node), actions);
             && s.stage.Idle? && s.up && Current(s, r) && !Entitled(s, r, true, quiet)
             && !RejectedBefore(s.disk, r) && !(OnRecord(s) && Holds(s.receipt, r) && s.enabled)
    ensures var s := Run(Initial(node), actions);
            var t := Step(Step(s, Ask(r, true, quiet)), SaveRejection(Saved));
            && RejectedBefore(t.disk, r) && RejectedBefore(t.durable, r) && t.rejected == s.rejected + {r}
            && t.pending == s.pending && t.stage.Idle? && t.helpers == s.helpers && t.disk.receipt == s.disk.receipt
  {
    hide Run;
  }

  /** Preparations that end before the receipt is durable are taken back: the request is
      rejected for good and the Agent is open again. */
  lemma {:induction false} PreparationIsTakenBack(s: State, r: Request, last: Action)
    requires s.stage.Idle? && Entitled(s, r, true, true) && last in {GiveUp, SaveReceipt(Renamed), SaveReceipt(Failed)}
    ensures var t := Step(Step(Step(s, Ask(r, true, true)), last), SaveRejection(Saved));
            RejectedBefore(t.durable, r) && !t.pending && t.stage.Idle? && t.helpers == s.helpers && t.receipt == s.receipt
  {
    hide HelperRan;
  }

  /** A request that was answered before changes nothing. */
  lemma {:induction false} RepeatsAreQuiet(s: State, r: Request, quiet: bool)
    requires RejectedBefore(s.disk, r) || (s.enabled && OnRecord(s) && Holds(s.receipt, r))
    ensures Step(s, Ask(r, true, quiet)) == s
  {
  }
}
