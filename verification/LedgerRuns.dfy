/**
 Runs: any sequence of calls the executor may make, with failed appends and
 crashes between any two of them. The executor holds one lock, asks for the
 go-ahead before it touches the device and completes only what it was granted.
 After a failed append it goes on with what memory holds. The code does not see to
 it that the ledger catches up before another command is recorded; `KeepsUp` is
 the assumption under which it does.
 */
module LedgerRuns {
  import opened Outcomes
  import opened AttemptRecord
  import opened Ledger = AttemptLedger
  import opened LedgerMoves
  import opened LedgerWorlds

  datatype Call =
    | Begin(task: TaskCommand, contract: Contract, v2: bool)
    | Inspect(task: TaskCommand)
    | Replay(task: TaskCommand)
    | ReportConflict(task: TaskCommand)
    | Reject(task: TaskCommand, code: ErrorCode)
    | Prepare(task: TaskCommand, mode: Mode, now: int)
    | Complete(task: TaskCommand, completion: Completion)
    | RefreshTarget(reference: AttemptRef, binding: TargetBinding)
    | Impose(move: Move)
    | IsActive

  function Perform(w: World, call: Call): Answer {
    match call
    case Begin(task, contract, v2) => Ledger.Begin(w, task, contract, v2)
    case Inspect(task) => Ledger.Inspect(w, task)
    case Replay(task) => Ledger.Replay(w, task)
    case ReportConflict(task) => Ledger.ReportConflict(w, task)
    case Reject(task, code) => Ledger.Reject(w, task, code)
    case Prepare(task, mode, now) => Ledger.Prepare(w, task, mode, now)
    case Complete(task, c) => Ledger.Complete(w, task, c)
    case RefreshTarget(reference, binding) => Ledger.RefreshTarget(w, reference, binding)
    case Impose(move) => Ledger.Impose(w, move)
    case IsActive => Ledger.IsActive(w)
  }

  /** Imposed moves: the emergency finish and the two marks. */
  predicate Imposable(m: Move) {
    m.Emergency? || m.MarkUncertain? || m.MarkReleased?
  }

  /** Which completion follows which go-ahead (`execution.rs` never mixes them). */
  predicate Completes(mode: Mode, c: Completion) {
    match mode
    case Effect => c.SettlesSideEffect() && (c.InputFrame? ==> c.outcome != CommandOutcome.Unspecified)
    case Business => c.Capture? || c.CaptureFrame? || c.InputLease? || c.Release?
    case Recovery => c.Release?
    case Finish => c.Finish?
  }

  /** A go-ahead for a side effect. */
  datatype Issued = Issued(attemptId: string, commandId: string)

  datatype Pending = Pending(task: TaskCommand, mode: Mode)

  /** `failed` says that the last append failed, in this process; the last two fields are history. */
  datatype Sys = Sys(
    w: World, pending: Option<Pending>, failed: bool, granted: seq<Issued>, claimed: seq<string>)

  datatype Step =
    | Invoke(call: Call, writable: bool)
    | Abandon
    | Restart(listing: seq<string>)

  /** What a call decides on the active attempt, for the calls that may record a command. */
  function Decision(s: AttemptState, call: Call, request: Request): Verdict
    requires call.Inspect? || call.Reject? || call.Prepare?
  {
    match call
    case Inspect(_) => DecideInspect(s, request)
    case Reject(_, code) => DecideReject(s, request, code)
    case Prepare(_, mode, now) => DecidePrepare(s, request, mode, now)
  }

  /** Whether the call makes another command the last one of the active attempt. */
  ghost predicate RecordsAnother(s: AttemptState, call: Call) {
    && (call.Inspect? || call.Reject? || call.Prepare?)
    && ValidateTask(call.task).Ok?
    && Decision(s, call, ValidateTask(call.task).value).Records()
  }

  /** The assumption about failed appends, which restricts nothing while the ledger is in step: no other
      command is recorded over a result that is in memory only, and no new attempt is claimed over one whose
      release is in memory only. */
  ghost predicate KeepsUp(w: World, call: Call) {
    && (LacksResult(w) ==> !RecordsAnother(w.active.value, call))
    && (call.Begin? ==> ReleasedOnDisk(w))
  }

  ghost predicate Permitted(sys: Sys, step: Step) {
    match step
    case Restart(listing) => ListsFiles(listing, sys.w.files)
    case Abandon => sys.pending.Some?
    case Invoke(call, _) =>
      && (call.Complete? <==> sys.pending.Some?)
      && (call.Complete? ==>
            call.task == sys.pending.value.task && Completes(sys.pending.value.mode, call.completion))
      && (call.Impose? ==> Imposable(call.move))
      && KeepsUp(sys.w, call)
  }

  predicate Proceeds(call: Call, reply: Result<Reply>) {
    call.Prepare? && reply == Ok(Proceed)
  }

  function Take(sys: Sys, step: Step): Sys {
    match step
    case Restart(listing) =>
      sys.(w := sys.w.(active := None, loaded := false, recovered := false, listing := listing),
           pending := None, failed := false)
    case Abandon => sys.(pending := None)
    case Invoke(call, writable) => After(sys, call, Perform(sys.w.(writable := writable), call))
  }

  /** The run after a call was answered. */
  function After(sys: Sys, call: Call, a: Answer): Sys {
    var go := Proceeds(call, a.reply);
    Sys(a.world,
        if go then Some(Pending(call.task, call.mode)) else None,
        a.reply == Err(LedgerUnavailable) || (sys.failed && a.world.files == sys.w.files),
        if go && call.mode.Effect? then sys.granted + [IssuedTo(call.task)] else sys.granted,
        if call.Begin? then sys.claimed + Claims(sys.w, a.world, call) else sys.claimed)
  }

  function IssuedTo(task: TaskCommand): Issued {
    match ValidateTask(task)
    case Ok(request) => Issued(request.reference.attemptId, request.commandId)
    case Err(_) => Issued("", "")
  }

  /** The attempt a `begin` claimed: its ledger grew by the first snapshot of an attempt. */
  function Claims(before: World, after: World, call: Call): seq<string>
    requires call.Begin?
  {
    match ValidateTask(call.task)
    case Ok(request) =>
      var name := request.reference.attemptId;
      var first := ClaimedState(StoredContract(call.contract, call.v2), request).Snapshot();
      if LogOf(after, name) == LogOf(before, name) + [first] then [name] else []
    case Err(_) => []
  }

  // -------------------------------------------------------------- invariant

  /** A granted command is the last command of the active attempt and still in flight. */
  ghost predicate PendingOk(sys: Sys) {
    sys.pending.Some? ==>
      && sys.w.loaded && sys.w.active.Some?
      && (sys.pending.value.mode.Effect? ==> Synced(sys.w))
      && ValidateTask(sys.pending.value.task).Ok?
      && var request := ValidateTask(sys.pending.value.task).value;
         Awaits(sys.w.active.value, request, sys.pending.value.mode)
  }

  ghost predicate Awaits(s: AttemptState, request: Request, mode: Mode) {
    && s.InFlight()
    && s.last.commandId == request.commandId
    && s.last.digest == request.digest
    && s.reference == request.reference
    && (Limited(mode) ==> !s.Terminal())
    && (mode.Effect? ==> s.resources.sideEffect == SideEffectState.IntentRecorded)
  }

  /** The side effect that is being carried out right now. */
  function InHand(sys: Sys): Option<Issued> {
    if sys.pending.Some? && sys.pending.value.mode.Effect? then Some(IssuedTo(sys.pending.value.task)) else None
  }

  /** A granted side effect is accounted for in a snapshot: its result is stored, or the attempt has an
      unresolved side effect that the command in hand is not about to resolve. */
  ghost predicate Shadowed(s: AttemptState, g: Issued, inHand: Option<Issued>) {
    || g.commandId in s.results
    || (s.resources.Unresolved() && (inHand.Some? && inHand.value.attemptId == g.attemptId ==> g == inHand.value))
  }

  /** It is on record for ever, on disk and in memory. */
  ghost predicate OnRecord(w: World, g: Issued, inHand: Option<Issued>) {
    && g.attemptId in w.files
    && w.files[g.attemptId] != []
    && Shadowed(Fold(w.files[g.attemptId]), g, inHand)
    && Shadowed(View(w, g.attemptId), g, inHand)
  }

  ghost predicate Distinct<T>(xs: seq<T>) {
    forall i, j :: 0 <= i < j < |xs| ==> xs[i] != xs[j]
  }

  ghost predicate WorldInv(sys: Sys) {
    && Healthy(sys.w)
    && (!sys.failed ==> Synced(sys.w))
  }

  ghost predicate GrantsInv(sys: Sys) {
    Distinct(sys.granted) && forall g :: g in sys.granted ==> OnRecord(sys.w, g, InHand(sys))
  }

  ghost predicate ClaimsInv(sys: Sys) {
    Distinct(sys.claimed) && forall name :: name in sys.claimed ==> name in sys.w.files
  }

  ghost predicate Inv(sys: Sys) {
    WorldInv(sys) && PendingOk(sys) && GrantsInv(sys) && ClaimsInv(sys)
  }

  // ------------------------------------------------------------------ steps

  /** The attempt whose side effect this step settles. */
  function SettledBy(sys: Sys, step: Step): Option<string> {
    if step.Invoke? && step.call.Complete? && step.call.completion.SettlesSideEffect() && sys.w.active.Some?
    then Some(sys.w.active.value.reference.attemptId)
    else None
  }

  /** The completion that follows a go-ahead is an enabled move, and `complete` makes just that move. */
  lemma CompletionIsEnabled(s: AttemptState, request: Request, mode: Mode, c: Completion)
    requires Awaits(s, request, mode) && Completes(mode, c)
    ensures DecideComplete(s, request, c) == Write(Move.Complete(c), AckResult)
    ensures Enabled(s, Move.Complete(c)) && KeepsTerminal(s, Move.Complete(c))
    ensures Sound(s, Write(Move.Complete(c), AckResult))
  {
  }

  lemma CompleteExecutes(w: World, task: TaskCommand, c: Completion)
    requires w.loaded && w.active.Some? && ValidateTask(task).Ok?
    ensures Ledger.Complete(w, task, c) ==
            Execute(w, w.active.value, DecideComplete(w.active.value, ValidateTask(task).value, c))
  {
  }

  lemma CompleteKeeps(w: World, task: TaskCommand, mode: Mode, c: Completion)
    requires Healthy(w) && w.loaded && w.active.Some? && ValidateTask(task).Ok?
    requires Awaits(w.active.value, ValidateTask(task).value, mode) && Completes(mode, c)
    ensures var s := w.active.value;
            var n := Next(s, Move.Complete(c));
            var a := Ledger.Complete(w, task, c);
            && Keeps(w, a, if c.SettlesSideEffect() then Some(s.reference.attemptId) else None)
            && (if w.writable
                then a.world == Append(w, n).(active := Some(n)) && a.reply.Ok?
                else a == Answer(w.(active := Some(n)), Err(LedgerUnavailable)))
            && Enabled(s, Move.Complete(c)) && KeepsTerminal(s, Move.Complete(c))
  {
    var s := w.active.value;
    var v := Write(Move.Complete(c), AckResult);
    CompletionIsEnabled(s, ValidateTask(task).value, mode, c);
    CompleteExecutes(w, task, c);
    ExecuteFacts(w, s, v);
    ExecuteKeeps(w, s, v);
  }

  lemma CallKeeps(w: World, call: Call)
    requires Healthy(w) && !call.Complete? && (call.Impose? ==> Imposable(call.move)) && KeepsUp(w, call)
    ensures Keeps(w, Perform(w, call), None)
  {
    if call.Begin? {
      BeginKeeps(w, call.task, call.contract, call.v2);
    } else if call.Inspect? || call.Reject? || call.Prepare? {
      RecordingKeeps(w, call);
    } else if call.Replay? || call.ReportConflict? {
      LookUpKeeps(w, call);
    } else {
      UnnamedKeeps(w, call);
    }
  }

  lemma RecordingKeeps(w: World, call: Call)
    requires Healthy(w) && KeepsUp(w, call) && (call.Inspect? || call.Reject? || call.Prepare?)
    ensures Keeps(w, Perform(w, call), None)
  {
    match call
    case Inspect(task) => InspectKeeps(w, task);
    case Reject(task, code) => RejectKeeps(w, task, code);
    case Prepare(task, mode, now) => PrepareKeeps(w, task, mode, now);
  }

  lemma LookUpKeeps(w: World, call: Call)
    requires Healthy(w) && (call.Replay? || call.ReportConflict?)
    ensures Keeps(w, Perform(w, call), None)
  {
    if call.Replay? {
      ReplayKeeps(w, call.task);
    } else {
      ReportConflictKeeps(w, call.task);
    }
  }

  lemma UnnamedKeeps(w: World, call: Call)
    requires Healthy(w) && (call.Impose? ==> Imposable(call.move))
    requires call.RefreshTarget? || call.Impose? || call.IsActive?
    ensures Keeps(w, Perform(w, call), None)
  {
    hide Ledger.RefreshTarget, Ledger.Impose, Ledger.IsActive, Keeps, Healthy;
    match call
    case RefreshTarget(reference, binding) => RefreshKeeps(w, reference, binding);
    case Impose(move) => ImposeKeeps(w, move);
    case IsActive => IsActiveKeeps(w);
  }

  lemma PerformsPrepare(w: World, call: Call)
    requires call.Prepare?
    ensures Perform(w, call) == Ledger.Prepare(w, call.task, call.mode, call.now)
  {
  }

  lemma PerformsComplete(w: World, call: Call)
    requires call.Complete?
    ensures Perform(w, call) == Ledger.Complete(w, call.task, call.completion)
  {
  }

  /** What a go-ahead means: the command is recorded, in flight, and new unless it is only being
      recovered; for a business command or a side effect the intent is on disk, the attempt was not
      terminal and nothing was unresolved before. */
  lemma ProceedMeans(w: World, task: TaskCommand, mode: Mode, now: int)
    requires Healthy(w)
    requires Ledger.Prepare(w, task, mode, now).reply == Ok(Proceed)
    ensures var a := Ledger.Prepare(w, task, mode, now);
            && ValidateTask(task).Ok?
            && a.world.loaded && a.world.active.Some?
            && var request := ValidateTask(task).value;
               var name := request.reference.attemptId;
               && Awaits(a.world.active.value, request, mode)
               && name in w.files && w.files[name] != []
               && (Limited(mode) ==>
                     && w.writable
                     && a.world.files == w.files[name := w.files[name] + [a.world.active.value.Snapshot()]]
                     && a.world.active.value.results == View(w, name).results
                     && request.commandId !in View(w, name).results
                     && !View(w, name).resources.Unresolved()
                     && !View(w, name).Terminal())
  {
    EnterKeeps(w, task);
    var e := Enter(w, task);
    var s := e.world.active.value;
    var v := DecidePrepare(s, e.request.value, mode, now);
    assert Ledger.Prepare(w, task, mode, now) == Execute(e.world, s, v);
    PrepareIsSound(s, e.request.value, mode, now);
    ExecuteFacts(e.world, s, v);
    PrepareProceeds(s, e.request.value, mode, now);
    assert View(e.world, s.reference.attemptId) == s;
  }

  lemma PrepareProceeds(s: AttemptState, request: Request, mode: Mode, now: int)
    requires Settled(s)
    ensures var v := DecidePrepare(s, request, mode, now);
            && (v == Give(Ok(Proceed)) ==> Awaits(s, request, mode) && !Limited(mode))
            && (v.Write? && v.ack.AckProceed? ==>
                  && v.move == Grant(request, mode.Effect?)
                  && Next(s, v.move).results == s.results
                  && Awaits(Next(s, v.move), request, mode)
                  && (Limited(mode) ==>
                        request.commandId !in s.results && !s.resources.Unresolved() && !s.Terminal()))
            && (v.Give? && v.result == Ok(Proceed) ==> v == Give(Ok(Proceed)))
            && (v.Write? && !v.ack.AckProceed? ==> forall n :: Acknowledge(n, v.ack) != Ok(Proceed))
  {
  }

  /** A `begin` claims only an attempt that has no ledger yet. */
  lemma ClaimsAreNew(w: World, call: Call)
    requires Healthy(w) && ReleasedOnDisk(w) && call.Begin?
    ensures var a := Ledger.Begin(w, call.task, call.contract, call.v2);
            forall name :: name in Claims(w, a.world, call) ==> name !in w.files && name in a.world.files
  {
    LoadKeeps(w);
    BeginFacts(w, call.task, call.contract, call.v2);
    var read := LoadActive(w);
    var a := Ledger.Begin(w, call.task, call.contract, call.v2);
    if a.world.files == w.files {
      NothingClaimed(w, a.world, call);
    } else {
      SyncedIsReleasedOnDisk(read.world);
      ClaimIsNew(read.world, ValidateTask(call.task).value, StoredContract(call.contract, call.v2));
    }
  }

  lemma NothingClaimed(before: World, after: World, call: Call)
    requires call.Begin? && before.files == after.files
    ensures Claims(before, after, call) == []
  {
    if ValidateTask(call.task).Ok? {
      var name := ValidateTask(call.task).value.reference.attemptId;
      assert |LogOf(after, name)| == |LogOf(before, name)|;
    }
  }

  lemma ClaimIsNew(w: World, request: Request, contract: Contract)
    requires Healthy(w) && w.loaded && ReleasedOnDisk(w)
    ensures var a := Claim(w, request, contract);
            var name := request.reference.attemptId;
            LogOf(a.world, name) == LogOf(w, name) + [ClaimedState(contract, request).Snapshot()]
            ==> name !in w.files && name in a.world.files
  {
    var name := request.reference.attemptId;
    var named := LoadNamed(w, name);
    ClaimFacts(w, request, contract);
    if !ReusesTerminal(w.active, request.reference) && named.Ok? && !ReusesTerminal(named.value, request.reference) {
      if w.active.Some? && !w.active.value.resources.LocallyReleased() {
        BeginAgainDoesNotClaim(w, w.active.value, request, contract);
      } else {
        ClaimStartsALedger(w, request);
      }
    }
  }

  /** Beginning again at most records a digest conflict, which is no first snapshot. */
  lemma BeginAgainDoesNotClaim(w: World, s: AttemptState, request: Request, contract: Contract)
    requires Healthy(w) && w.loaded && w.active == Some(s)
    ensures var a := Execute(w, s, DecideBegin(s, request));
            var name := request.reference.attemptId;
            LogOf(a.world, name) != LogOf(w, name) + [ClaimedState(contract, request).Snapshot()]
  {
    BeginIsSound(s, request);
    BeginMarksOnly(s, request);
    MarkIsNoClaim(w, s, DecideBegin(s, request), ClaimedState(contract, request), request.reference.attemptId);
  }

  lemma BeginMarksOnly(s: AttemptState, request: Request)
    ensures DecideBegin(s, request).Write? ==> DecideBegin(s, request).move == DigestConflict
  {
  }

  lemma MarkIsNoClaim(w: World, s: AttemptState, v: Verdict, first: AttemptState, name: string)
    requires Healthy(w) && w.loaded && w.active == Some(s) && Sound(s, v)
    requires v.Write? ==> v.move == DigestConflict
    requires first.resources.sideEffect == SideEffectState.Clear
    ensures LogOf(Execute(w, s, v).world, name) != LogOf(w, name) + [first.Snapshot()]
  {
    hide Execute, Sound;
    ExecuteFacts(w, s, v);
    MarkedLogIsNoClaim(LogOf(w, name), Next(s, DigestConflict), first);
  }

  lemma MarkedLogIsNoClaim(log: Log, n: AttemptState, first: AttemptState)
    requires first.resources.sideEffect == SideEffectState.Clear
    ensures log != log + [first.Snapshot()]
    ensures n.resources.sideEffect == SideEffectState.Uncertain ==> log + [n.Snapshot()] != log + [first.Snapshot()]
  {
    assert |log + [first.Snapshot()]| != |log|;
    assert (log + [n.Snapshot()])[|log|] == n.Snapshot() && (log + [first.Snapshot()])[|log|] == first.Snapshot();
  }

  // ------------------------------------------------------- the step theorem

  lemma OnRecordStays(w: World, w': World, g: Issued, inHand: Option<Issued>, settling: Option<string>)
    requires Goes(w, w', g.attemptId, settling) && OnRecord(w, g, inHand)
    requires settling == Some(g.attemptId) ==> g.commandId in View(w, g.attemptId).results
    ensures OnRecord(w', g, None)
  {
  }

  /** What a go-ahead in `a` promises about the world before it. */
  ghost predicate GoAhead(w: World, a: Answer, call: Call)
    requires call.Prepare?
  {
    && a.world.loaded && a.world.active.Some? && ValidateTask(call.task).Ok?
    && Awaits(a.world.active.value, ValidateTask(call.task).value, call.mode)
    && (call.mode.Effect? ==>
          var issue := IssuedTo(call.task);
          && Synced(a.world)
          && issue.attemptId in w.files && w.files[issue.attemptId] != []
          && a.world.active.value.results == View(w, issue.attemptId).results
          && issue.commandId !in View(w, issue.attemptId).results
          && !View(w, issue.attemptId).resources.Unresolved())
  }

  lemma GoAheadFacts(w: World, call: Call, a: Answer)
    requires Healthy(w) && call.Prepare? && Keeps(w, a, None)
    requires a == Ledger.Prepare(w, call.task, call.mode, call.now) && a.reply == Ok(Proceed)
    ensures GoAhead(w, a, call)
  {
    ProceedMeans(w, call.task, call.mode, call.now);
    if call.mode.Effect? {
      var name := IssuedTo(call.task).attemptId;
      assert |a.world.files[name]| != |w.files[name]|;
    }
  }

  /** A snapshot whose intent is on disk accounts for that side effect, and for all whose result it has. */
  lemma IntentIsOnRecord(w: World, g: Issued, issue: Issued)
    requires w.loaded && w.active.Some? && Synced(w)
    requires w.active.value.reference.attemptId == issue.attemptId == g.attemptId
    requires w.active.value.resources.Unresolved()
    requires g == issue || g.commandId in w.active.value.results
    ensures OnRecord(w, g, Some(issue))
  {
    MirrorFolds(w.active.value, w.files[g.attemptId]);
  }

  lemma GrantsStay(w: World, a: Answer, call: Call, granted: seq<Issued>)
    requires call.Prepare? && a.reply == Ok(Proceed) && GoAhead(w, a, call) && call.mode.Effect?
    requires Progress(w, a.world, None)
    requires forall g :: g in granted ==> OnRecord(w, g, None)
    ensures var issue := IssuedTo(call.task);
            && issue !in granted
            && OnRecord(a.world, issue, Some(issue))
            && forall g :: g in granted ==> OnRecord(a.world, g, Some(issue))
  {
    var issue := IssuedTo(call.task);
    IntentIsOnRecord(a.world, issue, issue);
    forall g | g in granted
      ensures OnRecord(a.world, g, Some(issue))
    {
      if g.attemptId == issue.attemptId {
        IntentIsOnRecord(a.world, g, issue);
      } else {
        assert Goes(w, a.world, g.attemptId, None);
        OnRecordStays(w, a.world, g, None, None);
      }
    }
  }

  lemma AllStay(w: World, w': World, granted: seq<Issued>, inHand: Option<Issued>)
    requires Progress(w, w', None)
    requires forall g :: g in granted ==> OnRecord(w, g, inHand)
    ensures forall g :: g in granted ==> OnRecord(w', g, None)
  {
    forall g | g in granted
      ensures OnRecord(w', g, None)
    {
      assert Goes(w, w', g.attemptId, None);
      OnRecordStays(w, w', g, inHand, None);
    }
  }

  lemma DistinctGrows<T>(xs: seq<T>, x: T)
    requires Distinct(xs) && x !in xs
    ensures Distinct(xs + [x])
  {
  }

  lemma PrepareAfter(sys: Sys, call: Call, a: Answer)
    requires Inv(sys) && sys.pending.None? && call.Prepare?
    requires Keeps(sys.w, a, None)
    requires a.reply == Ok(Proceed) ==> GoAhead(sys.w, a, call)
    ensures Inv(After(sys, call, a))
  {
    hide GrantsInv, ClaimsInv;
    GrantsAfter(sys, call, a);
    ClaimedFilesStay(sys, After(sys, call, a), None);
  }

  lemma GrantsAfter(sys: Sys, call: Call, a: Answer)
    requires GrantsInv(sys) && sys.pending.None? && call.Prepare?
    requires Progress(sys.w, a.world, None)
    requires a.reply == Ok(Proceed) ==> GoAhead(sys.w, a, call)
    ensures GrantsInv(After(sys, call, a))
  {
    if a.reply == Ok(Proceed) && call.mode.Effect? {
      GrantsStay(sys.w, a, call, sys.granted);
      DistinctGrows(sys.granted, IssuedTo(call.task));
    } else {
      AllStay(sys.w, a.world, sys.granted, None);
    }
  }

  lemma ClaimedFilesStay(sys: Sys, sys': Sys, settling: Option<string>)
    requires ClaimsInv(sys) && Progress(sys.w, sys'.w, settling) && sys'.claimed == sys.claimed
    ensures ClaimsInv(sys')
  {
    forall name | name in sys.claimed
      ensures name in sys'.w.files
    {
      assert Goes(sys.w, sys'.w, name, settling);
    }
  }

  lemma OtherAfter(sys: Sys, call: Call, a: Answer)
    requires Inv(sys) && sys.pending.None? && !call.Prepare?
    requires Keeps(sys.w, a, None)
    requires call.Begin? ==>
               forall name :: name in Claims(sys.w, a.world, call) ==> name !in sys.w.files && name in a.world.files
    ensures Inv(After(sys, call, a))
  {
    AllStay(sys.w, a.world, sys.granted, None);
    ClaimedFilesStay(sys, sys.(w := a.world), None);
    ClaimsAfter(sys, call, a);
  }

  lemma ClaimsAfter(sys: Sys, call: Call, a: Answer)
    requires ClaimsInv(sys) && ClaimsInv(sys.(w := a.world))
    requires call.Begin? ==>
               forall name :: name in Claims(sys.w, a.world, call) ==> name !in sys.w.files && name in a.world.files
    ensures ClaimsInv(After(sys, call, a))
  {
  }

  /** Completing the command in hand puts it on record by its result; if the append fails, memory has the
      result and the recorded intent keeps it on record on disk. */
  lemma CompletedIsOnRecord(w: World, task: TaskCommand, mode: Mode, c: Completion)
    requires Healthy(w) && Synced(w) && w.loaded && w.active.Some? && ValidateTask(task).Ok?
    requires Awaits(w.active.value, ValidateTask(task).value, mode) && Completes(mode, c)
    requires mode.Effect?
    ensures OnRecord(Ledger.Complete(w, task, c).world, IssuedTo(task), None)
  {
    var s := w.active.value;
    CompleteKeeps(w, task, mode, c);
    MoveKeepsSettled(s, Move.Complete(c));
    ResultIsOnRecord(w, s, Next(s, Move.Complete(c)), Ledger.Complete(w, task, c), IssuedTo(task));
  }

  lemma ResultIsOnRecord(w: World, s: AttemptState, n: AttemptState, a: Answer, g: Issued)
    requires w.loaded && w.active == Some(s) && Synced(w) && s.resources.Unresolved()
    requires a.world.loaded && a.world.active == Some(n) && n.reference == s.reference
    requires g.attemptId == s.reference.attemptId && g.commandId in n.results
    requires if w.writable then a.world.files == Append(w, n).files && Synced(a.world) else a.world.files == w.files
    ensures OnRecord(a.world, g, None)
  {
    MirrorFolds(s, w.files[g.attemptId]);
    if w.writable {
      MirrorFolds(n, a.world.files[g.attemptId]);
    }
  }

  lemma CompleteAfter(sys: Sys, call: Call, a: Answer, settling: Option<string>)
    requires Inv(sys) && sys.pending.Some? && call.Complete?
    requires Keeps(sys.w, a, settling)
    requires settling.Some? ==> InHand(sys).Some? && settling.value == InHand(sys).value.attemptId
    requires sys.pending.value.mode.Effect? ==> OnRecord(a.world, IssuedTo(sys.pending.value.task), None)
    ensures Inv(After(sys, call, a))
  {
    CompletionKeepsGrants(sys, call, a, settling);
    ClaimedFilesStay(sys, After(sys, call, a), settling);
  }

  lemma CompletionKeepsGrants(sys: Sys, call: Call, a: Answer, settling: Option<string>)
    requires GrantsInv(sys) && sys.pending.Some? && call.Complete?
    requires Progress(sys.w, a.world, settling)
    requires settling.Some? ==> InHand(sys).Some? && settling.value == InHand(sys).value.attemptId
    requires sys.pending.value.mode.Effect? ==> OnRecord(a.world, IssuedTo(sys.pending.value.task), None)
    ensures GrantsInv(After(sys, call, a))
  {
    AllStayWhileOneSettles(sys.w, a.world, sys.granted, InHand(sys), settling);
  }

  lemma AllStayWhileOneSettles(
    w: World, w': World, granted: seq<Issued>, inHand: Option<Issued>, settling: Option<string>)
    requires Progress(w, w', settling)
    requires settling.Some? ==> inHand.Some? && settling.value == inHand.value.attemptId
    requires inHand.Some? ==> OnRecord(w', inHand.value, None)
    requires forall g :: g in granted ==> OnRecord(w, g, inHand)
    ensures forall g :: g in granted ==> OnRecord(w', g, None)
  {
    forall g | g in granted
      ensures OnRecord(w', g, None)
    {
      if inHand != Some(g) {
        assert Goes(w, w', g.attemptId, settling);
        OtherStays(w, w', g, inHand, settling);
      }
    }
  }

  /** While one side effect is settled, the results of the others are stored already. */
  lemma OtherStays(w: World, w': World, g: Issued, inHand: Option<Issued>, settling: Option<string>)
    requires Goes(w, w', g.attemptId, settling) && OnRecord(w, g, inHand) && inHand != Some(g)
    requires settling.Some? ==> inHand.Some? && settling.value == inHand.value.attemptId
    ensures OnRecord(w', g, None)
  {
    OnRecordStays(w, w', g, inHand, settling);
  }

  lemma InvokeComplete(sys: Sys, call: Call, writable: bool)
    requires Inv(sys) && Permitted(sys, Invoke(call, writable)) && call.Complete?
    ensures var a := Perform(sys.w.(writable := writable), call);
            Inv(After(sys, call, a)) && Progress(sys.w, a.world, SettledBy(sys, Invoke(call, writable)))
  {
    PerformsComplete(sys.w.(writable := writable), call);
    CompleteInHand(sys, call, writable, Ledger.Complete(sys.w.(writable := writable), call.task, call.completion));
  }

  lemma CompleteInHand(sys: Sys, call: Call, writable: bool, a: Answer)
    requires Inv(sys) && Permitted(sys, Invoke(call, writable)) && call.Complete?
    requires a == Ledger.Complete(sys.w.(writable := writable), call.task, call.completion)
    ensures Inv(After(sys, call, a)) && Progress(sys.w, a.world, SettledBy(sys, Invoke(call, writable)))
  {
    var w := sys.w.(writable := writable);
    var mode := sys.pending.value.mode;
    CompleteKeeps(w, call.task, mode, call.completion);
    if mode.Effect? {
      CompletedIsOnRecord(w, call.task, mode, call.completion);
    }
    WritableDoesNotMatter(sys.w, w, a, SettledBy(sys, Invoke(call, writable)));
    CompleteAnswered(sys, call, writable, a);
  }

  lemma WritableDoesNotMatter(w: World, w1: World, a: Answer, settling: Option<string>)
    requires w1 == w.(writable := w1.writable) && Keeps(w1, a, settling)
    ensures Keeps(w, a, settling)
  {
    forall name | name in w.files
      ensures Goes(w, a.world, name, settling)
    {
      assert Goes(w1, a.world, name, settling);
    }
  }

  lemma SettledIsInHand(sys: Sys, step: Step)
    requires PendingOk(sys) && Permitted(sys, step) && SettledBy(sys, step).Some?
    ensures InHand(sys).Some? && InHand(sys).value.attemptId == SettledBy(sys, step).value
  {
  }

  lemma CompleteAnswered(sys: Sys, call: Call, writable: bool, a: Answer)
    requires Inv(sys) && Permitted(sys, Invoke(call, writable)) && call.Complete?
    requires Keeps(sys.w, a, SettledBy(sys, Invoke(call, writable)))
    requires sys.pending.value.mode.Effect? ==> OnRecord(a.world, IssuedTo(sys.pending.value.task), None)
    ensures Inv(After(sys, call, a))
  {
    var settling := SettledBy(sys, Invoke(call, writable));
    if settling.Some? {
      SettledIsInHand(sys, Invoke(call, writable));
    }
    CompleteAfter(sys, call, a, settling);
  }

  lemma InvokePrepare(sys: Sys, call: Call, writable: bool)
    requires Inv(sys) && Permitted(sys, Invoke(call, writable)) && call.Prepare?
    ensures var a := Perform(sys.w.(writable := writable), call);
            Inv(After(sys, call, a)) && Progress(sys.w, a.world, None)
  {
    var w := sys.w.(writable := writable);
    var a := Perform(w, call);
    CallKeeps(w, call);
    WritableDoesNotMatter(sys.w, w, a, None);
    if a.reply == Ok(Proceed) {
      PerformsPrepare(w, call);
      GoAheadFacts(w, call, a);
      GoAheadEitherWay(sys.w, w, a, call);
    }
    PrepareAfter(sys, call, a);
  }

  lemma GoAheadEitherWay(w: World, w1: World, a: Answer, call: Call)
    requires w1 == w.(writable := w1.writable) && call.Prepare? && GoAhead(w1, a, call)
    ensures GoAhead(w, a, call)
  {
  }

  lemma InvokeOther(sys: Sys, call: Call, writable: bool)
    requires Inv(sys) && Permitted(sys, Invoke(call, writable)) && !call.Prepare? && !call.Complete?
    ensures var a := Perform(sys.w.(writable := writable), call);
            Inv(After(sys, call, a)) && Progress(sys.w, a.world, None)
  {
    var w := sys.w.(writable := writable);
    var a := Perform(w, call);
    CallKeeps(w, call);
    WritableDoesNotMatter(sys.w, w, a, None);
    if call.Begin? {
      BeginClaimsNew(sys.w, w, call, a);
    }
    OtherAfter(sys, call, a);
  }

  lemma BeginClaimsNew(w: World, w1: World, call: Call, a: Answer)
    requires w1 == w.(writable := w1.writable) && Healthy(w1) && ReleasedOnDisk(w1)
    requires call.Begin? && a == Perform(w1, call)
    ensures forall name :: name in Claims(w, a.world, call) ==> name !in w.files && name in a.world.files
  {
    ClaimsAreNew(w1, call);
    assert Claims(w1, a.world, call) == Claims(w, a.world, call);
  }

  /** Every permitted step keeps the invariant, and every attempt progresses. */
  lemma StepKeeps(sys: Sys, step: Step)
    requires Inv(sys) && Permitted(sys, step)
    ensures Inv(Take(sys, step)) && Progress(sys.w, Take(sys, step).w, SettledBy(sys, step))
  {
    match step
    case Restart(listing) => RestartStep(sys, listing);
    case Abandon => AbandonStep(sys);
    case Invoke(call, writable) =>
      if call.Complete? {
        InvokeComplete(sys, call, writable);
      } else if call.Prepare? {
        InvokePrepare(sys, call, writable);
      } else {
        InvokeOther(sys, call, writable);
      }
  }

  lemma AbandonStep(sys: Sys)
    requires Inv(sys)
    ensures Inv(Take(sys, Abandon)) && Progress(sys.w, Take(sys, Abandon).w, None)
  {
    ProgressIsReflexive(sys.w, sys.w, None);
    AllStay(sys.w, sys.w, sys.granted, InHand(sys));
  }

  /** A restart loses what memory knew beyond the ledgers, and nothing else. */
  lemma RestartStep(sys: Sys, listing: seq<string>)
    requires Inv(sys) && ListsFiles(listing, sys.w.files)
    ensures Inv(Take(sys, Restart(listing)))
    ensures Progress(sys.w, Take(sys, Restart(listing)).w, None)
  {
    var sys' := Take(sys, Restart(listing));
    RestartedIsHealthy(sys.w, sys'.w);
    MemoryIsLost(sys.w, sys'.w);
    AllStay(sys.w, sys'.w, sys.granted, InHand(sys));
  }

  lemma RestartedIsHealthy(w: World, w': World)
    requires Healthy(w) && ListsFiles(w'.listing, w.files)
    requires w' == w.(active := None, loaded := false, recovered := false, listing := w'.listing)
    ensures Healthy(w') && Synced(w')
  {
    AtMostOneIsBusy(w);
  }

  lemma MemoryIsLost(w: World, w': World)
    requires DiskOk(w) && w'.files == w.files && w'.active.None?
    ensures Progress(w, w', None)
  {
    forall name | name in w.files
      ensures Goes(w, w', name, None)
    {
      RestIsForgotten(w, w', name, None);
    }
  }
}
