/**
 What the ledger answers and records, call by call, in the words of the device layer and
 the caller: a go-ahead or the refusal that applies, a settled command with its outcome,
 an interrupted or refused one, and what a claim, an inspection or a mark leaves behind.
 */
module LedgerAnswers {
  import opened Outcomes
  import opened AttemptRecord
  import opened Ledger = AttemptLedger
  import opened LedgerMoves
  import opened LedgerWorlds
  import opened LedgerReplay
  import opened LedgerRuns
  import opened LedgerTheorems

  // --------------------------------------------------------------- vocabulary

  /** The attempt goes on as `n`, in memory and, unless the append fails, as one more line of its ledger. */
  ghost predicate GoesOnAs(w: World, a: Answer, n: AttemptState, reply: Reply) {
    var name := n.reference.attemptId;
    && a.world.loaded && a.world.active == Some(n)
    && (if w.writable
        then name in w.files && a.world.files == w.files[name := w.files[name] + [n.(results := map[])]]
             && a.reply == Ok(reply)
        else a.world.files == w.files && a.reply == Err(LedgerUnavailable))
  }

  /** The command of this record is settled: stored under its id and answered with just this outcome. */
  ghost predicate SettledAs(
    w: World, a: Answer, s: AttemptState, record: CommandRecord, r: Resources, target: Option<TargetBinding>)
  {
    GoesOnAs(w, a, AttemptState(s.contract, s.reference, record,
                                s.results[record.commandId := StoredResult(record, r)], r, target),
             Answered(Some(OutcomeMessage(s.reference, record.commandId, record.digest, record.outcome,
                                          record.sourceFrame, record.error)),
                      Receipt(Some(s.reference), record.commandId, record.sequence, record.generation, record.digest,
                              r)))
  }

  /** The device layer reported success. */
  predicate ReportsSuccess(c: Completion) {
    match c
    case TargetStart(binding, _) => binding.Some?
    case Capture(_, error) => error.None?
    case CaptureFrame(_, error) => error.None?
    case InputLease(error) => error.None?
    case Pulse(_, applied, _) => applied
    case InputFrame(_, outcome, _, _) => outcome == CommandOutcome.Applied
    case Release(error, _) => error.None?
    case Finish(released, stopped, _, _) => released && stopped
  }

  /** The device layer cannot say whether the side effect happened. */
  predicate ReportsUncertain(c: Completion) {
    (c.Pulse? && !c.applied) || (c.InputFrame? && c.outcome == CommandOutcome.Uncertain)
  }

  predicate IsSideEffect(c: Completion) {
    c.TargetStart? || c.Pulse? || c.InputFrame?
  }

  /** The outcome, source frame and error of a completed command. A finish succeeds only when nothing is
      unresolved, and says what is missing. */
  ghost predicate RecordsCompletion(record: CommandRecord, c: Completion, resolved: bool) {
    && record.outcome == (if ReportsSuccess(c) && (c.Finish? ==> resolved) then CommandOutcome.Applied
                          else if c.Finish? || ReportsUncertain(c) then CommandOutcome.Uncertain
                          else CommandOutcome.NotApplied)
    && record.sourceFrame == (match c
                              case CaptureFrame(source, _) => source
                              case Pulse(frame, _, _) => Some(frame)
                              case InputFrame(source, _, _, _) => source
                              case _ => None)
    && record.error == (if c.Finish? && c.error.None? && !resolved then Some(SideEffectUncertain)
                        else if c.Finish? && c.error.None? && !ReportsSuccess(c) then Some(CleanupIncomplete)
                        else c.error)
  }

  /** Which input state a completion leaves. */
  ghost predicate InputAfter(was: InputState, now: InputState, c: Completion) {
    match c
    case InputLease(error) => now == if error.None? then InputState.Active else InputState.Released
    case InputFrame(_, outcome, holds, _) =>
      && (now == InputState.Active <==> outcome == CommandOutcome.Applied && holds)
      && (now == InputState.Unknown <==> outcome == CommandOutcome.Uncertain)
      && (now == InputState.Released <==>
          outcome == CommandOutcome.NotApplied || (outcome == CommandOutcome.Applied && !holds))
    case Release(_, released) => now == if released then InputState.Released else InputState.Unknown
    case Finish(released, _, _, _) => now == if released then InputState.Released else InputState.Unknown
    case _ => now == was
  }

  /** Which capture state a completion leaves. */
  ghost predicate CaptureAfter(was: CaptureState, now: CaptureState, c: Completion) {
    match c
    case Capture(running, None) => now == if running then CaptureState.Running else CaptureState.Stopped
    case CaptureFrame(_, None) => now == CaptureState.Stopped
    case Finish(_, stopped, _, _) => now == if stopped then CaptureState.Stopped else CaptureState.Unknown
    case _ => now == was
  }

  ghost predicate TargetAfter(was: TargetState, now: TargetState, c: Completion) {
    match c
    case TargetStart(binding, _) => now == if binding.Some? then TargetState.Running else TargetState.NotStarted
    case Finish(_, _, running, _) => now == if running then TargetState.Running else TargetState.NotStarted
    case _ => now == was
  }

  ghost predicate PhaseAfter(was: AttemptPhase, now: AttemptPhase, c: Completion) {
    match c
    case TargetStart(Some(_), _) => now == AttemptPhase.TargetReady
    case Capture(true, None) => now == AttemptPhase.Active
    case CaptureFrame(_, None) => now == AttemptPhase.Active
    case Finish(_, _, _, _) => now == AttemptPhase.Terminal
    case _ => now == was
  }

  /** What the attempt knows of its side effect: settled as reported, or as it was. */
  ghost predicate SideEffectReported(was: SideEffectState, now: SideEffectState, c: Completion) {
    now == if !IsSideEffect(c) then was
           else if ReportsSuccess(c) then SideEffectState.Applied
           else if ReportsUncertain(c) then SideEffectState.Uncertain
           else SideEffectState.NotApplied
  }

  ghost predicate ResourcesAfter(was: Resources, now: Resources, c: Completion, resolved: bool) {
    && InputAfter(was.input, now.input, c)
    && CaptureAfter(was.capture, now.capture, c)
    && TargetAfter(was.target, now.target, c)
    && PhaseAfter(was.phase, now.phase, c)
    && SideEffectReported(was.sideEffect, now.sideEffect, c)
    && now.lastSideEffectId == was.lastSideEffectId
    && now.cleanup == if c.Finish? then ReportsSuccess(c) && resolved else was.cleanup
  }

  /** No side effect is recorded as intended or uncertain. */
  predicate IsResolved(r: Resources) {
    r.sideEffect !in {SideEffectState.IntentRecorded, SideEffectState.Uncertain}
  }

  // -------------------------------------------------------------- completions

  lemma WrittenGoesOn(w: World, s: AttemptState, v: Verdict)
    requires Healthy(w) && w.loaded && w.active == Some(s) && Sound(s, v)
    requires v.Write? && !v.move.Emergency?
    ensures Acknowledge(Next(s, v.move), v.ack).Ok?
    ensures GoesOnAs(w, Execute(w, s, v), Next(s, v.move), Acknowledge(Next(s, v.move), v.ack).value)
  {
    MoveKeepsSettled(s, v.move);
    ExecuteFacts(w, s, v);
    ExecuteFacts(w.(writable := true), s, v);
  }

  lemma StoredIsSettled(w: World, s: AttemptState, m: Move)
    requires Healthy(w) && w.loaded && w.active == Some(s) && Sound(s, Write(m, AckResult))
    ensures var n := Next(s, m);
            SettledAs(w, Execute(w, s, Write(m, AckResult)), s, n.last, n.resources, n.ownedTarget)
  {
    MoveKeepsSettled(s, m);
    WrittenGoesOn(w, s, Write(m, AckResult));
  }

  /** A completed command is stored and answered with the outcome, source frame and error that the device layer
      reported, and with the states that follow from its report. */
  lemma CompletionIsAnswered(w: World, s: AttemptState, task: TaskCommand, mode: Mode, c: Completion)
    returns (record: CommandRecord, r: Resources)
    requires Holds(w, s, task) && Awaits(s, ValidateTask(task).value, mode) && Completes(mode, c)
    ensures SettledAs(w, Ledger.Complete(w, task, c), s, record, r,
                      if c.TargetStart? then c.binding else if c.Finish? then None else s.ownedTarget)
    ensures record == s.last.(outcome := record.outcome, sourceFrame := record.sourceFrame, error := record.error)
    ensures RecordsCompletion(record, c, IsResolved(s.resources))
    ensures ResourcesAfter(s.resources, r, c, IsResolved(s.resources)) && r.error == record.error
  {
    var n := Next(s, Move.Complete(c));
    CompletionIsEnabled(s, ValidateTask(task).value, mode, c);
    CompleteExecutes(w, task, c);
    StoredIsSettled(w, s, Move.Complete(c));
    CompletionSays(s, c);
    record, r := n.last, n.resources;
  }

  lemma CompletionSays(s: AttemptState, c: Completion)
    requires c.InputFrame? ==> c.outcome != CommandOutcome.Unspecified
    ensures var n := Next(s, Move.Complete(c));
            && n.last == s.last.(outcome := n.last.outcome, sourceFrame := n.last.sourceFrame, error := n.last.error)
            && RecordsCompletion(n.last, c, IsResolved(s.resources))
            && ResourcesAfter(s.resources, n.resources, c, IsResolved(s.resources))
            && n.resources.error == n.last.error
            && n.ownedTarget == if c.TargetStart? then c.binding else if c.Finish? then None else s.ownedTarget
  {
  }

  /** After a side effect was completed the attempt is unresolved exactly when the device layer reported so. */
  lemma UnresolvedExactlyWhenReported(w: World, s: AttemptState, task: TaskCommand, mode: Mode, c: Completion)
    requires Holds(w, s, task) && Awaits(s, ValidateTask(task).value, mode) && Completes(mode, c) && IsSideEffect(c)
    ensures var a := Ledger.Complete(w, task, c);
            a.world.active.Some? && (a.world.active.value.resources.Unresolved() <==> ReportsUncertain(c))
  {
    var record, r := CompletionIsAnswered(w, s, task, mode, c);
  }

  /** A side effect that the device layer could not vouch for blocks the attempt through every later run, whether
      or not the report could be appended. */
  lemma UncertainReportBlocksForEver(sys: Sys, call: Call, writable: bool, steps: seq<Step>)
    requires Inv(sys) && Permitted(sys, Invoke(call, writable)) && call.Complete? && ReportsUncertain(call.completion)
    requires Legal(Take(sys, Invoke(call, writable)), steps)
    ensures Stuck(Run(Take(sys, Invoke(call, writable)), steps), IssuedTo(call.task).attemptId)
  {
    hide Perform, GrantsInv, ClaimsInv, KeepsUp;
    var w := sys.w.(writable := writable);
    var s := sys.w.active.value;
    EitherWay(sys.w, w);
    PerformsComplete(w, call);
    var record, r := CompletionIsAnswered(w, s, call.task, sys.pending.value.mode, call.completion);
    UncertainIsStuck(sys, w, s, call, Perform(w, call), record, r);
    StuckRunsOn(sys, Invoke(call, writable), steps, IssuedTo(call.task).attemptId);
  }

  lemma UncertainIsStuck(
    sys: Sys, w: World, s: AttemptState, call: Call, a: Answer, record: CommandRecord, r: Resources)
    requires sys.pending.Some? && sys.pending.value.mode.Effect? && call.Complete?
    requires Healthy(sys.w) && Synced(sys.w) && sys.w.loaded && sys.w.active == Some(s)
    requires w == sys.w.(writable := w.writable) && s.resources.Unresolved() && r.Unresolved()
    requires IssuedTo(call.task).attemptId == s.reference.attemptId
    requires SettledAs(w, a, s, record, r, s.ownedTarget)
    ensures Stuck(After(sys, call, a), s.reference.attemptId)
  {
    hide DiskOk, MemoryOk, Settled, Carries;
    var name := s.reference.attemptId;
    MirrorFolds(s, w.files[name]);
    if w.writable {
      var log := a.world.files[name];
      assert log[|log| - 1].resources == r;
    }
  }

  // ---------------------------------------------------------------- go-aheads

  /** A command that nothing is known of. */
  ghost predicate IsNew(s: AttemptState, request: Request) {
    s.reference == request.reference && request.commandId !in s.results && request.commandId != s.last.commandId
  }

  /** A new command of a session must have a higher sequence number than the last command, if that was of the
      same session. */
  predicate OutOfSequence(s: AttemptState, request: Request) {
    request.sessionId == s.last.sessionId && request.sequence <= s.last.sequence
  }

  predicate Expired(contract: Contract, now: int) {
    contract.reference.contractVersion > 1 && contract.deadline <= now
  }

  /** How many results the journal may hold for a command to be recorded. */
  function Room(mode: Mode): nat {
    match mode
    case Effect => 98_304
    case Business => 98_304
    case Recovery => 98_316
    case Finish => 98_320
  }

  /** Why a new command gets no go-ahead, in the order of the checks. */
  function RefusalOf(s: AttemptState, request: Request, mode: Mode, now: int): Option<ErrorCode> {
    if (mode.Effect? || mode.Business?) && s.resources.phase == AttemptPhase.Terminal then Some(AttemptTerminal)
    else if (mode.Effect? || mode.Business?) && Expired(s.contract, now) then Some(ContractExpired)
    else if (mode.Effect? || mode.Business?) && !IsResolved(s.resources) then Some(SideEffectUncertain)
    else if |s.results| >= Room(mode) then Some(LedgerFull)
    else if OutOfSequence(s, request) then Some(SequenceInvalid)
    else None
  }

  /** The record of a command just received. */
  function Received(request: Request, outcome: CommandOutcome, error: Option<ErrorCode>): CommandRecord {
    CommandRecord(request.commandId, request.sequence, request.generation, request.sessionId, request.digest,
                  outcome, None, error)
  }

  /** A new command gets the go-ahead exactly when nothing speaks against it. It is recorded in flight, a side
      effect with its intent; a refusal changes nothing. */
  lemma NewIsPreparedExactly(w: World, s: AttemptState, task: TaskCommand, mode: Mode, now: int)
    requires Holds(w, s, task) && IsNew(s, ValidateTask(task).value)
    ensures var request := ValidateTask(task).value;
            var refusal := RefusalOf(s, request, mode, now);
            var a := Ledger.Prepare(w, task, mode, now);
            if refusal.Some? then a == Answer(w, Err(refusal.value))
            else GoesOnAs(w, a,
                          s.(last := Received(request, CommandOutcome.Unspecified, None),
                             resources := if mode.Effect?
                                          then s.resources.(error := None, lastSideEffectId := request.commandId,
                                                            sideEffect := SideEffectState.IntentRecorded)
                                          else s.resources.(error := None)),
                          Proceed)
    ensures Ledger.Replay(w, task) == Answer(w, Ok(Proceed))
  {
    var request := ValidateTask(task).value;
    var v := DecidePrepare(s, request, mode, now);
    CallsDecide(w, s, task, mode, now, LedgerInvalid);
    NewIsDecided(s, request, mode, now);
    PrepareIsSound(s, request, mode, now);
    if v.Write? {
      WrittenGoesOn(w, s, v);
    }
  }

  lemma NewIsDecided(s: AttemptState, request: Request, mode: Mode, now: int)
    requires IsNew(s, request)
    ensures var refusal := RefusalOf(s, request, mode, now);
            DecidePrepare(s, request, mode, now) ==
            if refusal.Some? then Decline(refusal.value) else Write(Grant(request, mode.Effect?), AckProceed)
    ensures DecideReplay(s, request) == Give(Ok(Proceed))
  {
  }

  // ------------------------------------------------------------- interruptions

  /** The command is in flight, and the call carries the same payload. */
  ghost predicate IsInFlight(s: AttemptState, request: Request) {
    && s.last.outcome == CommandOutcome.Unspecified
    && s.last.commandId == request.commandId && s.last.digest == request.digest
  }

  /** How an interrupted command is settled: uncertain if a side effect was asked for and its intent is recorded,
      not applied otherwise. It is never applied. */
  ghost predicate InterruptedAs(w: World, a: Answer, s: AttemptState, sideEffect: bool) {
    if sideEffect && s.resources.sideEffect == SideEffectState.IntentRecorded
    then SettledAs(w, a, s,
                   s.last.(outcome := CommandOutcome.Uncertain, error := Some(SideEffectUncertain)),
                   s.resources.(sideEffect := SideEffectState.Uncertain, error := Some(SideEffectUncertain)),
                   s.ownedTarget)
    else SettledAs(w, a, s,
                   s.last.(outcome := CommandOutcome.NotApplied, error := Some(CommandInterrupted)),
                   s.resources.(error := Some(CommandInterrupted)),
                   s.ownedTarget)
  }

  /** A command found in flight is settled as interrupted by a look-up and by a limited `prepare`, and is gone on
      with by a recovery or a finish. */
  lemma InterruptedIsAnsweredExactly(w: World, s: AttemptState, task: TaskCommand, mode: Mode, now: int)
    requires Holds(w, s, task) && IsInFlight(s, ValidateTask(task).value)
    ensures InterruptedAs(w, Ledger.Replay(w, task), s, true)
    ensures mode.Effect? || mode.Business? ==> InterruptedAs(w, Ledger.Prepare(w, task, mode, now), s, mode.Effect?)
    ensures mode.Recovery? || mode.Finish? ==> Ledger.Prepare(w, task, mode, now) == Answer(w, Ok(Proceed))
  {
    var request := ValidateTask(task).value;
    assert s.last.commandId !in s.results;
    CallsDecide(w, s, task, mode, now, LedgerInvalid);
    InFlightIsDecided(s, request, mode, now);
    InterruptionSettles(w, s, true);
    InterruptionSettles(w, s, mode.Effect?);
  }

  lemma InFlightIsDecided(s: AttemptState, request: Request, mode: Mode, now: int)
    requires s.reference == request.reference && IsInFlight(s, request) && s.last.commandId !in s.results
    ensures DecideReplay(s, request) == Write(Interrupt(true), AckResult)
    ensures DecidePrepare(s, request, mode, now) ==
            if mode.Effect? || mode.Business? then Write(Interrupt(mode.Effect?), AckResult) else Give(Ok(Proceed))
  {
  }

  lemma InterruptionSettles(w: World, s: AttemptState, sideEffect: bool)
    requires Healthy(w) && w.loaded && w.active == Some(s) && s.InFlight()
    ensures InterruptedAs(w, Execute(w, s, Write(Interrupt(sideEffect), AckResult)), s, sideEffect)
  {
    StoredIsSettled(w, s, Interrupt(sideEffect));
  }

  lemma AwaitedIsInFlight(s: AttemptState, r: AttemptState, request: Request)
    requires Awaits(s, request, Effect) && SameButReceipts(r, s)
    ensures r.reference == request.reference && IsInFlight(r, request)
    ensures r.resources.sideEffect == SideEffectState.IntentRecorded && !s.resources.LocallyReleased()
  {
    assert r.Snapshot() == s.Snapshot();
    assert r.last == s.last && r.resources == s.resources && r.reference == s.reference;
  }

  /** A restart finds the command in hand in flight, as it was left. */
  lemma FindsTheCommandInFlight(sys: Sys, listing: seq<string>)
    requires Inv(sys) && sys.pending.Some? && sys.pending.value.mode.Effect?
    requires ListsFiles(listing, sys.w.files) && !Unreadable(sys.w.files)
    ensures sys.w.active.Some? && ValidateTask(sys.pending.value.task).Ok?
    ensures var read := LoadActive(Restarted(sys.w, listing));
            && read.result.Ok? && Healthy(read.world) && read.world.loaded && read.world.active.Some?
            && var r, request := read.world.active.value, ValidateTask(sys.pending.value.task).value;
               && r.reference == request.reference && IsInFlight(r, request)
               && r.resources.sideEffect == SideEffectState.IntentRecorded
  {
    hide Inv, LoadActive, Awaits, SameButReceipts, IsInFlight, Synced;
    InHandIsSynced(sys);
    var s, request := sys.w.active.value, ValidateTask(sys.pending.value.task).value;
    var read := LoadActive(Restarted(sys.w, listing));
    RestartedIsHealthy(sys.w, Restarted(sys.w, listing));
    RestartRecoversMemory(sys.(failed := false), listing);
    LoadKeeps(Restarted(sys.w, listing));
    NotReleased(s, request);
    AwaitedIsInFlight(s, read.world.active.value, request);
  }

  lemma InHandIsSynced(sys: Sys)
    requires Inv(sys) && sys.pending.Some? && sys.pending.value.mode.Effect?
    ensures Inv(sys.(failed := false)) && Healthy(sys.w) && sys.w.loaded && sys.w.active.Some?
    ensures ValidateTask(sys.pending.value.task).Ok?
    ensures Awaits(sys.w.active.value, ValidateTask(sys.pending.value.task).value, Effect)
  {
  }

  lemma NotReleased(s: AttemptState, request: Request)
    requires Awaits(s, request, Effect)
    ensures !s.resources.LocallyReleased()
  {
  }

  lemma LooksUpTheInterrupted(w: World, task: TaskCommand)
    requires Healthy(w) && w.loaded && w.active.Some? && ValidateTask(task).Ok?
    requires w.active.value.reference == ValidateTask(task).value.reference
    requires IsInFlight(w.active.value, ValidateTask(task).value)
    requires w.active.value.resources.sideEffect == SideEffectState.IntentRecorded
    ensures AnswersUncertain(Ledger.Replay(w, task).reply, w.writable)
  {
    InterruptedIsAnsweredExactly(w, w.active.value, task, Effect, 0);
  }

  predicate AnswersUncertain(reply: Result<Reply>, writable: bool) {
    if writable
    then reply.Ok? && reply.value.Answered? && reply.value.outcome.Some?
         && reply.value.outcome.value.outcome == CommandOutcome.Uncertain
         && reply.value.outcome.value.error == Some(SideEffectUncertain)
    else reply == Err(LedgerUnavailable)
  }

  /** The process dies between the go-ahead for a side effect and its completion: the command that comes again is
      answered as uncertain and never as applied. */
  lemma CrashedSideEffectIsUncertain(sys: Sys, listing: seq<string>, writable: bool)
    requires Inv(sys) && sys.pending.Some? && sys.pending.value.mode.Effect?
    requires ListsFiles(listing, sys.w.files) && !Unreadable(sys.w.files)
    ensures var a := Ledger.Replay(Restarted(sys.w, listing).(writable := writable), sys.pending.value.task);
            AnswersUncertain(a.reply, writable)
  {
    hide LoadActive, Ledger.Replay, Inv, Healthy, IsInFlight, Restarted;
    var w := Restarted(sys.w, listing);
    FindsTheCommandInFlight(sys, listing);
    ReadsWhateverIsWritable(w, writable);
    EitherWay(LoadActive(w).world, LoadActive(w).world.(writable := writable));
    LooksUpTheInterrupted(LoadActive(w).world.(writable := writable), sys.pending.value.task);
    LoadsFirst(w.(writable := writable), sys.pending.value.task);
  }

  /** From the go-ahead on the attempt is blocked if nobody completes the side effect, whether its executor gives up
      or its process dies. */
  lemma LostSideEffectBlocksForEver(sys: Sys, step: Step, steps: seq<Step>)
    requires Inv(sys) && sys.pending.Some? && sys.pending.value.mode.Effect?
    requires Permitted(sys, step) && (step.Restart? || step.Abandon?) && Legal(Take(sys, step), steps)
    ensures Stuck(Run(Take(sys, step), steps), IssuedTo(sys.pending.value.task).attemptId)
  {
    var s := sys.w.active.value;
    MirrorFolds(s, sys.w.files[s.reference.attemptId]);
    StuckRunsOn(sys, step, steps, s.reference.attemptId);
  }

  lemma {:induction false} ScansWhateverIsWritable(w: World, names: seq<string>, writable: bool)
    ensures Scan(w.(writable := writable), names) ==
            var a := Scan(w, names); Access(a.world.(writable := writable), a.result)
    decreases |names|
  {
    if names != [] && LoadLast(LogOf(w, names[0])).Ok? {
      var s := LoadLast(LogOf(w, names[0])).value;
      if s.resources.LocallyReleased() {
        ScansWhateverIsWritable(w, names[1..], writable);
      } else if w.active.None? {
        ScansWhateverIsWritable(w.(active := Some(s), recovered := true), names[1..], writable);
      }
    }
  }

  lemma ReadsWhateverIsWritable(w: World, writable: bool)
    ensures LoadActive(w.(writable := writable)) ==
            var a := LoadActive(w); Access(a.world.(writable := writable), a.result)
  {
    ScansWhateverIsWritable(w, w.listing, writable);
  }

  // --------------------------------------------------------------- conflicts

  /** The payload digest under which a command is known, stored or in flight. */
  function KnownDigest(s: AttemptState, request: Request): Option<string> {
    if request.commandId in s.results then Some(s.results[request.commandId].record.digest)
    else if s.last.commandId == request.commandId then Some(s.last.digest)
    else None
  }

  /** A conflict report marks the attempt exactly when the command is known under another payload; it answers for the
      new payload, and the receipt names the known one. */
  lemma ConflictIsAnsweredExactly(w: World, s: AttemptState, task: TaskCommand)
    requires Holds(w, s, task)
    ensures var request := ValidateTask(task).value;
            var a := Ledger.ReportConflict(w, task);
            var r := s.resources.(sideEffect := SideEffectState.Uncertain, cleanup := false,
                                  error := Some(PayloadDigestConflict));
            if KnownDigest(s, request).None? || KnownDigest(s, request).value == request.digest
            then a == Answer(w, Err(PayloadDigestConflict))
            else GoesOnAs(w, a, s.(resources := r),
                          Answered(Some(OutcomeMessage(s.reference, request.commandId, request.digest,
                                                       CommandOutcome.Uncertain, None, Some(PayloadDigestConflict))),
                                   Receipt(Some(s.reference), request.commandId, request.sequence, request.generation,
                                           KnownDigest(s, request).value, r)))
  {
    var request := ValidateTask(task).value;
    hide DecideConflict, Healthy, KnownDigest, Sound;
    CallsDecide(w, s, task, Mode.Finish, 0, LedgerInvalid);
    ConflictIsSound(s, request);
    ConflictIsDecidedExactly(s, request);
    if DecideConflict(s, request).Write? {
      WrittenGoesOn(w, s, DecideConflict(s, request));
    }
  }

  lemma ConflictIsDecidedExactly(s: AttemptState, request: Request)
    requires s.reference == request.reference
    ensures DecideConflict(s, request) ==
            if KnownDigest(s, request).None? || KnownDigest(s, request).value == request.digest
            then Decline(PayloadDigestConflict)
            else Write(DigestConflict, AckConflict(request, KnownDigest(s, request).value))
  {
  }

  /** `begin` on an attempt that still holds local resources: a known command is answered from what is known, a known
      id under another payload is a conflict, and every other command comes too late. */
  lemma BeginAgainIsAnsweredExactly(w: World, s: AttemptState, task: TaskCommand, contract: Contract, v2: bool)
    requires Holds(w, s, task) && Acceptable(contract, v2)
    requires !s.Terminal() && LoadLast(w.files[s.reference.attemptId]).Ok?
    requires contract.reference == s.reference
    ensures var request := ValidateTask(task).value;
            var a := Ledger.Begin(w, task, contract, v2);
            if request.commandId in s.results then
              (s.results[request.commandId].record.digest == request.digest ==>
                 a == Answer(w, ReceiptOnly(StoredReply(s, request))))
              && (s.results[request.commandId].record.digest != request.digest ==> MarkedOrFailed(w, a, s))
            else if s.last.commandId != request.commandId then a == Answer(w, Err(AlreadyClaimed))
            else if s.last.digest != request.digest then a == Answer(w, Err(PayloadDigestConflict))
            else a == Answer(w, Ok(Answered(None, Receipt(Some(s.reference), s.last.commandId, s.last.sequence,
                                                          s.last.generation, s.last.digest, s.resources))))
  {
    var request := ValidateTask(task).value;
    if OtherDigest(s, request) {
      BeginMarksExactly(w, s, task, contract, v2);
    } else if request.commandId in s.results {
      BeginReplays(w, s, task, contract, v2);
      assert Ledger.Begin(w, task, contract, v2).reply == ReceiptOnly(StoredReply(s, request));
    } else {
      BeginIsClaim(w, s, task, contract, v2);
      ClaimComesTooLate(w, s, request, StoredContract(contract, v2));
    }
  }

  lemma BeginIsClaim(w: World, s: AttemptState, task: TaskCommand, contract: Contract, v2: bool)
    requires Holds(w, s, task) && Acceptable(contract, v2) && contract.reference == s.reference
    ensures Ledger.Begin(w, task, contract, v2)
            == Claim(w, ValidateTask(task).value, StoredContract(contract, v2))
  {
  }

  lemma ClaimComesTooLate(w: World, s: AttemptState, request: Request, contract: Contract)
    requires Healthy(w) && w.loaded && w.active == Some(s) && s.reference == request.reference
    requires !s.Terminal() && LoadLast(w.files[s.reference.attemptId]).Ok?
    requires request.commandId !in s.results && !OtherDigest(s, request)
    ensures Claim(w, request, contract) ==
            if s.last.commandId != request.commandId then Answer(w, Err(AlreadyClaimed))
            else Answer(w, Ok(Answered(None, Receipt(Some(s.reference), s.last.commandId, s.last.sequence,
                                                     s.last.generation, s.last.digest, s.resources))))
  {
    hide LoadLast, LoadNamed, Claim, Settled, Carries;
    NamedIsActive(w, s);
    ClaimAgain(w, s, request, contract, LoadNamed(w, request.reference.attemptId));
  }

  // ---------------------------------------------------------------- refusals

  /** A command the executor refuses, new or in flight, is stored and answered as not applied with the reason,
      unless the journal is full or its sequence number is used up. */
  lemma RefusedIsAnsweredExactly(w: World, s: AttemptState, task: TaskCommand, code: ErrorCode)
    requires Holds(w, s, task)
    requires IsNew(s, ValidateTask(task).value) || IsInFlight(s, ValidateTask(task).value)
    ensures var request := ValidateTask(task).value;
            var a := Ledger.Reject(w, task, code);
            if |s.results| >= 98_304 then a == Answer(w, Err(LedgerFull))
            else if s.last.commandId != request.commandId && OutOfSequence(s, request)
            then a == Answer(w, Err(SequenceInvalid))
            else SettledAs(w, a, s, Received(request, CommandOutcome.NotApplied, Some(code)),
                           s.resources.(error := Some(code)), s.ownedTarget)
  {
    hide DecideReject, Settled, IsInFlight;
    var request := ValidateTask(task).value;
    CallsDecide(w, s, task, Mode.Finish, 0, code);
    RejectIsSound(s, request, code);
    RefusalIsDecided(s, request, code);
    if DecideReject(s, request, code).Write? {
      StoredIsSettled(w, s, Move.Refuse(request, code));
    }
  }

  lemma RefusalIsDecided(s: AttemptState, request: Request, code: ErrorCode)
    requires Settled(s) && s.reference == request.reference
    requires IsNew(s, request) || IsInFlight(s, request)
    ensures DecideReject(s, request, code) ==
            if |s.results| >= 98_304 then Decline(LedgerFull)
            else if s.last.commandId != request.commandId && OutOfSequence(s, request) then Decline(SequenceInvalid)
            else Write(Move.Refuse(request, code), AckResult)
  {
  }

  // ------------------------------------------------- inspections, claims, marks

  /** An inspection of the active attempt under a new id is recorded as applied and shows the attempt as it is. */
  lemma InspectionIsAnsweredExactly(w: World, s: AttemptState, task: TaskCommand)
    requires Holds(w, s, task) && IsNew(s, ValidateTask(task).value)
    ensures var request := ValidateTask(task).value;
            var record := Received(request, CommandOutcome.Applied, None);
            var a := Ledger.Inspect(w, task);
            if |s.results| >= 98_312 then a == Answer(w, Err(LedgerFull))
            else if OutOfSequence(s, request) then a == Answer(w, Err(SequenceInvalid))
            else GoesOnAs(w, a, s.(last := record,
                                   results := s.results[request.commandId := StoredResult(record, s.resources)]),
                          Answered(None, Receipt(Some(s.reference), request.commandId, request.sequence,
                                                 request.generation, request.digest, s.resources)))
  {
    var request := ValidateTask(task).value;
    CallsDecide(w, s, task, Mode.Finish, 0, LedgerInvalid);
    InspectIsSound(s, request);
    if DecideInspect(s, request).Write? {
      WrittenGoesOn(w, s, Write(Observe(request), AckReceipt));
    }
  }

  /** The receipt for an attempt that no ledger knows. */
  const NOTHING_KNOWN: Receipt :=
    Receipt(None, "", 0, 0, "",
            Resources(AttemptPhase.NotFound, SideEffectState.Clear, "", InputState.Released, CaptureState.NotStarted,
                      TargetState.NotStarted, false, None))

  /** One more line of a ledger, while no attempt is active. */
  ghost predicate GrowsBy(w: World, a: Answer, n: AttemptState, reply: Reply) {
    var name := n.reference.attemptId;
    && a.world.active.None?
    && (if w.writable
        then name in w.files && a.world.files == w.files[name := w.files[name] + [n.(results := map[])]]
             && a.reply == Ok(reply)
        else a.world.files == w.files && a.reply == Err(LedgerUnavailable))
  }

  /** An inspection while no attempt is active asks the ledger of that name: there is none, it cannot be read, it is
      another attempt's, it knows the command, it knows the command with another payload and becomes the active
      attempt, or it records the inspection. */
  lemma RememberedIsInspectedExactly(w: World, task: TaskCommand)
    requires Healthy(w) && w.loaded && w.active.None? && ValidateTask(task).Ok?
    ensures var request := ValidateTask(task).value;
            var name := request.reference.attemptId;
            var a := Ledger.Inspect(w, task);
            if name !in w.files then a == Answer(w, Ok(Answered(None, NOTHING_KNOWN)))
            else if LoadLast(w.files[name]).Err? then a == Answer(w, Err(LedgerInvalid))
            else
              var s := Fold(w.files[name]);
              if s.reference != request.reference then a == Answer(w, Err(ContractMismatch))
              else if request.commandId in s.results then
                var known := s.results[request.commandId];
                if known.record.digest == request.digest
                then a == Answer(w, Ok(Answered(None, Receipt(Some(s.reference), request.commandId,
                                                              known.record.sequence, known.record.generation,
                                                              request.digest, known.resources))))
                else MarkedOrFailed(w.(active := Some(s)), a, s)
              else if |s.results| >= 98_312 then a == Answer(w, Err(LedgerFull))
              else if s.last.commandId != request.commandId && OutOfSequence(s, request)
              then a == Answer(w, Err(SequenceInvalid))
              else
                var record := Received(request, CommandOutcome.Applied, None);
                GrowsBy(w, a, s.(last := record,
                                 results := s.results[request.commandId := StoredResult(record, s.resources)]),
                        Answered(None, Receipt(Some(s.reference), request.commandId, request.sequence,
                                               request.generation, request.digest, s.resources)))
  {
    var request := ValidateTask(task).value;
    var name := request.reference.attemptId;
    assert Ledger.Inspect(w, task) == InspectNamed(w, request);
    if name in w.files && LoadLast(w.files[name]).Ok? && Fold(w.files[name]).reference == request.reference {
      KnownIsInspected(w, request, Fold(w.files[name]));
    }
  }

  lemma KnownIsInspected(w: World, request: Request, s: AttemptState)
    requires Healthy(w) && w.loaded && w.active.None? && s.reference == request.reference
    requires request.reference.attemptId in w.files && LoadLast(w.files[request.reference.attemptId]) == Ok(s)
    requires s == Fold(w.files[request.reference.attemptId])
    ensures var a := InspectNamed(w, request);
            if request.commandId in s.results then
              var known := s.results[request.commandId];
              if known.record.digest == request.digest
              then a == Answer(w, Ok(Answered(None, Receipt(Some(s.reference), request.commandId,
                                                            known.record.sequence, known.record.generation,
                                                            request.digest, known.resources))))
              else MarkedOrFailed(w.(active := Some(s)), a, s)
            else if |s.results| >= 98_312 then a == Answer(w, Err(LedgerFull))
            else if s.last.commandId != request.commandId && OutOfSequence(s, request)
            then a == Answer(w, Err(SequenceInvalid))
            else
              var record := Received(request, CommandOutcome.Applied, None);
              GrowsBy(w, a, s.(last := record,
                               results := s.results[request.commandId := StoredResult(record, s.resources)]),
                      Answered(None, Receipt(Some(s.reference), request.commandId, request.sequence,
                                             request.generation, request.digest, s.resources)))
  {
    hide Execute, LoadLast, Fold, MarkedOrFailed;
    NamedIsSettled(w, request.reference.attemptId);
    if request.commandId in s.results {
      if s.results[request.commandId].record.digest == request.digest {
        StoredIsAnswered(s, request);
      } else {
        InspectNamedFacts(w, request);
        ConflictIsWritten(s, request);
        ConflictIsMarked(w.(active := Some(s)), s, request);
      }
    } else if RecordCommand(s, request, MAX_BUSINESS + MAX_INSPECT).Ok? {
      InspectNamedFacts(w, request);
      ObserveNamedFacts(w, Next(s, Observe(request)));
    }
  }

  lemma NamedIsSettled(w: World, name: string)
    requires Healthy(w) && name in w.files
    ensures w.durable && w.files[name] != [] && Settled(Fold(w.files[name]))
    ensures Fold(w.files[name]).reference.attemptId == name
  {
  }

  lemma ConflictIsMarked(w: World, s: AttemptState, request: Request)
    requires w.durable && w.loaded && w.active == Some(s) && Settled(s)
    requires s.reference == request.reference && OtherDigest(s, request)
    ensures var done := Execute(w, s, DecideConflict(s, request));
            MarkedOrFailed(w, Answer(done.world, ReceiptOnly(done.reply)), s)
  {
    ConflictIsWritten(s, request);
    MarkIsWritten(w, s, DecideConflict(s, request));
    ReceiptsStillMark(w, Execute(w, s, DecideConflict(s, request)), s);
  }

  /** The attempt that a successful claim starts, and what is stored of the claim itself. */
  function FirstState(contract: Contract, request: Request): AttemptState {
    var record := Received(request, CommandOutcome.Applied, None);
    var r := Resources(AttemptPhase.Claimed, SideEffectState.Clear, "", InputState.Released, CaptureState.NotStarted,
                       TargetState.NotStarted, false, None);
    AttemptState(contract, request.reference, record, map[request.commandId := StoredResult(record, r)], r, None)
  }

  /** With no ledger of that name and no attempt that holds local resources, a contract that its message may carry
      is claimed. A version-1 message loses the terms of version 3. If the first line cannot be appended the former
      attempt is forgotten all the same. */
  lemma ClaimIsAnswered(w: World, task: TaskCommand, contract: Contract, v2: bool)
    requires Healthy(w) && w.loaded
    requires w.active.None? || w.active.value.resources.LocallyReleased()
    requires ValidateTask(task).Ok? && ValidateTask(task).value.reference == contract.reference
    requires contract.reference.attemptId !in w.files
    requires w.active.Some? ==> w.active.value.reference.attemptId != contract.reference.attemptId
    ensures var request := ValidateTask(task).value;
            var n := FirstState(if v2 then contract
                                else contract.(deadline := 0, maxInputLease := 0, capabilities := []), request);
            var a := Ledger.Begin(w, task, contract, v2);
            if !(contract.sealed
                 && (if v2 then contract.reference.contractVersion == 3 && contract.deadline > 0
                                && contract.maxInputLease > 0 && contract.capabilities != []
                     else contract.reference.contractVersion in {1, 3}))
            then a == Answer(w, Err(ContractValueInvalid))
            else if !w.writable
            then a == Answer(w.(active := None, recovered := w.recovered && w.active.None?), Err(LedgerUnavailable))
            else a.world.active == Some(n) && !a.world.recovered
                 && a.world.files == w.files[request.reference.attemptId := [n.(results := map[])]]
                 && a.reply == Ok(Answered(None, Receipt(Some(n.reference), request.commandId, request.sequence,
                                                         request.generation, request.digest, n.resources)))
  {
    var name := contract.reference.attemptId;
    if Acceptable(contract, v2) {
      assert Ledger.Begin(w, task, contract, v2)
          == ClaimFresh(w, ValidateTask(task).value, StoredContract(contract, v2));
      assert LogOf(w, name) == [];
      FirstLine(StoredContract(contract, v2), ValidateTask(task).value);
    }
  }

  lemma FirstLine(contract: Contract, request: Request)
    ensures ClaimedState(contract, request) == FirstState(contract, request)
    ensures [] + [ClaimedState(contract, request).Snapshot()] == [FirstState(contract, request).(results := map[])]
  {
  }

  /** Under another reference than its contract's nothing is claimed, nor an attempt that is terminal, as memory or
      its ledger says. */
  lemma NothingIsClaimedTwice(w: World, task: TaskCommand, contract: Contract, v2: bool)
    requires w.loaded && Acceptable(contract, v2) && ValidateTask(task).Ok?
    ensures var request := ValidateTask(task).value;
            var name := request.reference.attemptId;
            var a := Ledger.Begin(w, task, contract, v2);
            && (request.reference != contract.reference ==> a == Answer(w, Err(ContractMismatch)))
            && (request.reference == contract.reference
                && ((w.active.Some? && w.active.value.reference.attemptId == name
                     && w.active.value.resources.phase == AttemptPhase.Terminal)
                    || (w.durable && name in w.files && LoadLast(w.files[name]).Ok?
                        && Fold(w.files[name]).reference.attemptId == name
                        && Fold(w.files[name]).resources.phase == AttemptPhase.Terminal)) ==>
                  a == Answer(w, Err(AttemptTerminal)))
  {
    hide Execute, DecideBegin, ClaimFresh;
  }

  /** While an attempt holds local resources no other one is claimed. */
  lemma BusyRefusesOthers(w: World, s: AttemptState, task: TaskCommand, contract: Contract, v2: bool)
    requires w.loaded && w.active == Some(s) && Acceptable(contract, v2) && ValidateTask(task).Ok?
    requires !s.resources.LocallyReleased()
    requires ValidateTask(task).value.reference == contract.reference != s.reference
    requires contract.reference.attemptId != s.reference.attemptId && contract.reference.attemptId !in w.files
    ensures Ledger.Begin(w, task, contract, v2) == Answer(w, Err(ContractMismatch))
  {
    hide ClaimFresh;
  }

  // ----------------------------------------------------------------- reading

  /** A contract that may be stored: sealed, and of version 1, or of version 3 with all its terms. */
  predicate MayBeStored(contract: Contract) {
    && contract.sealed
    && (contract.reference.contractVersion == 1
        || (contract.reference.contractVersion == 3 && contract.deadline > 0 && contract.maxInputLease > 0
            && contract.capabilities != []))
  }

  /** Nothing is held and nothing is open. */
  predicate IsCleanedUp(r: Resources) {
    && r.phase == AttemptPhase.Terminal && r.input == InputState.Released && IsResolved(r)
    && r.capture in {CaptureState.NotStarted, CaptureState.Stopped}
    && r.target in {TargetState.NotStarted, TargetState.Running, TargetState.Closed}
  }

  predicate MayBeRead(r: Resources) {
    && r.phase != AttemptPhase.Unspecified && r.sideEffect != SideEffectState.Unspecified
    && r.input != InputState.Unspecified && r.capture != CaptureState.Unspecified
    && r.target != TargetState.Unspecified
    && r.cleanup == IsCleanedUp(r)
  }

  /** An attempt owns a target of its profile while that runs or may run; a running target without an owner is left
      behind by a terminal attempt only. */
  predicate OwnsRightly(s: AttemptState) {
    match s.ownedTarget
    case Some(target) =>
      target.profileId == s.contract.profileId
      && (s.resources.target == TargetState.Running || s.resources.target == TargetState.Unknown)
    case None => s.resources.target == TargetState.Running ==> s.resources.phase == AttemptPhase.Terminal
  }

  ghost predicate IndexMayBeRead(s: AttemptState) {
    && |s.results| <= 98_320
    && (forall id :: id in s.results ==>
          && s.results[id].record.commandId == id && id != "" && IsHexText(s.results[id].record.digest, 64, {})
          && s.results[id].record.outcome != CommandOutcome.Unspecified && MayBeRead(s.results[id].resources))
    && (s.last.outcome != CommandOutcome.Unspecified ==>
          && s.last.commandId in s.results
          && s.results[s.last.commandId].record.digest == s.last.digest
          && s.results[s.last.commandId].record.outcome == s.last.outcome)
  }

  /** What the reader demands of a ledger: all of this of its last line, with the index that the lines before
      rebuild, and nothing of any other line. */
  lemma LedgerIsReadExactly(log: Log)
    ensures LoadLast(log) == (if log != [] && IsAccepted(Fold(log)) then Ok(Fold(log)) else Err(LedgerInvalid))
  {
    if log != [] {
      var s := Fold(log);
      ResourcesAreReadExactly(s.resources);
      HexTextIsExact(s.last.digest);
      IndexIsReadExactly(s);
    }
  }

  ghost predicate IsAccepted(s: AttemptState) {
    && MayBeStored(s.contract) && s.contract.reference == s.reference
    && MayBeRead(s.resources) && s.last.commandId != "" && IsHexText(s.last.digest, 64, {})
    && OwnsRightly(s) && IndexMayBeRead(s)
  }

  lemma ResourcesAreReadExactly(r: Resources)
    ensures r.Valid() <==> MayBeRead(r)
  {
  }

  lemma IndexIsReadExactly(s: AttemptState)
    ensures s.IndexValid() <==> IndexMayBeRead(s)
  {
    forall id | id in s.results
      ensures s.results[id].Valid() <==>
              && s.results[id].record.commandId != "" && IsHexText(s.results[id].record.digest, 64, {})
              && s.results[id].record.outcome != CommandOutcome.Unspecified && MayBeRead(s.results[id].resources)
    {
      ResourcesAreReadExactly(s.results[id].resources);
      HexTextIsExact(s.results[id].record.digest);
    }
  }

  // ------------------------------------------------------------ nobody there

  /** A command that is not well formed is refused by every call, before anything is read. */
  lemma MalformedIsRefused(w: World, task: TaskCommand, mode: Mode, now: int, code: ErrorCode, c: Completion)
    requires !AttemptRecord.WellFormed(task)
    ensures Ledger.Replay(w, task) == Ledger.ReportConflict(w, task) == Ledger.Reject(w, task, code)
            == Ledger.Prepare(w, task, mode, now) == Ledger.Complete(w, task, c) == Ledger.Inspect(w, task)
            == Answer(w, Err(ReferenceInvalid))
    ensures Ledger.RequireActive(w, task) == Held(w, Err(ReferenceInvalid))
  {
    ValidationIsExact(task);
  }

  /** While no attempt is active, every call about one says so; the marks and the emergency finish have nothing to
      do. */
  lemma NothingActiveIsAnswered(
    w: World, task: TaskCommand, mode: Mode, now: int, code: ErrorCode, c: Completion, move: Move,
    reference: AttemptRef, found: TargetBinding)
    requires w.loaded && w.active.None? && ValidateTask(task).Ok?
    ensures Ledger.Replay(w, task) == Ledger.ReportConflict(w, task) == Ledger.Reject(w, task, code)
            == Ledger.Prepare(w, task, mode, now) == Ledger.Complete(w, task, c)
            == Ledger.RefreshTarget(w, reference, found) == Answer(w, Err(AttemptNotFound))
    ensures Ledger.RequireActive(w, task) == Held(w, Err(AttemptNotFound))
    ensures Ledger.Impose(w, move) == Answer(w, Ok(Absent)) && Ledger.IsActive(w) == Answer(w, Ok(Flag(false)))
  {
  }

  /** As long as the ledgers cannot be read every call that needs them answers what the reading answered. */
  lemma FailedReadIsAnswered(
    w: World, task: TaskCommand, mode: Mode, now: int, code: ErrorCode, c: Completion, move: Move,
    reference: AttemptRef, found: TargetBinding)
    requires LoadActive(w).result.Err? && ValidateTask(task).Ok?
    ensures var told := Answer(LoadActive(w).world, Err(LoadActive(w).result.code));
            && Ledger.Replay(w, task) == told && Ledger.ReportConflict(w, task) == told
            && Ledger.Reject(w, task, code) == told && Ledger.Prepare(w, task, mode, now) == told
            && Ledger.Inspect(w, task) == told && Ledger.RefreshTarget(w, reference, found) == told
            && Ledger.Impose(w, move) == told && Ledger.IsActive(w) == told
            && (c.Finish? ==> Ledger.Complete(w, task, c) == told)
            && Ledger.RequireActive(w, task) == Held(told.world, Err(LoadActive(w).result.code))
  {
  }

  /** Whether work is going on, and whether it is the attempt that a command names. */
  lemma ActivityIsAnswered(w: World, s: AttemptState, task: TaskCommand)
    requires w.loaded && w.active == Some(s) && ValidateTask(task).Ok?
    ensures Ledger.IsActive(w) ==
            Answer(w, Ok(Flag(!(&& s.resources.phase == AttemptPhase.Terminal
                                && s.resources.input == InputState.Released
                                && s.resources.capture in {CaptureState.NotStarted, CaptureState.Stopped}
                                && s.resources.target in {TargetState.NotStarted, TargetState.Running,
                                                          TargetState.Closed}))))
    ensures Ledger.RequireActive(w, task) ==
            Held(w, if s.reference == ValidateTask(task).value.reference then Ok(s) else Err(ContractMismatch))
  {
  }

  /** Only the last command can be completed, under its own payload; a finish must name its own attempt. */
  lemma StrangeCompletionIsRefused(w: World, s: AttemptState, task: TaskCommand, c: Completion)
    requires w.loaded && w.active == Some(s) && ValidateTask(task).Ok?
    ensures var request := ValidateTask(task).value;
            var a := Ledger.Complete(w, task, c);
            if c.Finish? && s.reference != request.reference then a == Answer(w, Err(ContractMismatch))
            else if s.last.commandId != request.commandId then a == Answer(w, Err(AlreadyClaimed))
            else s.last.digest != request.digest ==> a == Answer(w, Err(PayloadDigestConflict))
  {
  }

  /** The marks and the emergency finish name no command: they keep the last command and the whole index. */
  ghost predicate OnlyResources(w: World, a: Answer, s: AttemptState, r: Resources, target: Option<TargetBinding>) {
    GoesOnAs(w, a, s.(resources := r, ownedTarget := target),
             Answered(None, Receipt(Some(s.reference), s.last.commandId, s.last.sequence, s.last.generation,
                                    s.last.digest, r)))
  }

  lemma MarksAreAnswered(w: World, s: AttemptState, code: ErrorCode, released: bool)
    requires Healthy(w) && w.loaded && w.active == Some(s)
    ensures OnlyResources(w, Ledger.Impose(w, Move.MarkUncertain(code, released)), s,
                          s.resources.(sideEffect := SideEffectState.Uncertain, cleanup := false, error := Some(code),
                                       input := if released then InputState.Released else InputState.Unknown),
                          s.ownedTarget)
    ensures OnlyResources(w, Ledger.Impose(w, Move.MarkReleased(code)), s,
                          s.resources.(input := InputState.Released, cleanup := false, error := Some(code)),
                          s.ownedTarget)
  {
    ImposeIsExecuted(w, Move.MarkUncertain(code, released));
    ImposeIsExecuted(w, Move.MarkReleased(code));
    WrittenGoesOn(w, s, Write(Move.MarkUncertain(code, released), AckReceipt));
    WrittenGoesOn(w, s, Write(Move.MarkReleased(code), AckReceipt));
  }

  /** An emergency finish leaves no trace when it cannot be appended. Its error names the caller's failure first,
      then an unresolved side effect, then what was not let go of. */
  lemma EmergencyIsAnswered(
    w: World, s: AttemptState, released: bool, stopped: bool, running: bool, error: Option<ErrorCode>)
    requires Healthy(w) && w.loaded && w.active == Some(s)
    ensures var a := Ledger.Impose(w, Move.Emergency(released, stopped, running, error));
            var clean := released && stopped && IsResolved(s.resources);
            var r := Resources(AttemptPhase.Terminal, s.resources.sideEffect, s.resources.lastSideEffectId,
                               if released then InputState.Released else InputState.Unknown,
                               if stopped then CaptureState.Stopped else CaptureState.Unknown,
                               if running then TargetState.Running else TargetState.NotStarted,
                               clean,
                               if error.Some? then error
                               else if !IsResolved(s.resources) then Some(SideEffectUncertain)
                               else if !clean then Some(CleanupIncomplete)
                               else None);
            if w.writable then OnlyResources(w, a, s, r, None) else a == Answer(w, Err(LedgerUnavailable))
  {
    hide Ledger.Impose, Execute, Next, Healthy, Settled;
    var m := Move.Emergency(released, stopped, running, error);
    ImposeIsExecuted(w, m);
    ReadIsHealthy(w, s);
    ExecuteFacts(w, s, Write(m, AckReceipt));
    EmergencyLeaves(s, released, stopped, running, error);
  }

  lemma ReadIsHealthy(w: World, s: AttemptState)
    requires Healthy(w) && w.loaded && w.active == Some(s)
    ensures w.durable && Settled(s) && s.reference.attemptId in w.files
  {
  }

  lemma EmergencyLeaves(s: AttemptState, released: bool, stopped: bool, running: bool, error: Option<ErrorCode>)
    ensures var clean := released && stopped && IsResolved(s.resources);
            Next(s, Move.Emergency(released, stopped, running, error)) ==
            s.(ownedTarget := None, resources :=
                 Resources(AttemptPhase.Terminal, s.resources.sideEffect, s.resources.lastSideEffectId,
                           if released then InputState.Released else InputState.Unknown,
                           if stopped then CaptureState.Stopped else CaptureState.Unknown,
                           if running then TargetState.Running else TargetState.NotStarted,
                           clean,
                           if error.Some? then error
                           else if !IsResolved(s.resources) then Some(SideEffectUncertain)
                           else if !clean then Some(CleanupIncomplete)
                           else None))
  {
  }

  /** The target of the active attempt is refreshed exactly when the attempt owns it and only its window is
      another one. */
  lemma RefreshIsAnswered(w: World, s: AttemptState, reference: AttemptRef, found: TargetBinding)
    requires Healthy(w) && w.loaded && w.active == Some(s)
    ensures var a := Ledger.RefreshTarget(w, reference, found);
            if s.reference != reference then a == Answer(w, Err(ContractMismatch))
            else if s.ownedTarget.None? then a == Answer(w, Err(TargetInvalid))
            else if !SameProcess(s.ownedTarget.value, found) then a == Answer(w, Err(TargetStale))
            else GoesOnAs(w, a, s.(ownedTarget := Some(found)), Done)
  {
    hide Execute;
    RefreshIsDecided(s, reference, found);
    RefreshIsExecuted(w, s, reference, found);
    if DecideRefresh(s, reference, found).Write? {
      RefreshIsSound(s, reference, found);
      WrittenGoesOn(w, s, Write(Move.Refresh(found), AckDone));
    }
  }

  lemma RefreshIsExecuted(w: World, s: AttemptState, reference: AttemptRef, found: TargetBinding)
    requires w.loaded && w.active == Some(s)
    ensures Ledger.RefreshTarget(w, reference, found) == Execute(w, s, DecideRefresh(s, reference, found))
    ensures DecideRefresh(s, reference, found).Decline? ==>
              Ledger.RefreshTarget(w, reference, found) == Answer(w, Err(DecideRefresh(s, reference, found).code))
  {
  }

  lemma RefreshIsDecided(s: AttemptState, reference: AttemptRef, found: TargetBinding)
    ensures DecideRefresh(s, reference, found) ==
            if s.reference != reference then Decline(ContractMismatch)
            else if s.ownedTarget.None? then Decline(TargetInvalid)
            else if !SameProcess(s.ownedTarget.value, found) then Decline(TargetStale)
            else Write(Move.Refresh(found), AckDone)
  {
  }

  predicate SameProcess(a: TargetBinding, b: TargetBinding) {
    && a.profileId == b.profileId && a.profileVersion == b.profileVersion && a.processId == b.processId
    && a.startedAt == b.startedAt && a.pathSha256 == b.pathSha256
  }
}
