/** Concrete runs that show which assumptions the results about the ledger need. */
module LedgerExamples {
  import opened Outcomes
  import opened AttemptRecord
  import opened Ledger = AttemptLedger
  import opened LedgerMoves
  import opened LedgerWorlds
  import opened LedgerRuns
  import opened LedgerTheorems
  import opened LedgerValidity

  function Digest(): (s: string)
    ensures IsDigest(s)
  {
    seq(64, i => '0')
  }

  function Uuid(): (s: string)
    ensures IsUuid(s)
  {
    seq(36, i => if i in {8, 13, 18, 23} then '-' else '0')
  }

  const REFERENCE: AttemptRef := AttemptRef(Uuid(), Uuid(), 1, Digest())
  const CONTRACT: Contract := Contract(REFERENCE, "game", 0, 0, [], true)

  function Task(id: string, session: string, sequence: nat): TaskCommand {
    TaskCommand(Some(REFERENCE), Some(CommandRef(Some(Session(session, 1)), id, sequence)), Digest())
  }

  function Req(id: string, session: string, sequence: nat): Request {
    Request(REFERENCE, id, sequence, session, 1, Digest())
  }

  lemma TaskIsValid(id: string, session: string, sequence: nat)
    requires id != ""
    ensures ValidateTask(Task(id, session, sequence)) == Ok(Req(id, session, sequence))
  {
  }

  /** The active attempt `s` over its ledger. */
  function At(log: Log, s: AttemptState): World {
    World(true, map[Uuid() := log], [Uuid()], true, Some(s), true, false)
  }

  const BEGUN: AttemptState := ClaimedState(CONTRACT, Req("begin", "s", 1))

  lemma Begins()
    ensures var a := Ledger.Begin(GENESIS.w, Task("begin", "s", 1), CONTRACT, false);
            a.world == At([BEGUN.Snapshot()], BEGUN) && a.reply.Ok?
    ensures Settled(BEGUN)
  {
    TaskIsValid("begin", "s", 1);
    ClaimMirrors(CONTRACT, Req("begin", "s", 1));
    assert LogOf(GENESIS.w, Uuid()) + [BEGUN.Snapshot()] == [BEGUN.Snapshot()];
    assert [] + [Uuid()] == [Uuid()];
    assert CONTRACT.WithoutV3Terms() == CONTRACT;
  }

  /** A call on the active attempt appends the moved snapshot. */
  lemma Writes(log: Log, s: AttemptState, v: Verdict)
    requires Settled(s) && Sound(s, v) && v.Write? && s.reference == REFERENCE
    ensures var n := Next(s, v.move);
            Execute(At(log, s), s, v) == Answer(At(log + [n.Snapshot()], n), Acknowledge(n, v.ack))
    ensures Settled(Next(s, v.move)) && Next(s, v.move).reference == REFERENCE
  {
    ExecuteFacts(At(log, s), s, v);
    MoveKeepsSettled(s, v.move);
    var n := Next(s, v.move);
    assert map[Uuid() := log][Uuid() := log + [n.Snapshot()]] == map[Uuid() := log + [n.Snapshot()]];
  }

  lemma Prepares(log: Log, s: AttemptState, id: string, session: string, sequence: nat, mode: Mode)
    requires Settled(s) && s.reference == REFERENCE && id != ""
    requires DecidePrepare(s, Req(id, session, sequence), mode, 0)
             == Write(Grant(Req(id, session, sequence), mode.Effect?), AckProceed)
    ensures var n := Next(s, Grant(Req(id, session, sequence), mode.Effect?));
            && Settled(n) && n.reference == REFERENCE
            && Ledger.Prepare(At(log, s), Task(id, session, sequence), mode, 0)
               == Answer(At(log + [n.Snapshot()], n), Ok(Proceed))
  {
    TaskIsValid(id, session, sequence);
    PrepareIsSound(s, Req(id, session, sequence), mode, 0);
    Writes(log, s, DecidePrepare(s, Req(id, session, sequence), mode, 0));
  }

  lemma Completes(log: Log, s: AttemptState, id: string, session: string, sequence: nat, c: Completion)
    requires Settled(s) && s.reference == REFERENCE && id != ""
    requires s.InFlight() && s.last.commandId == id && s.last.digest == Digest()
    requires CompletionOutcome(s, c) != CommandOutcome.Unspecified
    ensures var n := Next(s, Move.Complete(c));
            && Settled(n) && n.reference == REFERENCE
            && Ledger.Complete(At(log, s), Task(id, session, sequence), c).world == At(log + [n.Snapshot()], n)
            && Ledger.Complete(At(log, s), Task(id, session, sequence), c).reply.Ok?
  {
    TaskIsValid(id, session, sequence);
    CompleteExecutes(At(log, s), Task(id, session, sequence), c);
    Writes(log, s, Write(Move.Complete(c), AckResult));
  }

  // --------------------------------------------- a release after the finish

  const FINISHING: AttemptState := Next(BEGUN, Grant(Req("finish", "s", 2), false))
  const FINISHED: AttemptState := Next(FINISHING, Move.Complete(Completion.Finish(true, true, false, None)))

  const LATE_RELEASE: seq<Step> := [
    Invoke(Call.Begin(Task("begin", "s", 1), CONTRACT, false), true),
    Invoke(Call.Prepare(Task("finish", "s", 2), Mode.Finish, 0), true),
    Invoke(Call.Complete(Task("finish", "s", 2), Completion.Finish(true, true, false, None)), true),
    Invoke(Call.Impose(MarkReleased(LeaseExpired)), true),
    Restart([Uuid()])]

  lemma FinishesCleanly()
    ensures DecidePrepare(BEGUN, Req("finish", "s", 2), Mode.Finish, 0)
            == Write(Grant(Req("finish", "s", 2), false), AckProceed)
    ensures FINISHING.InFlight() && FINISHING.last.commandId == "finish" && FINISHING.last.digest == Digest()
    ensures CompletionOutcome(FINISHING, Completion.Finish(true, true, false, None)) == CommandOutcome.Applied
    ensures FINISHED.resources.cleanup && OnlyInputOpen(FINISHED.resources)
  {
    assert |BEGUN.results| == 1;
  }

  /** The run so far: no append failed and no side effect was granted. */
  function Running(log: Log, s: AttemptState, pending: Option<Pending>): Sys {
    Sys(At(log, s), pending, false, [], [Uuid()])
  }

  const LOG_BEGUN: Log := [BEGUN.Snapshot()]
  const LOG_FINISHING: Log := LOG_BEGUN + [FINISHING.Snapshot()]
  const LOG_FINISHED: Log := LOG_FINISHING + [FINISHED.Snapshot()]

  /** The rest of the run from `sys` on brings the runtime down. */
  ghost predicate BringsDown(sys: Sys, steps: seq<Step>) {
    Legal(sys, steps) && Down(Run(sys, steps))
  }

  lemma OneStepEarlier(sys: Sys, next: Sys, steps: seq<Step>, k: nat)
    requires k < |steps| && Permitted(sys, steps[k]) && Take(sys, steps[k]) == next
    requires BringsDown(next, steps[k + 1..])
    ensures BringsDown(sys, steps[k..])
  {
    assert steps[k..][1..] == steps[k + 1..];
  }

  lemma TakesBegin()
    ensures Permitted(GENESIS, LATE_RELEASE[0])
    ensures Take(GENESIS, LATE_RELEASE[0]) == Running(LOG_BEGUN, BEGUN, None)
  {
    Begins();
    TaskIsValid("begin", "s", 1);
    assert CONTRACT.WithoutV3Terms() == CONTRACT;
    assert LogOf(GENESIS.w, Uuid()) + [BEGUN.Snapshot()] == LOG_BEGUN;
    assert [] + [Uuid()] == [Uuid()];
  }

  lemma TakesPrepare(log: Log, s: AttemptState, id: string, session: string, sequence: nat)
    requires Settled(s) && Mirrors(s, log) && s.reference == REFERENCE && id != ""
    requires DecidePrepare(s, Req(id, session, sequence), Mode.Finish, 0)
             == Write(Grant(Req(id, session, sequence), false), AckProceed)
    ensures var n := Next(s, Grant(Req(id, session, sequence), false));
            var step := Invoke(Call.Prepare(Task(id, session, sequence), Mode.Finish, 0), true);
            && Permitted(Running(log, s, None), step)
            && Take(Running(log, s, None), step) ==
               Running(log + [n.Snapshot()], n, Some(Pending(Task(id, session, sequence), Mode.Finish)))
            && Settled(n) && n.reference == REFERENCE
  {
    PreparePermitted(log, s, id, session, sequence);
    Prepares(log, s, id, session, sequence, Mode.Finish);
    PerformsPrepare(At(log, s), Call.Prepare(Task(id, session, sequence), Mode.Finish, 0));
    PrepareTaken(log, s, Next(s, Grant(Req(id, session, sequence), false)), Task(id, session, sequence));
  }

  lemma PreparePermitted(log: Log, s: AttemptState, id: string, session: string, sequence: nat)
    requires Settled(s) && Mirrors(s, log) && s.reference == REFERENCE
    ensures Permitted(Running(log, s, None), Invoke(Call.Prepare(Task(id, session, sequence), Mode.Finish, 0), true))
  {
    hide RecordsAnother, Settled;
    MirrorCarries(s, log);
  }

  lemma PrepareTaken(log: Log, s: AttemptState, n: AttemptState, task: TaskCommand)
    requires Perform(At(log, s), Call.Prepare(task, Mode.Finish, 0))
             == Answer(At(log + [n.Snapshot()], n), Ok(Proceed))
    ensures Take(Running(log, s, None), Invoke(Call.Prepare(task, Mode.Finish, 0), true))
            == Running(log + [n.Snapshot()], n, Some(Pending(task, Mode.Finish)))
  {
    hide Perform;
  }

  lemma TakesFinish(log: Log, s: AttemptState, id: string, session: string, sequence: nat, c: Completion)
    requires Settled(s) && s.reference == REFERENCE && id != ""
    requires s.InFlight() && s.last.commandId == id && s.last.digest == Digest()
    requires CompletionOutcome(s, c) != CommandOutcome.Unspecified && c.Finish?
    ensures var n := Next(s, Move.Complete(c));
            var sys := Running(log, s, Some(Pending(Task(id, session, sequence), Mode.Finish)));
            var step := Invoke(Call.Complete(Task(id, session, sequence), c), true);
            && Permitted(sys, step)
            && Take(sys, step) == Running(log + [n.Snapshot()], n, None)
            && Settled(n) && n.reference == REFERENCE
  {
    Completes(log, s, id, session, sequence, c);
  }

  lemma TakesMark(log: Log, s: AttemptState, code: ErrorCode)
    requires Settled(s) && s.reference == REFERENCE
    ensures var n := Next(s, MarkReleased(code));
            var step := Invoke(Call.Impose(MarkReleased(code)), true);
            && Permitted(Running(log, s, None), step)
            && Take(Running(log, s, None), step) == Running(log + [n.Snapshot()], n, None)
  {
    var v := Write(MarkReleased(code), AckReceipt);
    Writes(log, s, v);
    assert Perform(At(log, s), Call.Impose(MarkReleased(code))) == Execute(At(log, s), s, v);
  }

  lemma TakesRestart(log: Log, s: AttemptState)
    requires !s.ScalarsValid()
    ensures var sys := Running(log + [s.Snapshot()], s, None);
            && Permitted(sys, Restart([Uuid()]))
            && Down(Take(sys, Restart([Uuid()])))
  {
    DirtyIsUnreadable(log, s.Snapshot());
    assert Uuid() in Running(log + [s.Snapshot()], s, None).w.files;
  }

  const SYS_FINISHING: Sys :=
    Running(LOG_FINISHING, FINISHING, Some(Pending(Task("finish", "s", 2), Mode.Finish)))

  lemma ReachesFinishing()
    ensures Settled(FINISHING) && FINISHING.reference == REFERENCE
    ensures Permitted(Running(LOG_BEGUN, BEGUN, None), LATE_RELEASE[1])
    ensures Take(Running(LOG_BEGUN, BEGUN, None), LATE_RELEASE[1]) == SYS_FINISHING
  {
    hide Take, Permitted, DecidePrepare;
    Begins();
    FinishesCleanly();
    ClaimMirrors(CONTRACT, Req("begin", "s", 1));
    TakesPrepare(LOG_BEGUN, BEGUN, "finish", "s", 2);
  }

  lemma ReachesFinished()
    ensures Settled(FINISHED) && FINISHED.reference == REFERENCE
    ensures Permitted(SYS_FINISHING, LATE_RELEASE[2])
    ensures Take(SYS_FINISHING, LATE_RELEASE[2]) == Running(LOG_FINISHED, FINISHED, None)
  {
    ReachesFinishing();
    FinishesCleanly();
    TakesFinish(LOG_FINISHING, FINISHING, "finish", "s", 2, Completion.Finish(true, true, false, None));
  }

  /** Marking the input released brings down any runtime whose attempt is otherwise cleaned up. */
  lemma MarkBringsDown(log: Log, s: AttemptState)
    requires Settled(s) && s.reference == REFERENCE && OnlyInputOpen(s.resources)
    ensures BringsDown(Running(log, s, None),
                       [Invoke(Call.Impose(MarkReleased(LeaseExpired)), true), Restart([Uuid()])])
  {
    hide Take, Permitted, BringsDown, Down;
    var steps := [Invoke(Call.Impose(MarkReleased(LeaseExpired)), true), Restart([Uuid()])];
    var n := Next(s, MarkReleased(LeaseExpired));
    var marked := Running(log + [n.Snapshot()], n, None);
    MarkedIsInvalid(s, n);
    TakesMark(log, s, LeaseExpired);
    TakesRestart(log, n);
    DownInOneStep(marked, steps, 1);
    OneStepEarlier(Running(log, s, None), marked, steps, 0);
  }

  lemma MarkedIsInvalid(s: AttemptState, n: AttemptState)
    requires OnlyInputOpen(s.resources) && n == Next(s, MarkReleased(LeaseExpired))
    ensures !n.ScalarsValid()
  {
  }

  lemma DownInOneStep(sys: Sys, steps: seq<Step>, k: nat)
    requires k == |steps| - 1 && Permitted(sys, steps[k]) && Down(Take(sys, steps[k]))
    ensures BringsDown(sys, steps[k..])
  {
    assert steps[k + 1..] == [];
    OneStepEarlier(sys, Take(sys, steps[k]), steps, k);
  }

  lemma FinishingIsBroughtDown()
    ensures BringsDown(SYS_FINISHING, LATE_RELEASE[2..])
  {
    ReachesFinished();
    FinishesCleanly();
    MarkBringsDown(LOG_FINISHED, FINISHED);
    assert LATE_RELEASE[3..] == [LATE_RELEASE[3], LATE_RELEASE[4]];
    OneStepEarlier(SYS_FINISHING, Running(LOG_FINISHED, FINISHED, None), LATE_RELEASE, 2);
  }

  /** The expiry of an input lease, recorded after a clean finish, makes the ledger unreadable: from the next
      restart on the runtime answers nothing any more. */
  lemma LateReleaseStopsTheRuntime()
    ensures BringsDown(GENESIS, LATE_RELEASE)
  {
    FinishingIsBroughtDown();
    ReachesFinishing();
    OneStepEarlier(Running(LOG_BEGUN, BEGUN, None), SYS_FINISHING, LATE_RELEASE, 1);
    TakesBegin();
    OneStepEarlier(GENESIS, Running(LOG_BEGUN, BEGUN, None), LATE_RELEASE, 0);
  }

  // ------------------------------------------- a lost append, then another

  const PULSE: Completion := Completion.Pulse(1, true, None)
  const FRAME: Completion := Completion.CaptureFrame(None, None)
  const X_GRANTED: AttemptState := Next(BEGUN, Grant(Req("x", "s", 2), true))
  const X_DONE: AttemptState := Next(X_GRANTED, Move.Complete(PULSE))
  const Y_GRANTED: AttemptState := Next(X_DONE, Grant(Req("y", "s", 3), false))
  const Y_DONE: AttemptState := Next(Y_GRANTED, Move.Complete(FRAME))
  const LOG_X: Log := LOG_BEGUN + [X_GRANTED.Snapshot()]
  const LOG_Y: Log := LOG_X + [Y_GRANTED.Snapshot()]
  const LOG_YY: Log := LOG_Y + [Y_DONE.Snapshot()]

  lemma GrantsX()
    ensures Ledger.Prepare(At(LOG_BEGUN, BEGUN), Task("x", "s", 2), Mode.Effect, 0)
            == Answer(At(LOG_X, X_GRANTED), Ok(Proceed))
    ensures Settled(X_GRANTED) && X_GRANTED.reference == REFERENCE
  {
    Begins();
    assert |BEGUN.results| == 1;
    Prepares(LOG_BEGUN, BEGUN, "x", "s", 2, Mode.Effect);
  }

  lemma CompletesX()
    ensures DecideComplete(X_GRANTED, Req("x", "s", 2), PULSE) == Write(Move.Complete(PULSE), AckResult)
    ensures Settled(X_DONE) && X_DONE.reference == REFERENCE && |X_DONE.results| == 2
    ensures X_DONE.results.Keys == {"begin", "x"} && !X_DONE.resources.Unresolved() && !X_DONE.Terminal()
  {
    hide Settled;
    GrantsX();
    MoveKeepsSettled(X_GRANTED, Move.Complete(PULSE));
  }

  /** The result of the pulse stays in memory only. */
  lemma LosesTheResult()
    ensures var a := Ledger.Complete(At(LOG_X, X_GRANTED).(writable := false), Task("x", "s", 2), PULSE);
            a.world == At(LOG_X, X_DONE).(writable := false) && a.reply == Err(LedgerUnavailable)
    ensures Settled(X_DONE) && X_DONE.reference == REFERENCE && |X_DONE.results| == 2
    ensures X_DONE.results.Keys == {"begin", "x"} && !X_DONE.resources.Unresolved() && !X_DONE.Terminal()
  {
    hide DecideComplete, Settled, Ledger.Complete;
    CompletesX();
    TaskIsValid("x", "s", 2);
    CompleteExecutes(At(LOG_X, X_GRANTED).(writable := false), Task("x", "s", 2), PULSE);
  }

  lemma GrantsY()
    ensures DecidePrepare(X_DONE, Req("y", "s", 3), Mode.Business, 0)
            == Write(Grant(Req("y", "s", 3), false), AckProceed)
    ensures Ledger.Prepare(At(LOG_X, X_DONE), Task("y", "s", 3), Mode.Business, 0)
            == Answer(At(LOG_Y, Y_GRANTED), Ok(Proceed))
    ensures Settled(Y_GRANTED) && Y_GRANTED.reference == REFERENCE
  {
    hide Ledger.Prepare, DecidePrepare, Next, Settled;
    LosesTheResult();
    XIsDone();
    YIsNew(X_DONE);
    Prepares(LOG_X, X_DONE, "y", "s", 3, Mode.Business);
  }

  lemma XIsDone()
    ensures X_DONE.last.commandId == "x" && X_DONE.last.sessionId == "s" && X_DONE.last.sequence == 2
    ensures X_DONE.contract == CONTRACT && X_DONE.reference == REFERENCE && !X_DONE.InFlight()
  {
  }

  lemma YIsNew(s: AttemptState)
    requires s.results.Keys == {"begin", "x"} && |s.results| == 2
    requires s.last.commandId == "x" && s.last.sessionId == "s" && s.last.sequence == 2
    requires s.reference == REFERENCE && s.contract == CONTRACT && !s.Terminal() && !s.resources.Unresolved()
    ensures DecidePrepare(s, Req("y", "s", 3), Mode.Business, 0) == Write(Grant(Req("y", "s", 3), false), AckProceed)
  {
  }

  lemma CompletesY()
    ensures var a := Ledger.Complete(At(LOG_Y, Y_GRANTED), Task("y", "s", 3), FRAME);
            a.world == At(LOG_YY, Y_DONE) && a.reply.Ok?
    ensures Settled(Y_DONE) && Y_DONE.reference == REFERENCE
  {
    GrantsY();
    Completes(LOG_Y, Y_GRANTED, "y", "s", 3, FRAME);
  }

  lemma XIsNotOnDisk()
    ensures FoldResults(LOG_X) == map["begin" := StoredResult(BEGUN.last, BEGUN.resources)]
    ensures X_DONE.last.commandId == "x" && !X_DONE.InFlight() && X_DONE.reference == REFERENCE
  {
    assert FoldResults([]) == map[];
    assert [] + [BEGUN.Snapshot()] == LOG_BEGUN;
    FoldAppend([], BEGUN.Snapshot());
    FoldAppend(LOG_BEGUN, X_GRANTED.Snapshot());
  }

  lemma FoldsWithoutX()
    ensures FoldResults(LOG_YY) == map["begin" := StoredResult(BEGUN.last, BEGUN.resources),
                                       "y" := StoredResult(Y_DONE.last, Y_DONE.resources)]
  {
    XIsNotOnDisk();
    FoldAppend(LOG_X, Y_GRANTED.Snapshot());
    FoldAppend(LOG_Y, Y_DONE.Snapshot());
  }

  lemma XLinesAreValid()
    ensures BEGUN.ScalarsValid() && X_GRANTED.ScalarsValid()
  {
  }

  lemma YLinesAreValid()
    ensures Y_GRANTED.ScalarsValid() && Y_DONE.ScalarsValid()
  {
  }

  lemma LinesAreValid()
    ensures Clean(LOG_YY)
  {
    XLinesAreValid();
    YLinesAreValid();
    OneMoreCleanLine([], BEGUN);
    assert [] + [BEGUN.Snapshot()] == LOG_BEGUN;
    OneMoreCleanLine(LOG_BEGUN, X_GRANTED);
    OneMoreCleanLine(LOG_X, Y_GRANTED);
    OneMoreCleanLine(LOG_Y, Y_DONE);
  }

  lemma OneMoreCleanLine(log: Log, s: AttemptState)
    requires (log == [] || Clean(log)) && s.ScalarsValid()
    ensures Clean(log + [s.Snapshot()])
  {
  }

  lemma YIsDone()
    ensures Y_DONE.last.commandId == "y" && Y_DONE.last.outcome == CommandOutcome.Applied
    ensures Y_DONE.last.sessionId == "s" && Y_DONE.contract == CONTRACT && Y_DONE.reference == REFERENCE
    ensures Y_DONE.resources.phase == AttemptPhase.Active && Y_DONE.resources.sideEffect == SideEffectState.Applied
  {
  }

  /** What comes back after a restart knows nothing of "x". */
  lemma ForgetsX()
    ensures var s := Fold(LOG_YY);
            && LoadLast(LOG_YY) == Ok(s)
            && Settled(s) && s.results.Keys == {"begin", "y"} && |s.results| == 2
            && s.last == Y_DONE.last && s.resources == Y_DONE.resources
            && s.reference == REFERENCE && s.contract == CONTRACT
  {
    FoldsWithoutX();
    LinesAreValid();
    YIsDone();
    TwoResultsSettle(Y_DONE, StoredResult(BEGUN.last, BEGUN.resources), FoldResults(LOG_YY));
    CleanIsReadable(LOG_YY);
  }

  lemma TwoResultsSettle(s: AttemptState, begun: StoredResult, f: map<string, StoredResult>)
    requires begun.record.commandId == "begin" && begun.record.outcome != CommandOutcome.Unspecified
    requires s.last.commandId == "y" && s.last.outcome != CommandOutcome.Unspecified
    requires f == map["begin" := begun, "y" := StoredResult(s.last, s.resources)]
    ensures f.Keys == {"begin", "y"} && |f| == 2 && Settled(s.(results := f))
  {
    assert f.Keys == {"begin", "y"};
    assert |f| == |f.Keys|;
  }

  lemma XIsUnknown(s: AttemptState)
    requires s.results.Keys == {"begin", "y"} && |s.results| == 2
    requires s.last.commandId == "y" && s.last.sessionId == "s"
    requires s.reference == REFERENCE && s.contract == CONTRACT && !s.Terminal() && !s.resources.Unresolved()
    ensures DecidePrepare(s, Req("x", "t", 1), Mode.Effect, 0) == Write(Grant(Req("x", "t", 1), true), AckProceed)
  {
  }

  /** A restart over one busy ledger, and then a first command of the new session. */
  lemma PreparesAfterRestart(log: Log, was: AttemptState, id: string, session: string, sequence: nat, mode: Mode)
    requires log != [] && LoadLast(log) == Ok(Fold(log)) && Settled(Fold(log))
    requires Fold(log).reference == REFERENCE && !Fold(log).resources.LocallyReleased() && id != ""
    requires DecidePrepare(Fold(log), Req(id, session, sequence), mode, 0)
             == Write(Grant(Req(id, session, sequence), mode.Effect?), AckProceed)
    ensures Ledger.Prepare(Restarted(At(log, was), [Uuid()]), Task(id, session, sequence), mode, 0).reply == Ok(Proceed)
  {
    hide DecidePrepare, Settled, LoadLast, Execute;
    TaskIsValid(id, session, sequence);
    var w := Restarted(At(log, was), [Uuid()]);
    var read := At(log, Fold(log)).(recovered := true);
    assert LoadActive(w).world == read;
    PrepareIsSound(Fold(log), Req(id, session, sequence), mode, 0);
    ExecuteFacts(read, Fold(log), DecidePrepare(Fold(log), Req(id, session, sequence), mode, 0));
  }

  lemma RegrantsX()
    ensures var w := Restarted(At(LOG_YY, Y_DONE), [Uuid()]);
            Ledger.Prepare(w, Task("x", "t", 1), Mode.Effect, 0).reply == Ok(Proceed)
  {
    ForgetsX();
    YIsDone();
    XIsUnknown(Fold(LOG_YY));
    PreparesAfterRestart(LOG_YY, Y_DONE, "x", "t", 1, Mode.Effect);
  }

  /** The pulse "x" is granted, its result is lost by a failed append, and "y" is granted and completed. */
  function AfterTheLoss(): World {
    var granted := Ledger.Prepare(At(LOG_BEGUN, BEGUN), Task("x", "s", 2), Mode.Effect, 0).world;
    var lost := Ledger.Complete(granted.(writable := false), Task("x", "s", 2), PULSE).world;
    var other := Ledger.Prepare(lost.(writable := true), Task("y", "s", 3), Mode.Business, 0).world;
    Ledger.Complete(other, Task("y", "s", 3), FRAME).world
  }

  /** The executor goes on with another command after the failed append, which is all that `KeepsUp` excludes, and
      the pulse "x" is granted a second time after the next restart. */
  lemma LostAppendGrantsTwice()
    ensures LacksResult(At(LOG_X, X_DONE))
            && RecordsAnother(X_DONE, Call.Prepare(Task("y", "s", 3), Mode.Business, 0))
    ensures Ledger.Prepare(At(LOG_BEGUN, BEGUN), Task("x", "s", 2), Mode.Effect, 0).reply == Ok(Proceed)
    ensures Ledger.Prepare(Restarted(AfterTheLoss(), [Uuid()]), Task("x", "t", 1), Mode.Effect, 0).reply == Ok(Proceed)
  {
    GrantsX();
    LosesTheResult();
    GrantsY();
    CompletesY();
    assert At(LOG_X, X_DONE).(writable := false).(writable := true) == At(LOG_X, X_DONE);
    assert AfterTheLoss() == At(LOG_YY, Y_DONE);
    RegrantsX();
    XIsNotOnDisk();
    TaskIsValid("y", "s", 3);
  }

  // -------------------------------------------------------- other limits

  /** A mark made after a command was settled is in the ledger but not in the stored receipt in memory: after
      a restart the command is answered with the same outcome and a newer receipt. */
  lemma ReceiptsMayBeNewerAfterRestart(s: AttemptState, log: Log, code: ErrorCode, released: bool)
    requires Settled(s) && Mirrors(s, log) && !s.InFlight()
    requires s.results[s.last.commandId].resources.sideEffect != SideEffectState.Uncertain
    ensures var n := Next(s, MarkUncertain(code, released));
            var read := Fold(log + [n.Snapshot()]);
            && s.last.commandId in n.results && s.last.commandId in read.results
            && read.results[s.last.commandId].record == n.results[s.last.commandId].record
            && read.results[s.last.commandId].resources != n.results[s.last.commandId].resources
  {
    var n := Next(s, MarkUncertain(code, released));
    FoldAppend(log, n.Snapshot());
  }

  /** Without a ledger directory the runtime remembers its active attempt only: once that holds nothing any
      more, every other attempt id is accepted, claimed before or not. */
  lemma MemoryClaimsAgain(w: World, task: TaskCommand, contract: Contract, v2: bool)
    requires !w.durable && w.active.Some? && w.active.value.resources.LocallyReleased()
    requires Acceptable(contract, v2)
    requires ValidateTask(task).Ok? && ValidateTask(task).value.reference == contract.reference
    ensures Ledger.Begin(w, task, contract, v2).reply.Ok?
            <==> w.active.value.reference.attemptId != contract.reference.attemptId
    ensures Ledger.Begin(w, task, contract, v2).reply.Err? ==>
              Ledger.Begin(w, task, contract, v2).reply == Err(AttemptTerminal)
  {
  }
}
