/**
 The executor on top of the runs of the ledger: an input that reaches the device is
 one granted side effect, so a command reaches the device at most once.
 */
module ExecutorRuns {
  import opened Outcomes
  import opened AttemptRecord
  import opened Ledger = AttemptLedger
  import opened LedgerMoves
  import opened LedgerWorlds
  import opened LedgerRuns
  import opened LedgerTheorems
  import opened LedgerAnswers
  import opened Execution

  /** Looking a command up and finding nothing changes nothing but what the first read of the ledgers brings. */
  lemma UnknownLeavesTheWorld(w: World, task: TaskCommand)
    requires Ledger.Replay(w, task).reply == Ok(Proceed) && Settles(LoadActive(w).world)
    ensures Ledger.Replay(w, task).world == LoadActive(w).world && LoadActive(w).world.loaded
    ensures LoadActive(w).world.writable == w.writable
  {
    LoadIsLoaded(w);
    if LoadActive(w).world.active.Some? {
      ReplayOnlyGives(LoadActive(w).world.active.value, ValidateTask(task).value);
    }
  }

  ghost predicate Settles(w: World) {
    w.active.Some? ==> Settled(w.active.value)
  }

  lemma ReplayOnlyGives(s: AttemptState, request: Request)
    requires Settled(s)
    ensures var v := DecideReplay(s, request);
            v.Write? ==> v.ack.AckResult? || v.ack.AckConflict?
  {
  }

  lemma HeldIsKnown(w: World, task: TaskCommand)
    requires w.loaded
    ensures Ledger.RequireActive(w, task).world == w
  {
  }

  // ------------------------------------------------------------------ a run

  /** Looking up, asking for the go-ahead and completing, as steps of a ledger run. The append of the completion may
      fail although the one of the go-ahead worked. */
  function InputSteps(task: TaskCommand, now: int, c: Completion, writable: bool, works: bool): seq<Step> {
    [Invoke(Call.Replay(task), writable), Invoke(Call.Prepare(task, Effect, now), writable),
     Invoke(Call.Complete(task, c), works)]
  }

  /** Between two commands of a run, with no result that is in memory only. */
  ghost predicate Ready(sys: Sys) {
    Inv(sys) && sys.pending.None? && !LacksResult(sys.w)
  }

  /** The step of a run that a call is. */
  ghost predicate StepsTo(sys: Sys, call: Call, writable: bool, next: Sys) {
    Permitted(sys, Invoke(call, writable)) && Take(sys, Invoke(call, writable)) == next && Inv(next)
  }

  lemma InvokeStep(sys: Sys, call: Call, writable: bool, a: Answer)
    requires Inv(sys) && Permitted(sys, Invoke(call, writable)) && a == Perform(sys.w.(writable := writable), call)
    ensures StepsTo(sys, call, writable, After(sys, call, a))
  {
    StepKeeps(sys, Invoke(call, writable));
  }

  lemma LookUpStep(sys: Sys, call: Call, a: Answer)
    requires Ready(sys) && call.Replay? && a == Perform(sys.w, call) && a.reply == Ok(Proceed)
    requires SameViews(sys.w, a.world) && (LacksResult(a.world) ==> LacksResult(sys.w))
    ensures StepsTo(sys, call, sys.w.writable, After(sys, call, a)) && Ready(After(sys, call, a))
    ensures After(sys, call, a).granted == sys.granted && After(sys, call, a).w == a.world
  {
    assert sys.w.(writable := sys.w.writable) == sys.w;
    InvokeStep(sys, call, sys.w.writable, a);
  }

  lemma GoAheadStep(sys: Sys, call: Call, a: Answer)
    requires Ready(sys) && call.Prepare? && call.mode.Effect? && a == Perform(sys.w, call) && a.reply == Ok(Proceed)
    ensures var next := After(sys, call, a);
            && StepsTo(sys, call, sys.w.writable, next) && next.pending == Some(Pending(call.task, Effect))
            && next.granted == sys.granted + [IssuedTo(call.task)] && next.w == a.world
  {
    assert sys.w.(writable := sys.w.writable) == sys.w;
    InvokeStep(sys, call, sys.w.writable, a);
  }

  lemma CompletionStep(sys: Sys, call: Call, frame: InputFrame, result: Result<bool>, works: bool, a: Answer)
    requires Inv(sys) && call.Complete? && sys.pending == Some(Pending(call.task, Effect))
    requires call.completion == CommandExecutor.Report(frame, result)
    requires a == Perform(sys.w.(writable := works), call)
    ensures var next := After(sys, call, a);
            StepsTo(sys, call, works, next) && next.pending.None? && next.granted == sys.granted && next.w == a.world
  {
    hide Inv, KeepsUp;
    NothingRecorded(sys.w, call);
    InvokeStep(sys, call, works, a);
  }

  lemma NothingRecorded(w: World, call: Call)
    requires call.Complete?
    ensures KeepsUp(w, call)
  {
  }

  /** The worlds between the steps: what the first one reads is all that can change before the go-ahead. */
  lemma WorldsInBetween(
    w: World, task: TaskCommand, frame: InputFrame, now: int, works: bool, after: World, r: Result<Reply>,
    result: Result<bool>)
    requires Healthy(w) && CommandExecutor.GoneThrough(w, task, frame, now, works, after, r, result)
    ensures var known := Ledger.Replay(w, task);
            var go := Ledger.Prepare(known.world, task, Effect, now);
            && known.reply == Ok(Proceed) && known.world.writable == w.writable
            && SameViews(w, known.world) && (LacksResult(known.world) ==> LacksResult(w))
            && go.reply == Ok(Proceed)
            && Answer(after, r)
               == Ledger.Complete(go.world.(writable := works), task, CommandExecutor.Report(frame, result))
  {
    LoadKeeps(w);
    UnknownLeavesTheWorld(w, task);
    HeldIsKnown(LoadActive(w).world, task);
    ReadingLacksNothing(w);
  }

  lemma ReadingLacksNothing(w: World)
    requires Healthy(w)
    ensures LacksResult(LoadActive(w).world) ==> LacksResult(w)
  {
    LoadKeeps(w);
    if !w.loaded {
      SyncedIsReleasedOnDisk(LoadActive(w).world);
    }
  }

  lemma PerformsWhatItIs(w: World, task: TaskCommand, now: int, c: Completion)
    ensures Perform(w, Call.Replay(task)) == Ledger.Replay(w, task)
    ensures Perform(w, Call.Prepare(task, Effect, now)) == Ledger.Prepare(w, task, Effect, now)
    ensures Perform(w, Call.Complete(task, c)) == Ledger.Complete(w, task, c)
  {
  }

  /** The way of an input that was tried, up to its completion: the run once the go-ahead was given, and how it goes
      on. */
  ghost predicate OnItsWay(
    sys: Sys, granted: Sys, task: TaskCommand, now: int, c: Completion, works: bool, done: Answer)
  {
    var steps := InputSteps(task, now, c, sys.w.writable, works);
    var call := Call.Complete(task, c);
    && Inv(granted) && granted.pending == Some(Pending(task, Effect))
    && Permitted(granted, Invoke(call, works)) && done == Perform(granted.w.(writable := works), call)
    && granted.granted == sys.granted + [IssuedTo(task)]
    && Legal(sys, steps) && Run(sys, steps) == After(granted, call, done) && Inv(Run(sys, steps))
  }

  lemma GoesItsWay(
    sys: Sys, task: TaskCommand, frame: InputFrame, now: int, works: bool, after: World, r: Result<Reply>,
    result: Result<bool>) returns (granted: Sys)
    requires Ready(sys) && CommandExecutor.GoneThrough(sys.w, task, frame, now, works, after, r, result)
    ensures OnItsWay(sys, granted, task, now, CommandExecutor.Report(frame, result), works, Answer(after, r))
  {
    hide Perform, Permitted, Take, IssuedTo, CommandExecutor.Report, CommandExecutor.GoneThrough;
    hide Ledger.Complete, Ledger.Prepare, Ledger.Replay, Healthy, LacksResult, SameViews;
    var c := CommandExecutor.Report(frame, result);
    WorldsInBetween(sys.w, task, frame, now, works, after, r, result);
    var known := Ledger.Replay(sys.w, task);
    var go := Ledger.Prepare(known.world, task, Effect, now);
    PerformsWhatItIs(sys.w, task, now, c);
    PerformsWhatItIs(known.world, task, now, c);
    PerformsWhatItIs(go.world.(writable := works), task, now, c);
    var looked := After(sys, Call.Replay(task), known);
    granted := After(looked, Call.Prepare(task, Effect, now), go);
    LookUpStep(sys, Call.Replay(task), known);
    GoAheadStep(looked, Call.Prepare(task, Effect, now), go);
    CompletionStep(granted, Call.Complete(task, c), frame, result, works, Answer(after, r));
    ThreeSteps(sys, looked, granted, InputSteps(task, now, c, sys.w.writable, works));
  }

  /** An input that was tried is a legal piece of a ledger run, in which exactly this side effect was granted,
      whether or not its result could be recorded; it had never been granted before. */
  lemma InputIsOneGrant(
    sys: Sys, task: TaskCommand, frame: InputFrame, now: int, works: bool, after: World, r: Result<Reply>,
    result: Result<bool>)
    requires Ready(sys) && CommandExecutor.GoneThrough(sys.w, task, frame, now, works, after, r, result)
    ensures var steps := InputSteps(task, now, CommandExecutor.Report(frame, result), sys.w.writable, works);
            && Legal(sys, steps) && Inv(Run(sys, steps))
            && Run(sys, steps).w == after && Run(sys, steps).pending.None?
            && Run(sys, steps).granted == sys.granted + [IssuedTo(task)]
    ensures IssuedTo(task) !in sys.granted
  {
    hide Perform, Permitted, Inv, Legal, Run, CommandExecutor.Report, CommandExecutor.GoneThrough, IssuedTo;
    var granted := GoesItsWay(sys, task, frame, now, works, after, r, result);
    GrantedOnce(granted);
    NewestIsNew(sys.granted, IssuedTo(task));
  }

  lemma GrantedOnce(sys: Sys)
    requires Inv(sys)
    ensures Distinct(sys.granted)
  {
  }

  /** The failures after which an input counts as not applied. */
  predicate MeansNotApplied(code: ErrorCode) {
    || code == GuardianUnavailable || code == LocalInputDetected || code == FrameInvalid
    || code == GenerationStale || code == DeadlineExpired || code == WorkerNotApplied
  }

  /** What the caller is told of an input and what the attempt knows of it is what came of it at the device: applied
      and held exactly if it worked, not applied exactly for those failures, uncertain otherwise. */
  lemma InputIsReported(
    sys: Sys, task: TaskCommand, frame: InputFrame, now: int, works: bool, after: World, r: Result<Reply>,
    result: Result<bool>)
    requires Ready(sys) && CommandExecutor.GoneThrough(sys.w, task, frame, now, works, after, r, result)
    ensures if works
            then r.Ok? && r.value.Answered? && r.value.outcome.Some?
                 && var o := r.value.outcome.value;
                    && Issued(o.attempt.attemptId, o.commandId) == IssuedTo(task) && o.sourceFrame == frame.source
                    && (o.outcome == CommandOutcome.Applied <==> result.Ok?)
                    && (o.outcome == CommandOutcome.NotApplied <==> result.Err? && MeansNotApplied(result.code))
                    && (o.outcome == CommandOutcome.Uncertain <==> result.Err? && !MeansNotApplied(result.code))
                    && o.error == if result.Ok? then None else Some(result.code)
            else r == Err(LedgerUnavailable)
    ensures after.active.Some?
            && var known := after.active.value.resources;
               && (known.input == InputState.Active <==> result == Ok(true))
               && (known.input == InputState.Unknown <==> result.Err? && !MeansNotApplied(result.code))
               && (known.Unresolved() <==> result.Err? && !MeansNotApplied(result.code))
               && (known.sideEffect == SideEffectState.Applied <==> result.Ok?)
  {
    hide Perform, Inv, Legal, Run, CommandExecutor.GoneThrough, KeepsUp, Healthy;
    var c := CommandExecutor.Report(frame, result);
    var granted := GoesItsWay(sys, task, frame, now, works, after, r, result);
    InHandIsSynced(granted);
    EitherWay(granted.w, granted.w.(writable := works));
    PerformsComplete(granted.w.(writable := works), Call.Complete(task, c));
    var record, known :=
      CompletionIsAnswered(granted.w.(writable := works), granted.w.active.value, task, Effect, c);
  }

  /** An input whose outcome is uncertain blocks its attempt for good. A frame that was overtaken between the go-ahead
      and the device is such an input, although it never reached the device. */
  lemma UncertainInputBlocksForEver(
    sys: Sys, task: TaskCommand, frame: InputFrame, now: int, works: bool, after: World, r: Result<Reply>,
    result: Result<bool>, steps: seq<Step>)
    requires Ready(sys) && CommandExecutor.GoneThrough(sys.w, task, frame, now, works, after, r, result)
    requires result.Err? && !MeansNotApplied(result.code)
    requires var first := InputSteps(task, now, CommandExecutor.Report(frame, result), sys.w.writable, works);
             Legal(Run(sys, first), steps)
    ensures var first := InputSteps(task, now, CommandExecutor.Report(frame, result), sys.w.writable, works);
            Stuck(Run(Run(sys, first), steps), IssuedTo(task).attemptId)
    ensures !MeansNotApplied(SourceFrameStale)
  {
    hide Perform, Inv, Legal, Run, CommandExecutor.GoneThrough, KeepsUp, Stuck;
    var c := CommandExecutor.Report(frame, result);
    var granted := GoesItsWay(sys, task, frame, now, works, after, r, result);
    UncertainReportBlocksForEver(granted, Call.Complete(task, c), works, steps);
  }

  /** A failed capture leaves its attempt uncertain exactly when the worker process itself failed or the input could
      not be let go of. */
  lemma FailureIsMarkedExactly(w: World, s: AttemptState, failure: ErrorCode, release: Result<()>)
    requires Healthy(w) && w.loaded && w.active == Some(s)
    ensures var a := Ledger.Impose(w, FailureMark(failure, release));
            var worker := match failure
                          case DeadlineExpired => true
                          case WorkerNotApplied => true
                          case Reported(text) => "worker." <= text || text == "capture.worker_failed"
                          case _ => false;
            && a.world.active.Some?
            && var known := a.world.active.value.resources;
               && known.sideEffect == (if worker || release.Err? then SideEffectState.Uncertain
                                       else s.resources.sideEffect)
               && known.input == (if release.Ok? then InputState.Released else InputState.Unknown)
               && known.error == Some(if release.Err? then release.code else failure)
               && !known.cleanup
  {
    hide FailureMark, WorkerFailed, Ledger.Impose, Healthy;
    MarksAreAnswered(w, s, if release.Err? then release.code else failure, release.Ok?);
    MarksAreChosen(failure, release);
  }

  lemma MarksAreChosen(failure: ErrorCode, release: Result<()>)
    ensures var worker := match failure
                          case DeadlineExpired => true
                          case WorkerNotApplied => true
                          case Reported(text) => "worker." <= text || text == "capture.worker_failed"
                          case _ => false;
            FailureMark(failure, release) ==
            if release.Err? then Move.MarkUncertain(release.code, false)
            else if worker then Move.MarkUncertain(failure, true)
            else Move.MarkReleased(failure)
  {
  }

  lemma NoStepsLeft(sys: Sys, steps: seq<Step>)
    requires steps == []
    ensures Legal(sys, steps) && Run(sys, steps) == sys
  {
  }

  lemma ThreeSteps(sys: Sys, second: Sys, third: Sys, steps: seq<Step>)
    requires |steps| == 3
    requires Permitted(sys, steps[0]) && Take(sys, steps[0]) == second
    requires Permitted(second, steps[1]) && Take(second, steps[1]) == third
    requires Permitted(third, steps[2])
    ensures Legal(sys, steps) && Run(sys, steps) == Take(third, steps[2])
  {
    var two := steps[1..];
    var one := two[1..];
    NoStepsLeft(Take(third, steps[2]), one[1..]);
    assert one[0] == steps[2] && two[0] == steps[1];
    assert Legal(third, one) && Run(third, one) == Take(third, steps[2]);
    assert Legal(second, two) && Run(second, two) == Run(third, one);
  }

  lemma NewestIsNew(granted: seq<Issued>, g: Issued)
    requires Distinct(granted + [g])
    ensures g !in granted
  {
    var all := granted + [g];
    assert forall i :: 0 <= i < |granted| ==> all[i] == granted[i] && all[i] != all[|granted|];
  }
}
