/** The main results about runs of the attempt ledger. */
module LedgerTheorems {
  import opened Outcomes
  import opened AttemptRecord
  import opened Ledger = AttemptLedger
  import opened LedgerMoves
  import opened LedgerWorlds
  import opened LedgerReplay
  import opened LedgerRuns

  const GENESIS: Sys := Sys(World(true, map[], [], true, None, false, false), None, false, [], [])

  ghost predicate Legal(sys: Sys, steps: seq<Step>)
    decreases |steps|
  {
    steps == [] || (Permitted(sys, steps[0]) && Legal(Take(sys, steps[0]), steps[1..]))
  }

  function Run(sys: Sys, steps: seq<Step>): Sys
    decreases |steps|
  {
    if steps == [] then sys else Run(Take(sys, steps[0]), steps[1..])
  }

  lemma GenesisIsSound()
    ensures Inv(GENESIS)
  {
  }

  // -------------------------------------------------------------- whole runs

  /** Results are never lost, changed or reordered into another outcome, and a terminal attempt stays terminal. */
  ghost predicate KeepsResults(before: map<string, Log>, after: map<string, Log>) {
    forall name :: name in before ==>
      && name in after && before[name] != [] && after[name] != []
      && (Fold(before[name]).Terminal() ==> Fold(after[name]).Terminal())
      && forall id :: id in Fold(before[name]).results ==>
           id in Fold(after[name]).results
           && Fold(after[name]).results[id].record == Fold(before[name]).results[id].record
  }

  lemma {:induction false} RunKeeps(sys: Sys, steps: seq<Step>)
    requires Inv(sys) && Legal(sys, steps)
    ensures Inv(Run(sys, steps)) && KeepsResults(sys.w.files, Run(sys, steps).w.files)
    decreases |steps|
  {
    if steps == [] {
      AllAreWritten(sys.w);
    } else {
      StepKeeps(sys, steps[0]);
      StepKeepsResults(sys.w, Take(sys, steps[0]).w, SettledBy(sys, steps[0]));
      RunKeeps(Take(sys, steps[0]), steps[1..]);
      KeepsResultsTransitive(
        sys.w.files, Take(sys, steps[0]).w.files, Run(Take(sys, steps[0]), steps[1..]).w.files);
    }
  }

  lemma AllAreWritten(w: World)
    requires Healthy(w)
    ensures AllWritten(w.files)
  {
  }

  /** The disk says at most what memory knew before, and what it says next follows that. */
  lemma StepKeepsResults(w: World, w': World, settling: Option<string>)
    requires Healthy(w) && Progress(w, w', settling)
    ensures KeepsResults(w.files, w'.files)
  {
    forall name | name in w.files
      ensures name in w'.files && w.files[name] != [] && w'.files[name] != []
      ensures Follows(Fold(w.files[name]), Fold(w'.files[name]), true)
    {
      assert Goes(w, w', name, settling);
      DiskTrails(w, name);
      DiskFollows(w, w', name, settling);
    }
  }

  lemma DiskFollows(w: World, w': World, name: string, settling: Option<string>)
    requires Goes(w, w', name, settling) && Follows(Fold(w.files[name]), View(w, name), true)
    ensures Follows(Fold(w.files[name]), Fold(w'.files[name]), true)
  {
  }

  lemma KeepsResultsTransitive(a: map<string, Log>, b: map<string, Log>, c: map<string, Log>)
    requires KeepsResults(a, b) && KeepsResults(b, c)
    ensures KeepsResults(a, c)
  {
  }

  /** At most once: over any run, with crashes and failed appends anywhere, no side effect of an attempt is
      granted twice, and each granted one stays on record, in memory and on disk. */
  lemma SideEffectsAreGrantedAtMostOnce(steps: seq<Step>)
    requires Legal(GENESIS, steps)
    ensures var sys := Run(GENESIS, steps);
            && (forall i, j :: 0 <= i < j < |sys.granted| ==> sys.granted[i] != sys.granted[j])
            && (forall g :: g in sys.granted ==> OnRecord(sys.w, g, InHand(sys)))
  {
    GenesisIsSound();
    RunKeeps(GENESIS, steps);
  }

  /** No attempt id is claimed twice, in this process or a later one. */
  lemma AttemptsAreClaimedAtMostOnce(steps: seq<Step>)
    requires Legal(GENESIS, steps)
    ensures var claimed := Run(GENESIS, steps).claimed;
            forall i, j :: 0 <= i < j < |claimed| ==> claimed[i] != claimed[j]
  {
    GenesisIsSound();
    RunKeeps(GENESIS, steps);
  }

  /** At most one ledger still holds local resources, and if memory has been read it is the active one's. */
  lemma LiveWorkIsUnique(steps: seq<Step>, a: string, b: string)
    requires Legal(GENESIS, steps)
    requires var w := Run(GENESIS, steps).w;
             a in w.files && b in w.files && Busy(w.files[a]) && Busy(w.files[b])
    ensures a == b
    ensures var sys := Run(GENESIS, steps);
            sys.w.loaded ==> sys.w.active.Some? && sys.w.active.value.reference.attemptId == a
  {
    GenesisIsSound();
    RunKeeps(GENESIS, steps);
  }

  // ------------------------------------------------------ recovery refines memory

  /** Unless the last append of this process failed, the ledger of the active attempt folds to what memory holds:
      the same scalars, the same command ids and per id the same outcome half. */
  lemma RecoveryRefinesMemory(steps: seq<Step>)
    requires Legal(GENESIS, steps)
    requires var sys := Run(GENESIS, steps); !sys.failed && sys.w.loaded && sys.w.active.Some?
    ensures var w := Run(GENESIS, steps).w;
            var name := w.active.value.reference.attemptId;
            name in w.files && w.files[name] != [] && SameButReceipts(Fold(w.files[name]), w.active.value)
  {
    GenesisIsSound();
    RunKeeps(GENESIS, steps);
    var w := Run(GENESIS, steps).w;
    MirrorFolds(w.active.value, w.files[w.active.value.reference.attemptId]);
  }

  /** After a failed append as well: memory follows what the ledger folds to, and its index is the ledger's, or
      the ledger's and the result of the last command. */
  lemma RecoveryTrailsMemory(steps: seq<Step>)
    requires Legal(GENESIS, steps)
    requires Run(GENESIS, steps).w.loaded && Run(GENESIS, steps).w.active.Some?
    ensures var w := Run(GENESIS, steps).w;
            var s, name := w.active.value, w.active.value.reference.attemptId;
            && name in w.files && w.files[name] != []
            && Follows(Fold(w.files[name]), s, true)
            && (SameOutcomes(FoldResults(w.files[name]), s.results)
                || (s.last.commandId in s.results
                    && SameOutcomes(FoldResults(w.files[name]), s.results - {s.last.commandId})))
  {
    GenesisIsSound();
    RunKeeps(GENESIS, steps);
    var w := Run(GENESIS, steps).w;
    CarriesAllButTheLast(w.active.value, w.files[w.active.value.reference.attemptId]);
  }

  lemma CarriesAllButTheLast(s: AttemptState, log: Log)
    requires Settled(s) && Carries(s, log)
    ensures SameOutcomes(FoldResults(log), s.results)
            || (s.last.commandId in s.results
                && SameOutcomes(FoldResults(log), s.results - {s.last.commandId}))
  {
    SnapshotAddsItsOutcome(s);
    if !SameOutcomes(FoldResults(log), s.results) {
      AllButOne(FoldResults(log), s.last.commandId, StoredResult(s.last, s.resources), s.results);
    }
  }

  function Restarted(w: World, listing: seq<string>): World {
    w.(active := None, loaded := false, recovered := false, listing := listing)
  }

  /** A restart with readable ledgers, listed in any order, brings back the busy attempt as memory had it,
      and nothing when every attempt is idle. */
  lemma RestartRecoversMemory(sys: Sys, listing: seq<string>)
    requires Inv(sys) && !sys.failed && sys.w.loaded
    requires ListsFiles(listing, sys.w.files) && !Unreadable(sys.w.files)
    ensures var read := LoadActive(Restarted(sys.w, listing));
            && read.result.Ok?
            && (sys.w.active.Some? && !sys.w.active.value.resources.LocallyReleased() ==>
                  read.world.active.Some? && SameButReceipts(read.world.active.value, sys.w.active.value))
            && (sys.w.active.None? || sys.w.active.value.resources.LocallyReleased() ==> read.world.active.None?)
  {
    var w := Restarted(sys.w, listing);
    AtMostOneIsBusy(sys.w);
    LoadKeeps(w);
    ScanSucceeds(w, listing);
    var read := LoadActive(w);
    if sys.w.active.Some? {
      var s := sys.w.active.value;
      var name := s.reference.attemptId;
      MirroredLogIsOk(s, w.files[name]);
      MirrorFolds(s, w.files[name]);
      assert name in listing;
    }
    if read.world.active.Some? {
      var r := read.world.active.value;
      MirroredLogIsOk(r, w.files[r.reference.attemptId]);
      RecoveredIsBusy(w, listing);
    }
  }

  /** Whatever the run was and in whatever order the directory is listed: the first read after a restart never
      finds two attempts that hold local resources. */
  lemma NoConflictAfterRestart(steps: seq<Step>, listing: seq<string>)
    requires Legal(GENESIS, steps) && ListsFiles(listing, Run(GENESIS, steps).w.files)
    ensures LoadActive(Restarted(Run(GENESIS, steps).w, listing)).result != Err(LedgerConflict)
  {
    GenesisIsSound();
    RunKeeps(GENESIS, steps);
    NoConflictWhenRead(Run(GENESIS, steps).w, listing);
  }

  lemma NoConflictWhenRead(w: World, listing: seq<string>)
    requires Healthy(w) && ListsFiles(listing, w.files)
    ensures LoadActive(Restarted(w, listing)).result != Err(LedgerConflict)
  {
    AtMostOneIsBusy(w);
    if Scan(Restarted(w, listing), listing).result == Err(LedgerConflict) {
      ScanConflicts(Restarted(w, listing), listing);
    }
  }

  /** Only an attempt that still holds local resources is recovered. */
  lemma {:induction false} RecoveredIsBusy(w: World, names: seq<string>)
    requires w.active.None? || !w.active.value.resources.LocallyReleased()
    ensures var read := Scan(w, names);
            read.world.active.None? || !read.world.active.value.resources.LocallyReleased()
    decreases |names|
  {
    if names != [] && LoadLast(LogOf(w, names[0])).Ok? {
      var s := LoadLast(LogOf(w, names[0])).value;
      if s.resources.LocallyReleased() {
        RecoveredIsBusy(w, names[1..]);
      } else if w.active.None? {
        RecoveredIsBusy(w.(active := Some(s), recovered := true), names[1..]);
      }
    }
  }

  /** A command answered before a crash is answered with the same outcome after it. */
  lemma ReplayAcrossRestart(sys: Sys, listing: seq<string>, task: TaskCommand)
    requires Inv(sys) && !sys.failed && sys.w.loaded && sys.w.active.Some?
    requires !sys.w.active.value.resources.LocallyReleased()
    requires ListsFiles(listing, sys.w.files) && !Unreadable(sys.w.files)
    requires ValidateTask(task).Ok?
    requires var s, request := sys.w.active.value, ValidateTask(task).value;
             && s.reference == request.reference && request.commandId in s.results
             && s.results[request.commandId].record.digest == request.digest
    ensures var s, request := sys.w.active.value, ValidateTask(task).value;
            var a := Ledger.Replay(Restarted(sys.w, listing), task);
            && a.world.files == sys.w.files
            && a.reply.Ok? && a.reply.value.Answered?
            && a.reply.value.outcome == Some(OutcomeOf(s.reference, s.results[request.commandId].record))
  {
    var w := Restarted(sys.w, listing);
    RestartRecoversMemory(sys, listing);
    LoadKeeps(w);
    var read := LoadActive(w).world;
    var r := read.active.value;
    LoadsFirst(w, task);
    assert r.Snapshot() == sys.w.active.value.Snapshot();
    StoredIsAnswered(r, ValidateTask(task).value);
    ReplayIsStable(read, r, task, Mode.Finish, 0, LedgerInvalid);
  }

  lemma LoadsFirst(w: World, task: TaskCommand)
    requires ValidateTask(task).Ok? && LoadActive(w).result.Ok? && LoadActive(w).world.loaded
    ensures Ledger.Replay(w, task) == Ledger.Replay(LoadActive(w).world, task)
  {
  }

  // ------------------------------------------------ unresolved side effects

  /** An attempt whose side effect is unresolved, on disk and in memory, and not in hand. */
  ghost predicate Stuck(sys: Sys, name: string) {
    && name in sys.w.files && sys.w.files[name] != []
    && Fold(sys.w.files[name]).resources.Unresolved()
    && View(sys.w, name).resources.Unresolved()
    && (InHand(sys).Some? ==> InHand(sys).value.attemptId != name)
  }

  lemma StuckBlocks(sys: Sys, call: Call, writable: bool, name: string)
    requires Inv(sys) && Permitted(sys, Invoke(call, writable)) && Stuck(sys, name)
    requires call.Prepare? && Limited(call.mode) && IssuedTo(call.task).attemptId == name
    ensures Perform(sys.w.(writable := writable), call).reply != Ok(Proceed)
  {
    var w := sys.w.(writable := writable);
    PerformsPrepare(w, call);
    UnresolvedIsNotGranted(w, call.task, call.mode, call.now, name);
  }

  lemma UnresolvedIsNotGranted(w: World, task: TaskCommand, mode: Mode, now: int, name: string)
    requires Healthy(w) && Limited(mode) && IssuedTo(task).attemptId == name
    requires name in w.files && w.files[name] != [] && View(w, name).resources.Unresolved()
    ensures Ledger.Prepare(w, task, mode, now).reply != Ok(Proceed)
  {
    if Ledger.Prepare(w, task, mode, now).reply == Ok(Proceed) {
      ProceedMeans(w, task, mode, now);
    }
  }

  lemma HandAfter(sys: Sys, call: Call, a: Answer)
    ensures InHand(After(sys, call, a)).Some? ==>
              && call.Prepare? && call.mode.Effect? && a.reply == Ok(Proceed)
              && InHand(After(sys, call, a)).value == IssuedTo(call.task)
  {
  }

  lemma StuckStep(sys: Sys, step: Step, name: string)
    requires Inv(sys) && Permitted(sys, step) && Stuck(sys, name)
    ensures Stuck(Take(sys, step), name)
  {
    StepKeeps(sys, step);
    if SettledBy(sys, step).Some? {
      SettledIsInHand(sys, step);
    }
    if step.Invoke? {
      StuckInvoke(sys, step.call, step.writable, name, Perform(sys.w.(writable := step.writable), step.call));
    } else {
      StuckThroughProgress(sys, Take(sys, step), None, name);
    }
  }

  lemma StuckInvoke(sys: Sys, call: Call, writable: bool, name: string, a: Answer)
    requires Inv(sys) && Permitted(sys, Invoke(call, writable)) && Stuck(sys, name)
    requires a == Perform(sys.w.(writable := writable), call)
    requires Progress(sys.w, a.world, SettledBy(sys, Invoke(call, writable)))
    requires SettledBy(sys, Invoke(call, writable)) != Some(name)
    ensures Stuck(After(sys, call, a), name)
  {
    HandAfter(sys, call, a);
    if call.Prepare? && call.mode.Effect? && IssuedTo(call.task).attemptId == name {
      StuckBlocks(sys, call, writable, name);
    }
    StuckThroughProgress(sys, After(sys, call, a), SettledBy(sys, Invoke(call, writable)), name);
  }

  lemma StuckThroughProgress(sys: Sys, sys': Sys, settling: Option<string>, name: string)
    requires Stuck(sys, name) && Progress(sys.w, sys'.w, settling)
    requires settling != Some(name)
    requires InHand(sys').Some? ==> InHand(sys').value.attemptId != name
    ensures Stuck(sys', name)
  {
    assert Goes(sys.w, sys'.w, name, settling);
  }

  /** An unresolved side effect stays unresolved for ever, and while it does the attempt is granted no
      business command and no further side effect. */
  lemma {:induction false} UnresolvedSideEffectsAreSticky(sys: Sys, steps: seq<Step>, name: string)
    requires Inv(sys) && Legal(sys, steps) && Stuck(sys, name)
    ensures Stuck(Run(sys, steps), name)
    ensures forall task, mode, now, writable ::
              Limited(mode) && IssuedTo(task).attemptId == name
              && Permitted(Run(sys, steps), Invoke(Call.Prepare(task, mode, now), writable))
              ==> Take(Run(sys, steps), Invoke(Call.Prepare(task, mode, now), writable)).pending.None?
    decreases |steps|
  {
    if steps == [] {
      forall task, mode, now, writable |
        Limited(mode) && IssuedTo(task).attemptId == name
        && Permitted(sys, Invoke(Call.Prepare(task, mode, now), writable))
        ensures Take(sys, Invoke(Call.Prepare(task, mode, now), writable)).pending.None?
      {
        StuckBlocks(sys, Call.Prepare(task, mode, now), writable, name);
      }
    } else {
      StuckStep(sys, steps[0], name);
      StepKeeps(sys, steps[0]);
      UnresolvedSideEffectsAreSticky(Take(sys, steps[0]), steps[1..], name);
    }
  }

  // --------------------------------------------------------------- clean-up

  /** The two calls that end an attempt. */
  predicate Ends(call: Call) {
    (call.Complete? && call.completion.Finish?) || (call.Impose? && call.move.Emergency?)
  }

  /** The attempt that an imposed move or a finish is about, once the ledger has been read. */
  ghost predicate IsAbout(w: World, name: string) {
    var w1 := LoadActive(w).world;
    w1.loaded && w1.active.Some? && w1.active.value.reference.attemptId == name
  }

  predicate ClaimsCleanup(reply: Result<Reply>) {
    reply.Ok? && reply.value.Answered? && reply.value.receipt.resources.cleanup
  }

  /** Whatever happens after a side effect was left unresolved, later calls and restarts included: no finish and
      no emergency finish of that attempt ever reports complete clean-up. */
  lemma UnresolvedIsNeverCleanedUp(sys: Sys, steps: seq<Step>, name: string, call: Call, writable: bool)
    requires Inv(sys) && Legal(sys, steps) && Stuck(sys, name)
    requires Ends(call) && Permitted(Run(sys, steps), Invoke(call, writable))
    requires IsAbout(Run(sys, steps).w.(writable := writable), name)
    ensures !ClaimsCleanup(Perform(Run(sys, steps).w.(writable := writable), call).reply)
  {
    UnresolvedSideEffectsAreSticky(sys, steps, name);
    RunKeeps(sys, steps);
    StuckIsNotCleanedUp(Run(sys, steps), name, call, writable);
  }

  lemma StuckIsNotCleanedUp(sys: Sys, name: string, call: Call, writable: bool)
    requires Inv(sys) && Stuck(sys, name) && Ends(call) && Permitted(sys, Invoke(call, writable))
    requires IsAbout(sys.w.(writable := writable), name)
    ensures !ClaimsCleanup(Perform(sys.w.(writable := writable), call).reply)
  {
    hide Perform, Ledger.Impose, Ledger.Complete, KeepsUp, ClaimsCleanup, GrantsInv, ClaimsInv, Healthy;
    var w := sys.w.(writable := writable);
    EitherWay(sys.w, w);
    if call.Impose? {
      PerformsImpose(w, call);
      StuckEmergency(w, name, call.move);
    } else {
      PerformsComplete(w, call);
      StuckFinish(sys, w, name, call.task, call.completion);
    }
  }

  lemma PerformsImpose(w: World, call: Call)
    requires call.Impose?
    ensures Perform(w, call) == Ledger.Impose(w, call.move)
  {
  }

  lemma StuckEmergency(w: World, name: string, move: Move)
    requires Healthy(w) && move.Emergency? && IsAbout(w, name)
    requires name in w.files && w.files[name] != [] && View(w, name).resources.Unresolved()
    ensures !ClaimsCleanup(Ledger.Impose(w, move).reply)
  {
    hide Execute, Ledger.Impose, LoadActive;
    LoadKeeps(w);
    var read := LoadActive(w).world;
    assert View(read, name) == read.active.value;
    ImposeIsExecuted(w, move);
    EndingIsNoCleanup(read, read.active.value, move, AckReceipt);
  }

  lemma StuckFinish(sys: Sys, w: World, name: string, task: TaskCommand, c: Completion)
    requires Inv(sys) && w == sys.w.(writable := w.writable) && c.Finish?
    requires sys.pending.Some? && task == sys.pending.value.task && Completes(sys.pending.value.mode, c)
    requires w.active.Some? && w.active.value.reference.attemptId == name
    requires name in w.files && w.files[name] != [] && View(w, name).resources.Unresolved()
    ensures !ClaimsCleanup(Ledger.Complete(w, task, c).reply)
  {
    hide Execute, Ledger.Complete;
    CompletionIsEnabled(w.active.value, ValidateTask(task).value, sys.pending.value.mode, c);
    CompleteExecutes(w, task, c);
    EndingIsNoCleanup(w, w.active.value, Move.Complete(c), AckResult);
  }

  lemma EndingIsNoCleanup(w: World, s: AttemptState, m: Move, ack: Ack)
    requires w.durable && w.loaded && w.active == Some(s) && Settled(s) && s.resources.Unresolved()
    requires m.Emergency? || (m.Complete? && m.completion.Finish?)
    requires Sound(s, Write(m, ack)) && (ack.AckReceipt? || ack.AckResult?)
    ensures !ClaimsCleanup(Execute(w, s, Write(m, ack)).reply)
  {
    ExecuteFacts(w, s, Write(m, ack));
  }

  // --------------------------------------------------------- digest conflicts

  predicate NamesACommand(call: Call) {
    call.Begin? || call.Inspect? || call.Replay? || call.Prepare? || call.Reject? || call.ReportConflict?
  }

  /** Which calls compare digests: an inspection only for a stored command, `begin` only for a stored command
      of an attempt that is not terminal and can be read back, the others always. */
  predicate Compares(w: World, s: AttemptState, call: Call)
    requires NamesACommand(call) && ValidateTask(call.task).Ok? && s.reference.attemptId in w.files
  {
    var stored := ValidateTask(call.task).value.commandId in s.results;
    match call
    case Inspect(_) => stored
    case Begin(_, _, _) => stored && !s.Terminal() && LoadLast(w.files[s.reference.attemptId]).Ok?
    case _ => true
  }

  lemma CallMarksExactly(w: World, s: AttemptState, call: Call)
    requires NamesACommand(call) && Holds(w, s, call.task) && OtherDigest(s, ValidateTask(call.task).value)
    requires call.Begin? ==> Acceptable(call.contract, call.v2) && call.contract.reference == s.reference
    ensures MarkedOrFailed(w, Perform(w, call), s) <==> Compares(w, s, call)
  {
    var mode, now, code := if call.Prepare? then call.mode else Mode.Finish,
                           if call.Prepare? then call.now else 0,
                           if call.Reject? then call.code else LedgerInvalid;
    if call.Inspect? {
      InspectMarksExactly(w, s, call.task);
    } else if call.Begin? {
      BeginMarksExactly(w, s, call.task, call.contract, call.v2);
    } else {
      ChangedDigestMarks(w, s, call.task, mode, now, code);
    }
  }

  /** Reusing a command id for another payload blocks the attempt for good, once a call that compares digests
      has put it on disk: whatever happens next, crashes included, the attempt stays uncertain and is granted
      nothing but recovery commands. */
  lemma ChangedDigestBlocksForEver(sys: Sys, call: Call, s: AttemptState, steps: seq<Step>)
    requires Inv(sys) && Permitted(sys, Invoke(call, true)) && NamesACommand(call)
    requires Holds(sys.w, s, call.task) && OtherDigest(s, ValidateTask(call.task).value)
    requires call.Begin? ==> Acceptable(call.contract, call.v2) && call.contract.reference == s.reference
    requires Compares(sys.w, s, call)
    requires Legal(Take(sys, Invoke(call, true)), steps)
    ensures Stuck(Run(Take(sys, Invoke(call, true)), steps), s.reference.attemptId)
  {
    WritableStillHolds(sys.w, s, call.task);
    CallMarksExactly(sys.w.(writable := true), s, call);
    MarkedIsStuck(sys, sys.w.(writable := true), s, call, Perform(sys.w.(writable := true), call));
    StuckRunsOn(sys, Invoke(call, true), steps, s.reference.attemptId);
  }

  lemma WritableStillHolds(w: World, s: AttemptState, task: TaskCommand)
    requires Holds(w, s, task)
    ensures Holds(w.(writable := true), s, task) && Remembers(w.(writable := true), s)
  {
  }

  lemma StuckRunsOn(sys: Sys, step: Step, steps: seq<Step>, name: string)
    requires Inv(sys) && Permitted(sys, step) && Stuck(Take(sys, step), name) && Legal(Take(sys, step), steps)
    ensures Stuck(Run(Take(sys, step), steps), name)
  {
    StepKeeps(sys, step);
    UnresolvedSideEffectsAreSticky(Take(sys, step), steps, name);
  }

  lemma MarkedIsStuck(sys: Sys, w: World, s: AttemptState, call: Call, a: Answer)
    requires w.loaded && Remembers(w, s) && Marked(w, a, s)
    ensures Stuck(After(sys, call, a), s.reference.attemptId)
  {
    var n := Next(s, DigestConflict);
    var name := s.reference.attemptId;
    var log := w.files[name] + [n.Snapshot()];
    HandAfter(sys, call, a);
    assert a.world.files[name] == log;
    AppendKeepsMirror(s, DigestConflict, w.files[name]);
    MirrorFolds(n, log);
  }
}
