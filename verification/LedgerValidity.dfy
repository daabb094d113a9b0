/**
 Which ledgers can be read back. A line that disagrees with the clean-up formula
 makes its ledger unreadable, and an unreadable ledger stops the runtime after the
 next restart; this is exactly when the code writes one.
 */
module LedgerValidity {
  import opened Outcomes
  import opened AttemptRecord
  import opened Ledger = AttemptLedger
  import opened LedgerMoves
  import opened LedgerWorlds
  import opened LedgerRuns
  import opened LedgerChanges
  import opened LedgerTheorems

  // -------------------------------------------------------------- one move

  /** Terminal, quiet and resolved: only the input state decides whether everything is cleaned up. */
  predicate OnlyInputOpen(r: Resources) {
    r.phase == AttemptPhase.Terminal && r.QuietCaptureAndTarget() && !r.Unresolved()
  }

  /** The condition a caller can check before a move: a release on an attempt that is otherwise cleaned up
      must not change the input state, `mark_input_released` must not be applied there at all, and an
      adopted target must belong to the contract's profile. */
  predicate Agrees(s: AttemptState, m: Move) {
    match m
    case Complete(Release(_, released)) =>
      OnlyInputOpen(s.resources) ==> released == (s.resources.input == InputState.Released)
    case MarkReleased(_) => !OnlyInputOpen(s.resources)
    case Complete(TargetStart(binding, _)) => binding.Some? ==> binding.value.profileId == s.contract.profileId
    case _ => true
  }

  /** A recorded request carries a command id and a digest, as `ValidateTask` demands. */
  predicate WellNamed(m: Move) {
    match m
    case Observe(request) => request.commandId != "" && IsDigest(request.digest)
    case Refuse(request, _) => request.commandId != "" && IsDigest(request.digest)
    case Grant(request, _) => request.commandId != "" && IsDigest(request.digest)
    case _ => true
  }

  /** What the runtime itself checks before a move. */
  predicate Guarded(s: AttemptState, m: Move) {
    match m
    case Grant(_, sideEffect) => sideEffect ==> !s.Terminal()
    case Complete(c) => !c.Release? && !c.Finish? ==> !s.Terminal()
    case Refresh(binding) => s.ownedTarget.Some? && binding.profileId == s.ownedTarget.value.profileId
    case _ => true
  }

  lemma ValidExactlyWhenAgreed(s: AttemptState, m: Move)
    requires s.ScalarsValid() && Guarded(s, m) && WellNamed(m)
    ensures Next(s, m).ScalarsValid() <==> Agrees(s, m)
  {
    if m.Complete? {
      CompletionValidExactly(s, m.completion);
    } else {
      OtherMovesValidExactly(s, m);
    }
  }

  lemma CompletionValidExactly(s: AttemptState, c: Completion)
    requires s.ScalarsValid() && Guarded(s, Move.Complete(c))
    ensures Next(s, Move.Complete(c)).ScalarsValid() <==> Agrees(s, Move.Complete(c))
  {
  }

  lemma OtherMovesValidExactly(s: AttemptState, m: Move)
    requires s.ScalarsValid() && !m.Complete? && Guarded(s, m) && WellNamed(m)
    ensures Next(s, m).ScalarsValid() <==> Agrees(s, m)
  {
  }

  /** A claim can be read back unless a version-3 contract came in the version-1 message, which drops the
      terms such a contract must have. */
  lemma ClaimValidExactly(contract: Contract, v2: bool, request: Request)
    requires Acceptable(contract, v2) && request.reference == contract.reference
    requires request.commandId != "" && IsDigest(request.digest)
    ensures ClaimedState(StoredContract(contract, v2), request).ScalarsValid()
            <==> v2 || contract.reference.contractVersion == 1
  {
  }

  // -------------------------------------------------------------- one ledger

  /** Every line of the ledger would pass the reader's checks as the last one. */
  ghost predicate Clean(log: Log) {
    log != [] && forall i :: 0 <= i < |log| ==> log[i].ScalarsValid() && log[i].results == map[]
  }

  lemma {:induction false} CleanLinesFoldValid(log: Log)
    requires forall i :: 0 <= i < |log| ==> log[i].ScalarsValid() && log[i].results == map[]
    ensures forall id :: id in FoldResults(log) ==> FoldResults(log)[id].Valid()
  {
    if log != [] {
      var line := log[|log| - 1];
      CleanLinesFoldValid(log[..|log| - 1]);
      assert forall id :: id in LineResults(line) ==> LineResults(line)[id] == StoredResult(line.last, line.resources);
    }
  }

  lemma CleanIsReadable(log: Log)
    requires Clean(log) && Settled(Fold(log))
    ensures LoadLast(log) == Ok(Fold(log))
  {
    CleanLinesFoldValid(log);
    assert Fold(log).ScalarsValid();
  }

  lemma DirtyIsUnreadable(log: Log, line: AttemptState)
    requires !line.ScalarsValid()
    ensures LoadLast(log + [line]).Err?
  {
    FoldAppend(log, line);
  }

  /** One more line keeps the ledger readable exactly when the move agrees. */
  lemma MoveIsReadableExactly(s: AttemptState, m: Move, log: Log)
    requires Settled(s) && Carries(s, log) && Clean(log) && s.ScalarsValid()
    requires Enabled(s, m) && Guarded(s, m) && WellNamed(m) && (Unsaved(s, log) ==> !m.Records())
    ensures var after := log + [Next(s, m).Snapshot()];
            && (LoadLast(after).Ok? <==> Agrees(s, m))
            && (Agrees(s, m) ==> Clean(after))
  {
    ValidExactlyWhenAgreed(s, m);
    MoveKeepsSettled(s, m);
    AppendKeepsMirror(s, m, log);
    LineIsReadableExactly(log, Next(s, m));
  }

  lemma LineIsReadableExactly(log: Log, n: AttemptState)
    requires Clean(log) && Settled(n) && Mirrors(n, log + [n.Snapshot()])
    ensures LoadLast(log + [n.Snapshot()]).Ok? <==> n.ScalarsValid()
    ensures n.ScalarsValid() ==> Clean(log + [n.Snapshot()])
  {
    hide Fold, Mirrors, LoadLast, Settled, Clean;
    SnapshotKeepsScalars(n);
    if n.ScalarsValid() {
      FoldIsTheSnapshot(n, log + [n.Snapshot()]);
      CleanGrows(log, n);
      CleanIsReadable(log + [n.Snapshot()]);
    } else {
      DirtyIsUnreadable(log, n.Snapshot());
    }
  }

  lemma SnapshotKeepsScalars(n: AttemptState)
    ensures n.ScalarsValid() == n.Snapshot().ScalarsValid()
  {
  }

  lemma CleanGrows(log: Log, n: AttemptState)
    requires Clean(log) && n.Snapshot().ScalarsValid()
    ensures Clean(log + [n.Snapshot()])
  {
  }

  // ---------------------------------------------------------------- one call

  ghost predicate AllClean(files: map<string, Log>) {
    forall name :: name in files ==> Clean(files[name])
  }

  predicate ViewIsClean(w: World, name: string) {
    name in w.files && w.files[name] != [] && View(w, name).ScalarsValid()
  }

  /** Every ledger can be read back, and so could everything that is in memory only. */
  ghost predicate WorldIsClean(w: World) {
    && AllClean(w.files)
    && forall name {:trigger ViewIsClean(w, name)} :: name in w.files ==> ViewIsClean(w, name)
  }

  lemma FromIsGuarded(call: Call, s: AttemptState, m: Move, written: bool)
    requires From(call, Moved(s, m, written))
    ensures Guarded(s, m) && WellNamed(m)
  {
  }

  ghost predicate Agreed(ch: Change) {
    match ch
    case Nothing => true
    case Moved(s, m, _) => Agrees(s, m)
    case Claimed(contract, _) => contract.Verified()
  }

  lemma SameScalarsValid(a: AttemptState, b: AttemptState)
    requires SameButReceipts(a, b)
    ensures a.ScalarsValid() == b.ScalarsValid()
  {
    SnapshotKeepsScalars(a);
    SnapshotKeepsScalars(b);
  }

  lemma RestingStaysClean(w: World, w': World, name: string)
    requires Rests(w, w', name) && ViewIsClean(w, name) && Clean(w.files[name])
    ensures ViewIsClean(w', name)
  {
    assert Fold(w.files[name]).ScalarsValid();
  }

  /** All ledgers but the changed one stay clean. */
  lemma OthersStayClean(w: World, w': World, changed: Option<string>)
    requires WorldIsClean(w) && OthersRest(w, w', changed)
    requires changed.Some? && changed.value in w'.files ==> ViewIsClean(w', changed.value)
    requires forall name :: name in w'.files ==> name in w.files || changed == Some(name)
    ensures forall name :: name in w'.files ==> ViewIsClean(w', name)
  {
    forall name | name in w'.files
      ensures ViewIsClean(w', name)
    {
      if changed != Some(name) {
        assert Rests(w, w', name) && ViewIsClean(w, name);
        RestingStaysClean(w, w', name);
      }
    }
  }

  lemma ChangeIsReadableExactly(w: World, w': World, call: Call, ch: Change)
    requires WorldIsClean(w) && Makes(w, w', ch) && From(call, ch)
    ensures Agreed(ch) ==> WorldIsClean(w')
    ensures !Agreed(ch) && ch.Written() ==> Unreadable(w'.files)
    ensures !ch.Written() ==> w'.files == w.files
  {
    match ch
    case Nothing => OthersStayClean(w, w', None);
    case Claimed(contract, request) => ClaimedIsReadableExactly(w, w', contract, request);
    case Moved(s, m, written) =>
      FromIsGuarded(call, s, m, written);
      MovedIsReadableExactly(w, w', s, m, written);
  }

  lemma ClaimedIsReadableExactly(w: World, w': World, contract: Contract, request: Request)
    requires WorldIsClean(w) && Makes(w, w', Change.Claimed(contract, request))
    requires request.reference == contract.reference && request.commandId != "" && IsDigest(request.digest)
    ensures contract.Verified() ==> WorldIsClean(w')
    ensures !contract.Verified() ==> Unreadable(w'.files)
  {
    var name, s := request.reference.attemptId, ClaimedState(contract, request);
    ClaimIsReadableExactly(contract, request);
    StoringOneLog(w.files, name, [s.Snapshot()]);
    if contract.Verified() {
      SameScalarsValid(View(w', name), s);
      OthersRestBut(w, w', name);
      OthersStayClean(w, w', Some(name));
    }
  }

  lemma OthersRestBut(w: World, w': World, name: string)
    requires OthersRest(w, w', None)
    ensures OthersRest(w, w', Some(name))
  {
  }

  lemma MovedIsReadableExactly(w: World, w': World, s: AttemptState, m: Move, written: bool)
    requires WorldIsClean(w) && Makes(w, w', Moved(s, m, written)) && Guarded(s, m) && WellNamed(m)
    ensures Agrees(s, m) ==> WorldIsClean(w')
    ensures !Agrees(s, m) && written ==> Unreadable(w'.files)
  {
    var name, n := s.reference.attemptId, Next(s, m);
    var log := w.files[name];
    assert ViewIsClean(w, name);
    ValidExactlyWhenAgreed(s, m);
    MoveIsReadableExactly(s, m, log);
    StoringOneLog(w.files, name, log + [n.Snapshot()]);
    SameScalarsValid(View(w', name), n);
    if Agrees(s, m) {
      OthersStayClean(w, w', Some(name));
    }
  }

  lemma StoringOneLog(files: map<string, Log>, name: string, log: Log)
    requires AllClean(files)
    ensures Clean(log) ==> AllClean(files[name := log])
    ensures LoadLast(log).Err? ==> Unreadable(files[name := log])
  {
    assert files[name := log][name] == log;
  }

  lemma ClaimIsReadableExactly(contract: Contract, request: Request)
    requires request.reference == contract.reference && request.commandId != "" && IsDigest(request.digest)
    ensures contract.Verified() ==> Clean([ClaimedState(contract, request).Snapshot()])
    ensures !contract.Verified() ==> LoadLast([ClaimedState(contract, request).Snapshot()]).Err?
  {
    var line := ClaimedState(contract, request).Snapshot();
    assert [] + [line] == [line];
    if !contract.Verified() {
      DirtyIsUnreadable([], line);
    }
  }

  lemma CleanIsAllReadable(w: World)
    requires DiskOk(w) && AllClean(w.files)
    ensures !Unreadable(w.files)
  {
    forall name | name in w.files
      ensures LoadLast(w.files[name]).Ok?
    {
      CleanIsReadable(w.files[name]);
    }
  }

  /** A call of the executor leaves every ledger readable exactly when the change it makes agrees, or does not
      reach the disk. */
  lemma CallIsReadableExactly(sys: Sys, call: Call, writable: bool) returns (ch: Change)
    requires Inv(sys) && Permitted(sys, Invoke(call, writable)) && WorldIsClean(sys.w)
    ensures Makes(sys.w, Take(sys, Invoke(call, writable)).w, ch) && From(call, ch)
    ensures ch.Moved? && (call.Complete? || call.Impose?) ==> Subject(sys.w.(writable := writable)) == Some(ch.s)
    ensures !Unreadable(Take(sys, Invoke(call, writable)).w.files) <==> Agreed(ch) || !ch.Written()
    ensures Agreed(ch) ==> WorldIsClean(Take(sys, Invoke(call, writable)).w)
  {
    ch := CallMakes(sys, call, writable);
    var after := Take(sys, Invoke(call, writable)).w;
    ChangeIsReadableExactly(sys.w, after, call, ch);
    StepKeeps(sys, Invoke(call, writable));
    if Agreed(ch) || !ch.Written() {
      CleanIsAllReadable(after);
    }
  }

  // -------------------------------------------------------------- whole runs

  /** What a caller can check before a call. */
  predicate Careful(w: World, call: Call) {
    match call
    case Begin(_, contract, v2) => v2 || contract.reference.contractVersion == 1
    case Complete(_, c) => Subject(w).Some? ==> Agrees(Subject(w).value, Move.Complete(c))
    case Impose(m) => Subject(w).Some? ==> Agrees(Subject(w).value, m)
    case _ => true
  }

  /** The check decides: a careful call agrees, and a careless one does not unless it writes nothing or only
      marks a digest conflict. */
  lemma CarefulExactly(w: World, call: Call, ch: Change)
    requires From(call, ch)
    requires ch.Moved? && (call.Complete? || call.Impose?) ==> Subject(w) == Some(ch.s)
    ensures Careful(w, call) ==> Agreed(ch)
    ensures !Careful(w, call) ==> ch.Nothing? || (ch.Moved? && ch.move == DigestConflict) || !Agreed(ch)
  {
  }

  ghost predicate AllCareful(sys: Sys, steps: seq<Step>)
    decreases |steps|
  {
    steps == []
    || ((steps[0].Invoke? ==> Careful(sys.w.(writable := steps[0].writable), steps[0].call))
        && AllCareful(Take(sys, steps[0]), steps[1..]))
  }

  lemma CarefulStepStaysClean(sys: Sys, step: Step)
    requires Inv(sys) && Permitted(sys, step) && WorldIsClean(sys.w)
    requires step.Invoke? ==> Careful(sys.w.(writable := step.writable), step.call)
    ensures WorldIsClean(Take(sys, step).w)
  {
    match step
    case Invoke(call, writable) =>
      var ch := CallIsReadableExactly(sys, call, writable);
      CarefulExactly(sys.w.(writable := writable), call, ch);
    case Restart(listing) => RestartIsClean(sys.w, Take(sys, step).w);
    case Abandon =>
  }

  lemma RestartIsClean(w: World, w': World)
    requires WorldIsClean(w) && w'.files == w.files && w'.active.None?
    ensures WorldIsClean(w')
  {
    forall name | name in w'.files
      ensures ViewIsClean(w', name)
    {
      assert Fold(w.files[name]).ScalarsValid();
    }
  }

  lemma {:induction false} CarefulRunsStayClean(sys: Sys, steps: seq<Step>)
    requires Inv(sys) && Legal(sys, steps) && WorldIsClean(sys.w) && AllCareful(sys, steps)
    ensures WorldIsClean(Run(sys, steps).w)
    decreases |steps|
  {
    if steps != [] {
      CarefulStepStaysClean(sys, steps[0]);
      StepKeeps(sys, steps[0]);
      CarefulRunsStayClean(Take(sys, steps[0]), steps[1..]);
    }
  }

  /** Ledgers written by careful calls can always be read back: after any run, whatever order the directory
      is listed in, reading them never reports an invalid ledger or a conflict between two of them. */
  lemma CarefulRunsReload(steps: seq<Step>, listing: seq<string>)
    requires Legal(GENESIS, steps) && AllCareful(GENESIS, steps)
    requires ListsFiles(listing, Run(GENESIS, steps).w.files)
    ensures var w := Run(GENESIS, steps).w;
            && (forall name :: name in w.files ==> LoadLast(w.files[name]).Ok?)
            && LoadActive(Restarted(w, listing)).result.Ok?
  {
    GenesisIsSound();
    RunKeeps(GENESIS, steps);
    CarefulRunsStayClean(GENESIS, steps);
    var w := Run(GENESIS, steps).w;
    CleanIsAllReadable(w);
    LoadKeeps(Restarted(w, listing));
  }

  // ------------------------------------------------------ unreadable ledgers

  /** The runtime has restarted over an unreadable ledger. */
  ghost predicate Down(sys: Sys) {
    !sys.w.loaded && Unreadable(sys.w.files)
  }

  lemma UnreadableStopsTheScan(w: World)
    requires DiskOk(w) && !w.loaded && Unreadable(w.files)
    ensures LoadActive(w).result.Err?
    ensures LoadActive(w).world == w.(active := LoadActive(w).world.active, recovered := LoadActive(w).world.recovered)
  {
    ScanFrame(w, w.listing);
    if LoadActive(w).result.Ok? {
      ScanSucceeds(w, w.listing);
    }
  }

  /** Nothing is written and nothing is read. */
  ghost predicate Fails(w: World, a: Answer) {
    a.reply.Err? && a.world.files == w.files && !a.world.loaded
  }

  lemma CallsFail(w: World, call: Call)
    requires !call.Complete? && !w.loaded && LoadActive(w).result.Err?
    requires LoadActive(w).world == w.(active := LoadActive(w).world.active, recovered := LoadActive(w).world.recovered)
    ensures Fails(w, Perform(w, call))
  {
    match call
    case Begin(task, contract, v2) => BeginFacts(w, task, contract, v2);
    case RefreshTarget(_, _) =>
    case Impose(_) =>
    case IsActive =>
    case _ => EnterFails(w, call);
  }

  lemma EnterFails(w: World, call: Call)
    requires call.Inspect? || call.Replay? || call.ReportConflict? || call.Reject? || call.Prepare?
    requires Enter(w, call.task).request.Err?
    ensures Perform(w, call) == Answer(Enter(w, call.task).world, Err(Enter(w, call.task).request.code))
  {
  }

  lemma DownStep(sys: Sys, step: Step)
    requires Inv(sys) && Permitted(sys, step) && Down(sys)
    ensures Down(Take(sys, step)) && Take(sys, step).w.files == sys.w.files
    ensures step.Invoke? ==> Perform(sys.w.(writable := step.writable), step.call).reply.Err?
  {
    if step.Invoke? {
      var w := sys.w.(writable := step.writable);
      UnreadableStopsTheScan(w);
      CallsFail(w, step.call);
    }
  }

  /** One unreadable ledger stops the runtime for good: from the next restart on every call fails, whatever
      attempt it names, and no restart helps. */
  lemma {:induction false} UnreadableLedgerStopsEverything(sys: Sys, steps: seq<Step>)
    requires Inv(sys) && Legal(sys, steps) && Down(sys)
    ensures Down(Run(sys, steps)) && Run(sys, steps).w.files == sys.w.files
    ensures forall call, writable ::
              Permitted(Run(sys, steps), Invoke(call, writable)) ==>
                Perform(Run(sys, steps).w.(writable := writable), call).reply.Err?
    decreases |steps|
  {
    if steps == [] {
      forall call, writable | Permitted(sys, Invoke(call, writable))
        ensures Perform(sys.w.(writable := writable), call).reply.Err?
      {
        DownStep(sys, Invoke(call, writable));
      }
    } else {
      DownStep(sys, steps[0]);
      StepKeeps(sys, steps[0]);
      UnreadableLedgerStopsEverything(Take(sys, steps[0]), steps[1..]);
    }
  }
}
