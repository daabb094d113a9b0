/**
 Where everything a ledger says comes from: over whole runs with restarts and failed
 appends, each stored outcome is what one earlier call reported, and nothing counts as
 running or active unless the device layer said so.
 */
module LedgerOrigins {
  import opened Outcomes
  import opened AttemptRecord
  import opened Ledger = AttemptLedger
  import opened LedgerMoves
  import opened LedgerWorlds
  import opened LedgerRuns
  import opened LedgerTheorems
  import opened LedgerChanges
  import opened LedgerAnswers

  // ----------------------------------------------------------------- origins

  /** How a look-up or a limited `prepare` settles a command it finds in flight. */
  predicate IsInterruption(record: CommandRecord, sideEffect: bool) {
    || (record.outcome == CommandOutcome.NotApplied && record.error == Some(CommandInterrupted))
    || (sideEffect && record.outcome == CommandOutcome.Uncertain && record.error == Some(SideEffectUncertain))
  }

  predicate Says(record: CommandRecord, outcome: CommandOutcome, error: Option<ErrorCode>) {
    record.outcome == outcome && record.sourceFrame == None && record.error == error
  }

  /** The call that settled this record: it named the command, with the same payload, and what is stored is what
      such a call reports. */
  ghost predicate Accounts(call: Call, name: string, record: CommandRecord) {
    && (NamesACommand(call) || call.Complete?)
    && IssuedTo(call.task) == Issued(name, record.commandId) && record.digest == call.task.payloadDigest
    && match call
       case Begin(_, _, _) => Says(record, CommandOutcome.Applied, None)
       case Inspect(_) => Says(record, CommandOutcome.Applied, None)
       case Reject(_, code) => Says(record, CommandOutcome.NotApplied, Some(code))
       case Replay(_) => IsInterruption(record, true)
       case Prepare(_, mode, _) => (mode.Effect? || mode.Business?) && IsInterruption(record, mode.Effect?)
       case Complete(_, c) => RecordsCompletion(record, c, true) || RecordsCompletion(record, c, false)
       case _ => false
  }

  ghost predicate HasOrigin(done: seq<Step>, name: string, record: CommandRecord) {
    exists i :: 0 <= i < |done| && done[i].Invoke? && Accounts(done[i].call, name, record)
  }

  /** The step completes a command of this attempt. */
  predicate CompletesFor(step: Step, name: string) {
    step.Invoke? && step.call.Complete? && IssuedTo(step.call.task).attemptId == name
  }

  predicate StartsCapture(step: Step, name: string) {
    CompletesFor(step, name) && step.call.completion == Completion.Capture(true, None)
  }

  /** A lease, or an input frame that was applied and holds something. */
  predicate StartsInput(step: Step, name: string) {
    && CompletesFor(step, name)
    && match step.call.completion
       case InputLease(None) => true
       case InputFrame(_, Applied, true, _) => true
       case _ => false
  }

  ghost predicate ResourcesHaveOrigin(done: seq<Step>, name: string, r: Resources) {
    && (r.capture == CaptureState.Running ==> exists i :: 0 <= i < |done| && StartsCapture(done[i], name))
    && (r.input == InputState.Active ==> exists i :: 0 <= i < |done| && StartsInput(done[i], name))
  }

  ghost predicate StateHasOrigin(done: seq<Step>, name: string, s: AttemptState) {
    && ResourcesHaveOrigin(done, name, s.resources)
    && (forall id :: id in s.results ==> HasOrigin(done, name, s.results[id].record))
  }

  ghost predicate BothHaveOrigin(w: World, done: seq<Step>, name: string) {
    && name in w.files && w.files[name] != []
    && StateHasOrigin(done, name, Fold(w.files[name]))
    && StateHasOrigin(done, name, View(w, name))
  }

  /** What the ledgers say and what is known beyond them. */
  ghost predicate AllHaveOrigin(w: World, done: seq<Step>) {
    forall name :: name in w.files ==> BothHaveOrigin(w, done, name)
  }

  // ---------------------------------------------------------------- one move

  lemma OriginsStay(done: seq<Step>, step: Step, name: string, s: AttemptState)
    requires StateHasOrigin(done, name, s)
    ensures StateHasOrigin(done + [step], name, s)
  {
    var more := done + [step];
    assert forall i :: 0 <= i < |done| ==> more[i] == done[i];
    forall id | id in s.results
      ensures HasOrigin(more, name, s.results[id].record)
    {
      RecordKeepsOrigin(done, step, name, s.results[id].record);
    }
  }

  lemma RecordKeepsOrigin(done: seq<Step>, step: Step, name: string, record: CommandRecord)
    requires HasOrigin(done, name, record)
    ensures HasOrigin(done + [step], name, record)
  {
    var i :| 0 <= i < |done| && done[i].Invoke? && Accounts(done[i].call, name, record);
    assert (done + [step])[i] == done[i];
  }

  lemma SameOutcomesSameOrigin(done: seq<Step>, name: string, a: AttemptState, b: AttemptState)
    requires StateHasOrigin(done, name, a) && SameButReceipts(a, b)
    ensures StateHasOrigin(done, name, b)
  {
    assert a.Snapshot() == b.Snapshot();
    assert a.resources == b.resources;
    forall id | id in b.results
      ensures HasOrigin(done, name, b.results[id].record)
    {
      assert id in a.results && a.results[id].record == b.results[id].record;
    }
  }

  /** A move that settles a command is accounted for by the call that made it. */
  lemma MoveIsAccountedFor(call: Call, s: AttemptState, m: Move, written: bool)
    requires From(call, Moved(s, m, written)) && Settled(s) && Enabled(s, m) && m.Stores()
    ensures Accounts(call, s.reference.attemptId, Next(s, m).last)
  {
    RequestKeepsDigest(call.task);
    if m.Complete? {
      CompletionSays(s, m.completion);
    }
  }

  lemma RequestKeepsDigest(task: TaskCommand)
    ensures ValidateTask(task).Ok? ==> ValidateTask(task).value.digest == task.payloadDigest
  {
  }

  lemma MoveHasOrigin(done: seq<Step>, call: Call, writable: bool, s: AttemptState, m: Move, written: bool)
    requires From(call, Moved(s, m, written)) && Settled(s) && Enabled(s, m)
    requires StateHasOrigin(done, s.reference.attemptId, s)
    ensures StateHasOrigin(done + [Invoke(call, writable)], s.reference.attemptId, Next(s, m))
  {
    hide Enabled, From, HasOrigin, ResourcesHaveOrigin;
    var name, step, n := s.reference.attemptId, Invoke(call, writable), Next(s, m);
    OriginsStay(done, step, name, s);
    MoveKeepsSettled(s, m);
    MovedResourcesHaveOrigin(done, call, writable, s, m, written);
    if m.Stores() {
      MoveIsAccountedFor(call, s, m, written);
      LastHasOrigin(done, step, name, n.last);
    }
  }

  lemma LastHasOrigin(done: seq<Step>, step: Step, name: string, record: CommandRecord)
    requires step.Invoke? && Accounts(step.call, name, record)
    ensures HasOrigin(done + [step], name, record)
  {
    assert (done + [step])[|done|] == step;
  }

  lemma MovedResourcesHaveOrigin(
    done: seq<Step>, call: Call, writable: bool, s: AttemptState, m: Move, written: bool)
    requires From(call, Moved(s, m, written)) && Settled(s) && Enabled(s, m)
    requires ResourcesHaveOrigin(done + [Invoke(call, writable)], s.reference.attemptId, s.resources)
    ensures ResourcesHaveOrigin(done + [Invoke(call, writable)], s.reference.attemptId, Next(s, m).resources)
  {
    var name, step, n := s.reference.attemptId, Invoke(call, writable), Next(s, m);
    var more := done + [step];
    assert more[|done|] == step;
    if m.Complete? {
      CompletionSays(s, m.completion);
      assert CompletesFor(step, name);
      if n.resources.capture == CaptureState.Running && s.resources.capture != CaptureState.Running {
        assert StartsCapture(more[|done|], name);
      }
      if n.resources.input == InputState.Active && s.resources.input != InputState.Active {
        assert StartsInput(more[|done|], name);
      }
    } else {
      OtherMovesStartNothing(s, m);
    }
  }

  lemma OtherMovesStartNothing(s: AttemptState, m: Move)
    requires !m.Complete?
    ensures Next(s, m).resources.capture == CaptureState.Running ==> s.resources.capture == CaptureState.Running
    ensures Next(s, m).resources.input == InputState.Active ==> s.resources.input == InputState.Active
  {
  }

  // ---------------------------------------------------------------- one step

  lemma RestingKeepsOrigin(w: World, w': World, done: seq<Step>, step: Step, name: string)
    requires BothHaveOrigin(w, done, name) && Rests(w, w', name)
    ensures BothHaveOrigin(w', done + [step], name)
  {
    hide StateHasOrigin;
    OriginsStay(done, step, name, Fold(w.files[name]));
    OriginsStay(done, step, name, View(w, name));
  }

  lemma MovedHasOrigin(w: World, w': World, done: seq<Step>, call: Call, writable: bool, ch: Change)
    requires ch.Moved? && BothHaveOrigin(w, done, ch.s.reference.attemptId)
    requires MovedOn(w, w', ch.s, ch.move, ch.written) && From(call, ch)
    ensures BothHaveOrigin(w', done + [Invoke(call, writable)], ch.s.reference.attemptId)
  {
    hide StateHasOrigin, From, Enabled, Settled;
    var s, m, n, step := ch.s, ch.move, Next(ch.s, ch.move), Invoke(call, writable);
    var name := s.reference.attemptId;
    MoveHasOrigin(done, call, writable, s, m, ch.written);
    SameInBothDirections(View(w', name), n);
    SameOutcomesSameOrigin(done + [step], name, n, View(w', name));
    if ch.written {
      AppendKeepsMirror(s, m, w.files[name]);
      MirrorFolds(n, w'.files[name]);
      SameInBothDirections(Fold(w'.files[name]), n);
      SameOutcomesSameOrigin(done + [step], name, n, Fold(w'.files[name]));
    } else {
      OriginsStay(done, step, name, Fold(w.files[name]));
    }
  }

  lemma SameInBothDirections(a: AttemptState, b: AttemptState)
    requires SameButReceipts(a, b) || (a == b.(results := a.results) && SameOutcomes(a.results, b.results))
    ensures SameButReceipts(b, a)
  {
  }

  lemma ClaimedHasOrigin(w: World, w': World, done: seq<Step>, call: Call, writable: bool, ch: Change)
    requires ch.Claimed? && Makes(w, w', ch) && From(call, ch)
    ensures BothHaveOrigin(w', done + [Invoke(call, writable)], ch.request.reference.attemptId)
  {
    hide OthersRest, Fold, StateHasOrigin;
    var name, s, step := ch.request.reference.attemptId, ClaimedState(ch.contract, ch.request), Invoke(call, writable);
    ClaimHasOrigin(done, call, writable, ch);
    ClaimMirrors(ch.contract, ch.request);
    MirrorFolds(s, [s.Snapshot()]);
    SameInBothDirections(View(w', name), s);
    SameInBothDirections(Fold([s.Snapshot()]), s);
    SameOutcomesSameOrigin(done + [step], name, s, View(w', name));
    SameOutcomesSameOrigin(done + [step], name, s, Fold([s.Snapshot()]));
  }

  lemma ClaimHasOrigin(done: seq<Step>, call: Call, writable: bool, ch: Change)
    requires ch.Claimed? && From(call, ch)
    ensures StateHasOrigin(done + [Invoke(call, writable)], ch.request.reference.attemptId,
                           ClaimedState(ch.contract, ch.request))
  {
    hide HasOrigin;
    var s := ClaimedState(ch.contract, ch.request);
    RequestKeepsDigest(call.task);
    assert s.results == map[ch.request.commandId := StoredResult(s.last, s.resources)];
    LastHasOrigin(done, Invoke(call, writable), ch.request.reference.attemptId, s.last);
  }

  lemma ChangeHasOrigin(w: World, w': World, done: seq<Step>, call: Call, writable: bool, ch: Change)
    requires AllHaveOrigin(w, done) && Makes(w, w', ch) && From(call, ch)
    ensures AllHaveOrigin(w', done + [Invoke(call, writable)])
  {
    hide BothHaveOrigin, From, Rests;
    forall name | name in w'.files
      ensures BothHaveOrigin(w', done + [Invoke(call, writable)], name)
    {
      if ch.Moved? && name == ch.s.reference.attemptId {
        MovedHasOrigin(w, w', done, call, writable, ch);
      } else if ch.Claimed? && name == ch.request.reference.attemptId {
        ClaimedHasOrigin(w, w', done, call, writable, ch);
      } else {
        assert Rests(w, w', name);
        RestingKeepsOrigin(w, w', done, Invoke(call, writable), name);
      }
    }
  }

  lemma StepHasOrigin(sys: Sys, done: seq<Step>, step: Step)
    requires Inv(sys) && Permitted(sys, step) && AllHaveOrigin(sys.w, done)
    ensures AllHaveOrigin(Take(sys, step).w, done + [step])
  {
    if step.Invoke? {
      var ch := CallMakes(sys, step.call, step.writable);
      ChangeHasOrigin(sys.w, Take(sys, step).w, done, step.call, step.writable, ch);
    } else {
      QuietStepKeepsOrigin(sys.w, Take(sys, step).w, done, step);
    }
  }

  lemma QuietStepKeepsOrigin(w: World, w': World, done: seq<Step>, step: Step)
    requires AllHaveOrigin(w, done) && w'.files == w.files && (w' == w || w'.active.None?)
    ensures AllHaveOrigin(w', done + [step])
  {
    forall name | name in w'.files
      ensures BothHaveOrigin(w', done + [step], name)
    {
      assert BothHaveOrigin(w, done, name);
      RestingKeepsOrigin(w, w', done, step, name);
    }
  }

  // -------------------------------------------------------------- whole runs

  lemma {:induction false} RunHasOrigin(sys: Sys, done: seq<Step>, steps: seq<Step>)
    requires Inv(sys) && Legal(sys, steps) && AllHaveOrigin(sys.w, done)
    ensures AllHaveOrigin(Run(sys, steps).w, done + steps)
    decreases |steps|
  {
    if steps == [] {
      assert done + steps == done;
    } else {
      StepHasOrigin(sys, done, steps[0]);
      StepKeeps(sys, steps[0]);
      RunHasOrigin(Take(sys, steps[0]), done + [steps[0]], steps[1..]);
      assert done + [steps[0]] + steps[1..] == done + steps;
    }
  }

  lemma RunFromGenesisHasOrigin(steps: seq<Step>)
    requires Legal(GENESIS, steps)
    ensures Inv(Run(GENESIS, steps)) && AllHaveOrigin(Run(GENESIS, steps).w, steps)
  {
    GenesisIsSound();
    RunKeeps(GENESIS, steps);
    RunHasOrigin(GENESIS, [], steps);
    assert [] + steps == steps;
  }

  /** In any run from the empty directory every stored outcome, on disk and in memory, is what one earlier call for
      that very command and payload reported: a claim or an inspection, a refusal with its reason, an interruption,
      or a completion. */
  lemma EveryOutcomeHasItsCause(steps: seq<Step>, name: string, id: string)
    requires Legal(GENESIS, steps) && name in Run(GENESIS, steps).w.files
    ensures var w := Run(GENESIS, steps).w;
            && w.files[name] != []
            && (id in Fold(w.files[name]).results ==>
                  var record := Fold(w.files[name]).results[id].record;
                  record.commandId == id && HasOrigin(steps, name, record))
            && (id in View(w, name).results ==>
                  var record := View(w, name).results[id].record;
                  record.commandId == id && HasOrigin(steps, name, record))
  {
    RunFromGenesisHasOrigin(steps);
    var w := Run(GENESIS, steps).w;
    assert BothHaveOrigin(w, steps, name);
    DiskTrails(w, name);
    KnownIsSettled(w, name);
  }

  lemma KnownIsSettled(w: World, name: string)
    requires Healthy(w) && name in w.files
    ensures w.files[name] != [] && Settled(Fold(w.files[name])) && Settled(View(w, name))
  {
  }

  /** Nothing is ever stored as applied unless the attempt was claimed or inspected by that command, or the device
      layer reported its success. */
  lemma AppliedMeansReported(steps: seq<Step>, name: string, id: string)
    requires Legal(GENESIS, steps) && name in Run(GENESIS, steps).w.files
    requires var w := Run(GENESIS, steps).w;
             w.files[name] != [] && id in View(w, name).results
             && View(w, name).results[id].record.outcome == CommandOutcome.Applied
    ensures exists i :: 0 <= i < |steps| && steps[i].Invoke? && ReportedApplied(steps[i].call, Issued(name, id))
  {
    hide Accounts, ReportedApplied, Inv, Healthy, View, Legal;
    EveryOutcomeHasItsCause(steps, name, id);
    var record := View(Run(GENESIS, steps).w, name).results[id].record;
    var i :| 0 <= i < |steps| && steps[i].Invoke? && Accounts(steps[i].call, name, record);
    AppliedWasReported(steps[i].call, name, record);
  }

  lemma AppliedWasReported(call: Call, name: string, record: CommandRecord)
    requires Accounts(call, name, record) && record.outcome == CommandOutcome.Applied
    ensures ReportedApplied(call, Issued(name, record.commandId))
  {
  }

  predicate ReportedApplied(call: Call, issued: Issued) {
    && (call.Begin? || call.Inspect? || (call.Complete? && ReportsSuccess(call.completion)))
    && IssuedTo(call.task) == issued
  }

  /** A capture counts as running only after the device layer reported its start, and input as active only after it
      reported a lease or an applied frame that holds something. */
  lemma RunningMeansReported(steps: seq<Step>, name: string)
    requires Legal(GENESIS, steps) && name in Run(GENESIS, steps).w.files
    requires Run(GENESIS, steps).w.files[name] != []
    ensures ResourcesHaveOrigin(steps, name, View(Run(GENESIS, steps).w, name).resources)
    ensures ResourcesHaveOrigin(steps, name, Fold(Run(GENESIS, steps).w.files[name]).resources)
  {
    RunFromGenesisHasOrigin(steps);
    assert BothHaveOrigin(Run(GENESIS, steps).w, steps, name);
  }
}
