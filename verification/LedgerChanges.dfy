/**
 Every call makes one change at most, to one attempt: the claim of a new one, or one
 enabled move of what is known of it, which reaches its ledger as one line unless the
 append fails. Which moves a call can make is what validity and capacity rest on.
 */
module LedgerChanges {
  import opened Outcomes
  import opened AttemptRecord
  import opened Ledger = AttemptLedger
  import opened LedgerMoves
  import opened LedgerWorlds
  import opened LedgerRuns

  /** `written` is false for a move that stays in memory because its append failed. */
  datatype Change =
    | Nothing
    | Moved(s: AttemptState, move: Move, written: bool)
    | Claimed(contract: Contract, request: Request)
  {
    predicate Written() {
      Claimed? || (Moved? && written)
    }
  }

  /** Nothing new is known of the attempt; memory may have dropped what was not on disk. */
  ghost predicate Rests(w: World, w': World, name: string) {
    && name in w.files && name in w'.files && w.files[name] != [] && w'.files[name] == w.files[name]
    && (View(w', name) == View(w, name) || View(w', name) == Fold(w.files[name]))
  }

  ghost predicate OthersRest(w: World, w': World, name: Option<string>) {
    forall other {:trigger Rests(w, w', other)} :: other in w.files && name != Some(other) ==> Rests(w, w', other)
  }

  /** The move goes on from what is known of the attempt, and what is known afterwards is its outcome. */
  ghost predicate MovedOn(w: World, w': World, s: AttemptState, m: Move, written: bool) {
    var name, n := s.reference.attemptId, Next(s, m);
    && name in w.files && w.files[name] != [] && View(w, name) == s
    && Settled(s) && Enabled(s, m)
    && Carries(s, w.files[name]) && (Unsaved(s, w.files[name]) ==> !m.Records())
    && w'.files == (if written then w.files[name := w.files[name] + [n.Snapshot()]] else w.files)
    && SameButReceipts(View(w', name), n)
  }

  ghost predicate Makes(w: World, w': World, ch: Change) {
    match ch
    case Nothing => w'.files == w.files && OthersRest(w, w', None)
    case Moved(s, m, written) =>
      MovedOn(w, w', s, m, written) && OthersRest(w, w', Some(s.reference.attemptId))
    case Claimed(contract, request) =>
      var name, s := request.reference.attemptId, ClaimedState(contract, request);
      && name !in w.files
      && w'.files == w.files[name := [s.Snapshot()]]
      && SameButReceipts(View(w', name), s)
      && OthersRest(w, w', None)
  }

  /** The requests a move may record, and the room it needs. */
  ghost predicate Records(m: Move, task: TaskCommand, room: bool) {
    ValidateTask(task).Ok? && room &&
    match m
    case Observe(request) => request == ValidateTask(task).value
    case Refuse(request, _) => request == ValidateTask(task).value
    case Grant(request, _) => request == ValidateTask(task).value
    case _ => true
  }

  /** The command belongs to this attempt. */
  ghost predicate BelongsTo(task: TaskCommand, s: AttemptState) {
    ValidateTask(task).Ok? && ValidateTask(task).value.reference == s.reference
  }

  /** The command is the last one of this attempt, with the same payload. */
  ghost predicate IsLastOf(task: TaskCommand, s: AttemptState) {
    && BelongsTo(task, s)
    && ValidateTask(task).value.commandId == s.last.commandId && ValidateTask(task).value.digest == s.last.digest
  }

  /** Which change a call can make. */
  ghost predicate From(call: Call, ch: Change) {
    match ch
    case Nothing => true
    case Claimed(contract, request) =>
      && call.Begin?
      && ValidateTask(call.task) == Ok(request)
      && Acceptable(call.contract, call.v2) && contract == StoredContract(call.contract, call.v2)
      && request.reference == call.contract.reference
    case Moved(s, m, _) =>
      match call
      case Begin(_, _, _) => m == DigestConflict
      case Inspect(task) =>
        m == DigestConflict
        || (m.Observe? && BelongsTo(task, s) && Records(m, task, |s.results| < MAX_BUSINESS + MAX_INSPECT))
      case Replay(task) => m == DigestConflict || (m == Interrupt(true) && IsLastOf(task, s))
      case ReportConflict(_) => m == DigestConflict
      case Reject(task, code) =>
        m == DigestConflict
        || (m.Refuse? && m.code == code && BelongsTo(task, s) && Records(m, task, |s.results| < MAX_BUSINESS))
      case Prepare(task, mode, _) =>
        m == DigestConflict
        || (m == Interrupt(mode.Effect?) && Limited(mode) && IsLastOf(task, s))
        || (m.Grant? && m.sideEffect == mode.Effect? && Records(m, task, |s.results| < mode.Limit())
            && (Limited(mode) ==> !s.Terminal()))
      case Complete(task, c) => m == Move.Complete(c) && KeepsTerminal(s, m) && IsLastOf(task, s)
      case RefreshTarget(reference, binding) =>
        && m == Refresh(binding) && s.ownedTarget.Some?
        && s.ownedTarget.value.(windowHandle := binding.windowHandle) == binding
      case Impose(move) => m == move && Imposable(m)
      case IsActive => false
  }

  /** The attempt a completion or an imposed move changes. */
  function Subject(w: World): Option<AttemptState> {
    if LoadActive(w).result.Ok? then LoadActive(w).world.active else None
  }

  // ------------------------------------------------------------- each verdict

  /** An emergency finish works on a copy, so nothing of it stays when the append fails. */
  function ChangeOf(w: World, s: AttemptState, v: Verdict): Change {
    if v.Write? && (w.writable || !v.move.Emergency?) then Moved(s, v.move, w.writable) else Nothing
  }

  lemma ExecuteMakes(w: World, s: AttemptState, v: Verdict)
    requires Healthy(w) && w.loaded && w.active == Some(s) && Sound(s, v)
    requires LacksResult(w) ==> !v.Records()
    ensures Makes(w, Execute(w, s, v).world, ChangeOf(w, s, v))
  {
    ExecuteFacts(w, s, v);
    if ChangeOf(w, s, v).Moved? {
      MoveKeepsSettled(s, v.move);
      ExecutedMoves(w, Execute(w, s, v).world, s, v.move);
    } else {
      SameViewsRest(w, w);
    }
  }

  lemma ExecutedMoves(w: World, w': World, s: AttemptState, m: Move)
    requires Healthy(w) && w.loaded && w.active == Some(s) && Enabled(s, m)
    requires LacksResult(w) ==> !m.Records()
    requires Next(s, m).reference == s.reference
    requires w' == (if w.writable then Append(w, Next(s, m)) else w).(active := Some(Next(s, m)))
    ensures Makes(w, w', Moved(s, m, w.writable))
  {
    ExecutedMovesOn(w, w', s, m);
    OtherLedgersRest(w, w', s.reference.attemptId);
  }

  lemma ExecutedMovesOn(w: World, w': World, s: AttemptState, m: Move)
    requires Healthy(w) && w.loaded && w.active == Some(s) && Enabled(s, m)
    requires LacksResult(w) ==> !m.Records()
    requires Next(s, m).reference == s.reference
    requires w' == (if w.writable then Append(w, Next(s, m)) else w).(active := Some(Next(s, m)))
    ensures MovedOn(w, w', s, m, w.writable)
  {
    hide Next, Follows, OthersIdle, Fold, Enabled;
    var name := s.reference.attemptId;
    assert LogOf(w, name) == w.files[name];
    assert View(w', name) == Next(s, m);
  }

  lemma OtherLedgersRest(w: World, w': World, name: string)
    requires AllWritten(w.files)
    requires w'.files == w.files || (name in w'.files && w'.files == w.files[name := w'.files[name]])
    requires w'.active.Some? ==> w'.active.value.reference.attemptId == name
    ensures OthersRest(w, w', Some(name)) && (name !in w.files ==> OthersRest(w, w', None))
  {
    forall other | other in w.files && other != name
      ensures Rests(w, w', other)
    {
      OtherLedgerRests(w, w', other);
    }
  }

  lemma OtherLedgerRests(w: World, w': World, name: string)
    requires name in w.files && name in w'.files && w.files[name] != [] && w'.files[name] == w.files[name]
    requires w'.active.Some? ==> w'.active.value.reference.attemptId != name
    ensures Rests(w, w', name)
  {
  }

  lemma SameViewsRest(w: World, w': World)
    requires AllWritten(w.files) && SameViews(w, w')
    ensures Makes(w, w', Nothing)
  {
    forall other | other in w.files
      ensures Rests(w, w', other)
    {
      assert View(w', other) == View(w, other);
    }
  }

  lemma MakesAfterReading(w: World, w1: World, w2: World, ch: Change)
    requires SameViews(w, w1) && Makes(w1, w2, ch)
    ensures Makes(w, w2, ch)
  {
    forall other | other in w.files && Rests(w1, w2, other)
      ensures Rests(w, w2, other)
    {
      assert View(w1, other) == View(w, other);
    }
    if ch.Moved? {
      assert View(w1, ch.s.reference.attemptId) == View(w, ch.s.reference.attemptId);
    }
  }

  lemma PrepareFrom(s: AttemptState, task: TaskCommand, mode: Mode, now: int)
    requires Settled(s) && ValidateTask(task).Ok?
    ensures var v := DecidePrepare(s, ValidateTask(task).value, mode, now);
            v.Write? ==> From(Call.Prepare(task, mode, now), Moved(s, v.move, true))
  {
  }

  lemma RejectFrom(s: AttemptState, task: TaskCommand, code: ErrorCode)
    requires Settled(s) && ValidateTask(task).Ok?
    ensures var v := DecideReject(s, ValidateTask(task).value, code);
            v.Write? ==> From(Call.Reject(task, code), Moved(s, v.move, true))
  {
  }

  lemma ReplayFrom(s: AttemptState, task: TaskCommand)
    requires Settled(s) && ValidateTask(task).Ok?
    ensures var v := DecideReplay(s, ValidateTask(task).value);
            v.Write? ==> From(Call.Replay(task), Moved(s, v.move, true))
  {
  }

  lemma InspectFrom(s: AttemptState, task: TaskCommand)
    requires Settled(s) && ValidateTask(task).Ok?
    ensures var v := DecideInspect(s, ValidateTask(task).value);
            v.Write? ==> From(Call.Inspect(task), Moved(s, v.move, true))
    ensures var request := ValidateTask(task).value;
            s.reference == request.reference
            && request.commandId !in s.results && RecordCommand(s, request, MAX_BUSINESS + MAX_INSPECT).Ok?
            ==> From(Call.Inspect(task), Moved(s, Observe(request), true))
  {
  }

  lemma RefreshFrom(s: AttemptState, call: Call)
    requires call.RefreshTarget?
    ensures var v := DecideRefresh(s, call.reference, call.binding);
            v.Write? ==> From(call, Moved(s, v.move, true))
  {
  }

  lemma WrittenOrNot(call: Call, s: AttemptState, m: Move, written: bool)
    ensures From(call, Moved(s, m, written)) == From(call, Moved(s, m, true))
  {
  }

  // ---------------------------------------------------------------- each call

  /** A call that names the active attempt makes the change it decides on. */
  lemma EnteredMakes(w: World, w1: World, call: Call, v: Verdict) returns (ch: Change)
    requires Healthy(w1) && w1.loaded && w1.active.Some? && SameViews(w, w1)
    requires LacksResult(w1) ==> !v.Records()
    requires Sound(w1.active.value, v) && (v.Write? ==> From(call, Moved(w1.active.value, v.move, true)))
    ensures Makes(w, Execute(w1, w1.active.value, v).world, ch) && From(call, ch)
    ensures ch.Moved? ==> w1.active == Some(ch.s)
  {
    var s := w1.active.value;
    ch := ChangeOf(w1, s, v);
    ExecuteMakes(w1, s, v);
    MakesAfterReading(w, w1, Execute(w1, s, v).world, ch);
    if ch.Moved? {
      WrittenOrNot(call, s, v.move, ch.written);
    }
  }

  lemma ReplayMakes(w: World, call: Call) returns (ch: Change)
    requires Healthy(w) && (call.Replay? || call.ReportConflict?)
    ensures Makes(w, Perform(w, call).world, ch) && From(call, ch)
  {
    hide Execute, DecideReplay, DecideConflict, Enter, Makes, Sound;
    EnterKeeps(w, call.task);
    var e := Enter(w, call.task);
    ch := Nothing;
    if e.request.Ok? && e.world.active.Some? {
      var s := e.world.active.value;
      var v := if call.Replay? then DecideReplay(s, e.request.value) else DecideConflict(s, e.request.value);
      ReplayIsSound(s, e.request.value);
      ConflictIsSound(s, e.request.value);
      ReplayFrom(s, call.task);
      assert Perform(w, call) == Execute(e.world, s, v);
      ch := EnteredMakes(w, e.world, call, v);
    } else {
      SameViewsRest(w, e.world);
    }
  }

  lemma RejectMakes(w: World, call: Call) returns (ch: Change)
    requires Healthy(w) && call.Reject? && KeepsUp(w, call)
    ensures Makes(w, Perform(w, call).world, ch) && From(call, ch)
  {
    hide Execute, DecideReject, Enter, Makes, Sound;
    EnterKeeps(w, call.task);
    var e := Enter(w, call.task);
    ch := Nothing;
    if e.request.Ok? && e.world.active.Some? {
      var s := e.world.active.value;
      var v := DecideReject(s, e.request.value, call.code);
      RejectIsSound(s, e.request.value, call.code);
      RejectFrom(s, call.task, call.code);
      assert Perform(w, call) == Execute(e.world, s, v);
      ch := EnteredMakes(w, e.world, call, v);
    } else {
      SameViewsRest(w, e.world);
    }
  }

  lemma PrepareMakes(w: World, call: Call) returns (ch: Change)
    requires Healthy(w) && call.Prepare? && KeepsUp(w, call)
    ensures Makes(w, Perform(w, call).world, ch) && From(call, ch)
  {
    hide Execute, DecidePrepare, Enter, Makes, Sound;
    EnterKeeps(w, call.task);
    var e := Enter(w, call.task);
    ch := Nothing;
    if e.request.Ok? && e.world.active.Some? {
      var s := e.world.active.value;
      var v := DecidePrepare(s, e.request.value, call.mode, call.now);
      PrepareIsSound(s, e.request.value, call.mode, call.now);
      PrepareFrom(s, call.task, call.mode, call.now);
      assert Perform(w, call) == Execute(e.world, s, v);
      ch := EnteredMakes(w, e.world, call, v);
    } else {
      SameViewsRest(w, e.world);
    }
  }

  lemma InspectMakes(w: World, call: Call) returns (ch: Change)
    requires Healthy(w) && call.Inspect? && KeepsUp(w, call)
    ensures Makes(w, Perform(w, call).world, ch) && From(call, ch)
  {
    EnterKeeps(w, call.task);
    var e := Enter(w, call.task);
    ch := Nothing;
    if e.request.Err? {
      SameViewsRest(w, e.world);
    } else if e.world.active.None? {
      ch := InspectNamedMakes(w, e.world, call, e.request.value);
    } else {
      var s := e.world.active.value;
      InspectIsSound(s, e.request.value);
      InspectFrom(s, call.task);
      ch := EnteredMakes(w, e.world, call, DecideInspect(s, e.request.value));
    }
  }

  lemma InspectNamedMakes(w: World, w1: World, call: Call, request: Request) returns (ch: Change)
    requires Healthy(w1) && w1.loaded && w1.active.None? && SameViews(w, w1)
    requires call.Inspect? && ValidateTask(call.task) == Ok(request)
    ensures Makes(w, InspectNamed(w1, request).world, ch) && From(call, ch)
  {
    InspectNamedFacts(w1, request);
    NamedIsFold(w1, request.reference.attemptId);
    var name := request.reference.attemptId;
    ch := Nothing;
    if InspectNamed(w1, request).world == w1 {
      SameViewsRest(w, w1);
    } else {
      var s := Fold(w1.files[name]);
      var w2 := w1.(active := Some(s));
      AdoptKeeps(w1, name);
      if request.commandId in s.results {
        ConflictIsSound(s, request);
        ch := EnteredMakes(w, w2, call, DecideConflict(s, request));
      } else {
        InspectIsSound(s, request);
        InspectFrom(s, call.task);
        ch := ObserveNamedMakes(w2, s, call, request);
        MakesAfterReading(w, w1, InspectNamed(w1, request).world, ch);
      }
    }
  }

  lemma ObserveNamedMakes(w: World, s: AttemptState, call: Call, request: Request) returns (ch: Change)
    requires Healthy(w) && w.loaded && w.active == Some(s) && s == Fold(w.files[s.reference.attemptId])
    requires !LacksResult(w)
    requires Enabled(s, Observe(request)) && From(call, Moved(s, Observe(request), true))
    ensures Makes(w.(active := None), ObserveNamed(w.(active := None), Next(s, Observe(request))).world, ch)
    ensures From(call, ch)
  {
    var n := Next(s, Observe(request));
    var w0 := w.(active := None);
    ObserveNamedFacts(w0, n);
    ch := if w.writable then Moved(s, Observe(request), true) else Nothing;
    if w.writable {
      ObservedMoves(w, Append(w0, n), s, request);
    } else {
      SameViewsRest(w0, w0);
    }
  }

  lemma ObservedMoves(w: World, w': World, s: AttemptState, request: Request)
    requires Healthy(w) && w.loaded && w.active == Some(s) && s == Fold(w.files[s.reference.attemptId])
    requires !LacksResult(w) && Enabled(s, Observe(request))
    requires w' == Append(w.(active := None), Next(s, Observe(request)))
    ensures Makes(w.(active := None), w', Moved(s, Observe(request), true))
  {
    var n := Next(s, Observe(request));
    var name := s.reference.attemptId;
    var log := w.files[name];
    MoveKeepsSettled(s, Observe(request));
    AppendKeepsMirror(s, Observe(request), log);
    MirrorFolds(n, log + [n.Snapshot()]);
    assert w'.files == w.files[name := log + [n.Snapshot()]];
    OtherLedgersRest(w.(active := None), w', name);
  }

  lemma RefreshMakes(w: World, call: Call) returns (ch: Change)
    requires Healthy(w) && call.RefreshTarget?
    ensures Makes(w, Perform(w, call).world, ch) && From(call, ch)
  {
    hide Execute, LoadActive, DecideRefresh, Makes, Sound;
    LoadKeeps(w);
    var read := LoadActive(w);
    ch := Nothing;
    if read.result.Ok? && read.world.active.Some? {
      var s := read.world.active.value;
      RefreshIsSound(s, call.reference, call.binding);
      RefreshFrom(s, call);
      assert Perform(w, call) == Execute(read.world, s, DecideRefresh(s, call.reference, call.binding));
      ch := EnteredMakes(w, read.world, call, DecideRefresh(s, call.reference, call.binding));
    } else {
      SameViewsRest(w, read.world);
    }
  }

  lemma ImposeMakes(w: World, call: Call) returns (ch: Change)
    requires Healthy(w) && call.Impose? && Imposable(call.move)
    ensures Makes(w, Perform(w, call).world, ch) && From(call, ch)
    ensures ch.Moved? ==> Subject(w) == Some(ch.s)
  {
    hide Execute, LoadActive, Ledger.Impose, Makes, Sound;
    LoadKeeps(w);
    ImposeIsExecuted(w, call.move);
    var read := LoadActive(w);
    ch := Nothing;
    if read.result.Ok? && read.world.active.Some? {
      ch := EnteredMakes(w, read.world, call, Write(call.move, AckReceipt));
    } else {
      SameViewsRest(w, read.world);
    }
  }

  lemma BeginMakes(w: World, call: Call) returns (ch: Change)
    requires Healthy(w) && call.Begin? && ReleasedOnDisk(w)
    ensures Makes(w, Perform(w, call).world, ch) && From(call, ch)
  {
    LoadKeeps(w);
    var read := LoadActive(w).world;
    var a := Perform(w, call);
    BeginFacts(w, call.task, call.contract, call.v2);
    ch := Nothing;
    if a.world == w {
      SameViewsRest(w, w);
    } else if a.world == read {
      SameViewsRest(w, read);
    } else {
      var request := ValidateTask(call.task).value;
      assert Acceptable(call.contract, call.v2) && request.reference == call.contract.reference;
      SyncedIsReleasedOnDisk(read);
      ch := ClaimMakes(read, call, request);
      MakesAfterReading(w, read, a.world, ch);
    }
  }

  lemma ClaimMakes(w: World, call: Call, request: Request) returns (ch: Change)
    requires Healthy(w) && w.loaded && ReleasedOnDisk(w)
    requires call.Begin? && ValidateTask(call.task) == Ok(request)
    requires Acceptable(call.contract, call.v2) && request.reference == call.contract.reference
    ensures Makes(w, Claim(w, request, StoredContract(call.contract, call.v2)).world, ch)
    ensures From(call, ch)
  {
    hide Execute, DecideBegin, ClaimFresh, LoadNamed, Makes, Sound, Claim;
    var contract := StoredContract(call.contract, call.v2);
    var named := LoadNamed(w, request.reference.attemptId);
    ClaimFacts(w, request, contract);
    if ReusesTerminal(w.active, request.reference) || named.Err? || ReusesTerminal(named.value, request.reference) {
      ch := Nothing;
      SameViewsRest(w, w);
    } else if w.active.Some? && !w.active.value.resources.LocallyReleased() {
      BeginIsSound(w.active.value, request);
      BeginAgainMarks(w.active.value, request);
      ch := EnteredMakes(w, w, call, DecideBegin(w.active.value, request));
    } else {
      ClaimStartsALedger(w, request);
      ch := ClaimFreshMakes(w, request, contract);
    }
  }

  lemma ClaimFreshMakes(w: World, request: Request, contract: Contract) returns (ch: Change)
    requires Healthy(w) && w.loaded && request.reference.attemptId !in w.files
    ensures Makes(w, ClaimFresh(w, request, contract).world, ch)
    ensures ch == if w.writable then Change.Claimed(contract, request) else Nothing
  {
    var name, s := request.reference.attemptId, ClaimedState(contract, request);
    var w' := ClaimFresh(w, request, contract).world;
    ClaimFreshFacts(w, request, contract);
    assert LogOf(w, name) + [s.Snapshot()] == [s.Snapshot()];
    OtherLedgersRest(w, w', name);
    ch := if w.writable then Change.Claimed(contract, request) else Nothing;
  }

  lemma BeginAgainMarks(s: AttemptState, request: Request)
    ensures DecideBegin(s, request).Write? ==> DecideBegin(s, request).move == DigestConflict
  {
  }

  lemma CompleteMakes(w: World, call: Call, mode: Mode) returns (ch: Change)
    requires Healthy(w) && w.loaded && w.active.Some? && call.Complete? && ValidateTask(call.task).Ok?
    requires Awaits(w.active.value, ValidateTask(call.task).value, mode) && Completes(mode, call.completion)
    ensures Makes(w, Perform(w, call).world, ch) && From(call, ch)
    ensures ch.Moved? ==> Subject(w) == Some(ch.s)
  {
    var s := w.active.value;
    var v := Write(Move.Complete(call.completion), AckResult);
    CompletionIsEnabled(s, ValidateTask(call.task).value, mode, call.completion);
    CompleteExecutes(w, call.task, call.completion);
    ExecuteMakes(w, s, v);
    ch := ChangeOf(w, s, v);
  }

  lemma CallMakesHere(w: World, pending: Option<Pending>, call: Call) returns (ch: Change)
    requires Healthy(w) && KeepsUp(w, call) && (call.Impose? ==> Imposable(call.move))
    requires call.Complete? ==>
               && w.loaded && w.active.Some? && ValidateTask(call.task).Ok? && pending.Some?
               && Awaits(w.active.value, ValidateTask(call.task).value, pending.value.mode)
               && Completes(pending.value.mode, call.completion)
    ensures Makes(w, Perform(w, call).world, ch) && From(call, ch)
    ensures ch.Moved? && (call.Complete? || call.Impose?) ==> Subject(w) == Some(ch.s)
  {
    match call
    case Begin(_, _, _) => ch := BeginMakes(w, call);
    case Inspect(_) => ch := InspectMakes(w, call);
    case Replay(_) => ch := ReplayMakes(w, call);
    case ReportConflict(_) => ch := ReplayMakes(w, call);
    case Reject(_, _) => ch := RejectMakes(w, call);
    case Prepare(_, _, _) => ch := PrepareMakes(w, call);
    case Complete(_, _) => ch := CompleteMakes(w, call, pending.value.mode);
    case RefreshTarget(_, _) => ch := RefreshMakes(w, call);
    case Impose(_) => ch := ImposeMakes(w, call);
    case IsActive => LoadKeeps(w); SameViewsRest(w, LoadActive(w).world); ch := Nothing;
  }

  lemma PermittedEitherWay(sys: Sys, call: Call, w: World)
    requires Inv(sys) && Permitted(sys, Invoke(call, w.writable)) && w == sys.w.(writable := w.writable)
    ensures Healthy(w) && SameViews(sys.w, w) && KeepsUp(w, call) && (call.Impose? ==> Imposable(call.move))
    ensures call.Complete? ==>
              && w.loaded && w.active.Some? && ValidateTask(call.task).Ok? && sys.pending.Some?
              && Awaits(w.active.value, ValidateTask(call.task).value, sys.pending.value.mode)
              && Completes(sys.pending.value.mode, call.completion)
  {
    hide Awaits, GrantsInv, ClaimsInv;
    EitherWay(sys.w, w);
  }

  /** Every call the executor may make changes one attempt at most, by one move or a claim, and by no other
      than its own kind of call can make; the move reaches the ledger as one line or stays in memory. */
  lemma CallMakes(sys: Sys, call: Call, writable: bool) returns (ch: Change)
    requires Inv(sys) && Permitted(sys, Invoke(call, writable))
    ensures Makes(sys.w, Take(sys, Invoke(call, writable)).w, ch) && From(call, ch)
    ensures ch.Moved? && (call.Complete? || call.Impose?) ==> Subject(sys.w.(writable := writable)) == Some(ch.s)
  {
    hide Perform, Makes, From, LoadActive, Healthy, SameViews, KeepsUp, Awaits, Inv, Completes;
    var w := sys.w.(writable := writable);
    PermittedEitherWay(sys, call, w);
    ch := CallMakesHere(w, sys.pending, call);
    MakesAfterReading(sys.w, w, Perform(w, call).world, ch);
  }
}
