/**
 The persisted snapshot of one task attempt, the command reference that drives
 it, and the changes ("moves") the runtime may make to a snapshot.
 */
module AttemptRecord {
  import opened Outcomes

  const MAX_BUSINESS: nat := 98_304
  const MAX_INSPECT: nat := 8
  const MAX_RELEASE: nat := 4
  const MAX_FINISH: nat := 4
  const MAX_RESULTS: nat := MAX_BUSINESS + MAX_INSPECT + MAX_RELEASE + MAX_FINISH

  // ---------------------------------------------------------------- requests

  datatype AttemptRef = AttemptRef(
    taskRunId: string, attemptId: string, contractVersion: nat, contractDigest: string)

  datatype Session = Session(sessionId: string, generation: nat)

  datatype CommandRef = CommandRef(session: Option<Session>, commandId: string, sequence: nat)

  datatype TaskCommand = TaskCommand(
    attempt: Option<AttemptRef>, command: Option<CommandRef>, payloadDigest: string)

  /** A task command that passed `ValidateTask`. */
  datatype Request = Request(
    reference: AttemptRef, commandId: string, sequence: nat,
    sessionId: string, generation: nat, digest: string)

  predicate IsLowerHex(c: char) {
    '0' <= c <= '9' || 'a' <= c <= 'f'
  }

  predicate IsDigest(s: string) {
    |s| == 64 && forall i :: 0 <= i < |s| ==> IsLowerHex(s[i])
  }

  predicate IsUuid(s: string) {
    |s| == 36 && forall i :: 0 <= i < |s| ==> if i in {8, 13, 18, 23} then s[i] == '-' else IsLowerHex(s[i])
  }

  lemma HexIsExact(c: char)
    ensures IsLowerHex(c) <==> c in "0123456789abcdef"
  {
    var digits := "0123456789abcdef";
    if '0' <= c <= '9' {
      assert digits[c as int - '0' as int] == c;
    } else if 'a' <= c <= 'f' {
      assert digits[c as int - 'a' as int + 10] == c;
    }
  }

  /** Lower-case hexadecimal digits, with dashes at the given places. */
  predicate IsHexText(s: string, length: nat, dashes: set<nat>) {
    |s| == length
    && forall i :: 0 <= i < |s| ==> if i in dashes then s[i] == '-' else s[i] in "0123456789abcdef"
  }

  lemma HexTextIsExact(s: string)
    ensures IsDigest(s) <==> IsHexText(s, 64, {})
    ensures IsUuid(s) <==> IsHexText(s, 36, {8, 13, 18, 23})
  {
    forall i | 0 <= i < |s|
      ensures IsLowerHex(s[i]) <==> s[i] in "0123456789abcdef"
    {
      HexIsExact(s[i]);
    }
  }

  /** Everything a command must carry: a session, an id, a payload digest, and an attempt with its contract. */
  predicate WellFormed(task: TaskCommand) {
    && task.attempt.Some? && task.command.Some? && task.command.value.session.Some?
    && task.command.value.commandId != ""
    && IsHexText(task.payloadDigest, 64, {})
    && IsHexText(task.attempt.value.taskRunId, 36, {8, 13, 18, 23})
    && IsHexText(task.attempt.value.attemptId, 36, {8, 13, 18, 23})
    && task.attempt.value.contractVersion in {1, 3} && IsHexText(task.attempt.value.contractDigest, 64, {})
  }

  /** The command a request was made from: nothing is lost or swapped on the way. */
  function TaskOf(r: Request): TaskCommand {
    TaskCommand(Some(r.reference),
                Some(CommandRef(Some(Session(r.sessionId, r.generation)), r.commandId, r.sequence)), r.digest)
  }

  function ValidateTask(task: TaskCommand): (r: Result<Request>)
    ensures r.Err? ==> r.code == ReferenceInvalid
    ensures r.Ok? ==> r.value.commandId != "" && IsDigest(r.value.digest)
  {
    match (task.attempt, task.command)
    case (Some(reference), Some(command)) =>
      if command.session.None?
         || command.commandId == ""
         || !IsDigest(task.payloadDigest)
         || !IsUuid(reference.taskRunId)
         || !IsUuid(reference.attemptId)
         || reference.contractVersion !in {1, 3}
         || !IsDigest(reference.contractDigest)
      then Err(ReferenceInvalid)
      else Ok(Request(reference, command.commandId, command.sequence,
                      command.session.value.sessionId, command.session.value.generation,
                      task.payloadDigest))
    case _ => Err(ReferenceInvalid)
  }

  /** A command is accepted exactly when it carries everything it must, and is then kept whole. */
  lemma ValidationIsExact(task: TaskCommand)
    ensures ValidateTask(task).Ok? <==> WellFormed(task)
    ensures ValidateTask(task).Ok? ==> TaskOf(ValidateTask(task).value) == task
  {
    match (task.attempt, task.command)
    case (Some(reference), Some(command)) =>
      HexTextIsExact(task.payloadDigest);
      HexTextIsExact(reference.taskRunId);
      HexTextIsExact(reference.attemptId);
      HexTextIsExact(reference.contractDigest);
      if command.session.Some? {
        assert command.session.value == Session(command.session.value.sessionId, command.session.value.generation);
      }
    case _ =>
  }

  // --------------------------------------------------------------- contracts

  /** `sealed` stands for every check that reads only text fixed when the
      contract was written: identifier formats, the clean-up policy and the
      SHA-256 digest of the canonical form for its version. */
  datatype Contract = Contract(
    reference: AttemptRef, profileId: string, deadline: int, maxInputLease: nat,
    capabilities: seq<nat>, sealed: bool)
  {
    predicate Verified() {
      if reference.contractVersion == 1
      then sealed
      else reference.contractVersion == 3 && sealed && deadline > 0 && maxInputLease > 0 && capabilities != []
    }

    /** The check made on a contract that arrives in the version-1 message. */
    predicate StoredVerified() {
      reference.contractVersion in {1, 3} && sealed
    }

    /** The version-1 message has no deadline, lease or capability fields. */
    function WithoutV3Terms(): Contract {
      this.(deadline := 0, maxInputLease := 0, capabilities := [])
    }
  }

  // ---------------------------------------------------------------- snapshot

  datatype AttemptPhase = Unspecified | NotFound | Claimed | TargetReady | Active | Stopping | Terminal
  datatype CommandOutcome = Unspecified | Applied | NotApplied | Uncertain
  datatype SideEffectState = Unspecified | Clear | IntentRecorded | Applied | NotApplied | Uncertain
  datatype InputState = Unspecified | Released | Active | Unknown
  datatype CaptureState = Unspecified | NotStarted | Running | Stopped | Unknown
  datatype TargetState = Unspecified | NotStarted | Running | Closed | Unknown

  datatype TargetBinding = TargetBinding(
    profileId: string, profileVersion: string, processId: nat, startedAt: nat,
    pathSha256: string, windowHandle: nat)

  /** The `last_command_*` fields, which are also the outcome half of a stored result. */
  datatype CommandRecord = CommandRecord(
    commandId: string, sequence: nat, generation: nat, sessionId: string, digest: string,
    outcome: CommandOutcome, sourceFrame: Option<nat>, error: Option<ErrorCode>)

  /** The attempt-wide fields, which are also the receipt half of a stored result. */
  datatype Resources = Resources(
    phase: AttemptPhase, sideEffect: SideEffectState, lastSideEffectId: string,
    input: InputState, capture: CaptureState, target: TargetState,
    cleanup: bool, error: Option<ErrorCode>)
  {
    predicate Unresolved() {
      sideEffect == SideEffectState.IntentRecorded || sideEffect == SideEffectState.Uncertain
    }

    predicate LocallyReleased() {
      && phase == AttemptPhase.Terminal
      && input == InputState.Released
      && QuietCaptureAndTarget()
    }

    predicate QuietCaptureAndTarget() {
      && capture in {CaptureState.NotStarted, CaptureState.Stopped}
      && target in {TargetState.NotStarted, TargetState.Running, TargetState.Closed}
    }

    /** The value `cleanup_complete` must have in a ledger that can be read back. */
    predicate CleanupFormula() {
      LocallyReleased() && !Unresolved()
    }

    predicate Valid() {
      && phase != AttemptPhase.Unspecified
      && sideEffect != SideEffectState.Unspecified
      && input != InputState.Unspecified
      && capture != CaptureState.Unspecified
      && target != TargetState.Unspecified
      && cleanup == CleanupFormula()
    }
  }

  datatype StoredResult = StoredResult(record: CommandRecord, resources: Resources)
  {
    predicate Valid() {
      && record.commandId != ""
      && IsDigest(record.digest)
      && record.outcome != CommandOutcome.Unspecified
      && resources.Valid()
    }
  }

  datatype AttemptState = AttemptState(
    contract: Contract, reference: AttemptRef, last: CommandRecord,
    results: map<string, StoredResult>, resources: Resources,
    ownedTarget: Option<TargetBinding>)
  {
    predicate InFlight() {
      last.outcome == CommandOutcome.Unspecified
    }

    predicate Terminal() {
      resources.phase == AttemptPhase.Terminal
    }

    /** Everything the reader checks except the command index. */
    predicate ScalarsValid() {
      && contract.Verified()
      && contract.reference == reference
      && resources.Valid()
      && last.commandId != ""
      && IsDigest(last.digest)
      && (ownedTarget.Some? ==>
            && ownedTarget.value.profileId == contract.profileId
            && resources.target in {TargetState.Running, TargetState.Unknown})
      && (ownedTarget.None? && resources.target == TargetState.Running ==> Terminal())
    }

    predicate IndexValid() {
      && |results| <= MAX_RESULTS
      && (forall id :: id in results ==> id == results[id].record.commandId && results[id].Valid())
      && (!InFlight() ==>
            && last.commandId in results
            && results[last.commandId].record.digest == last.digest
            && results[last.commandId].record.outcome == last.outcome)
    }

    predicate Valid() {
      ScalarsValid() && IndexValid()
    }

    /** The record `persist` appends: the snapshot with its command index cleared. */
    function Snapshot(): AttemptState {
      this.(results := map[])
    }
  }

  function ClaimedState(contract: Contract, request: Request): (s: AttemptState)
    ensures s.results.Keys == {request.commandId}
  {
    var record := CommandRecord(request.commandId, request.sequence, request.generation, request.sessionId,
                                request.digest, CommandOutcome.Applied, None, None);
    var resources := Resources(AttemptPhase.Claimed, SideEffectState.Clear, "", InputState.Released,
                               CaptureState.NotStarted, TargetState.NotStarted, false, None);
    AttemptState(contract, request.reference, record,
                 map[request.commandId := StoredResult(record, resources)], resources, None)
  }

  function RecordCommand(s: AttemptState, request: Request, limit: nat): Result<AttemptState> {
    if request.commandId in s.results && s.results[request.commandId].record.digest != request.digest then
      Err(PayloadDigestConflict)
    else if request.commandId !in s.results && |s.results| >= limit then
      Err(LedgerFull)
    else if s.last.commandId != request.commandId
         && request.sessionId == s.last.sessionId
         && request.sequence <= s.last.sequence then
      Err(SequenceInvalid)
    else
      Ok(s.(last := Recorded(s.last, request)))
  }

  function Recorded(last: CommandRecord, request: Request): CommandRecord {
    last.(commandId := request.commandId, sequence := request.sequence, generation := request.generation,
          sessionId := request.sessionId, digest := request.digest)
  }

  function StoreCurrent(s: AttemptState): Result<AttemptState> {
    if s.last.commandId in s.results then
      if s.results[s.last.commandId].record.digest != s.last.digest
      then Err(PayloadDigestConflict)
      else Ok(s.(results := s.results[s.last.commandId := StoredResult(s.last, s.resources)]))
    else if |s.results| >= MAX_RESULTS then
      Err(LedgerFull)
    else
      Ok(s.(results := s.results[s.last.commandId := StoredResult(s.last, s.resources)]))
  }

  // ------------------------------------------------------------- completions

  datatype Completion =
    | TargetStart(binding: Option<TargetBinding>, error: Option<ErrorCode>)
    | Capture(running: bool, error: Option<ErrorCode>)
    | CaptureFrame(source: Option<nat>, error: Option<ErrorCode>)
    | InputLease(error: Option<ErrorCode>)
    | Pulse(frame: nat, applied: bool, error: Option<ErrorCode>)
    | InputFrame(source: Option<nat>, outcome: CommandOutcome, holdsActive: bool, error: Option<ErrorCode>)
    | Release(error: Option<ErrorCode>, released: bool)
    | Finish(inputReleased: bool, captureStopped: bool, targetRunning: bool, error: Option<ErrorCode>)
  {
    /** Whether this completion settles a recorded side-effect intent. */
    predicate SettlesSideEffect() {
      TargetStart? || Pulse? || InputFrame?
    }
  }

  function OrElse(first: Option<ErrorCode>, second: Option<ErrorCode>): Option<ErrorCode> {
    if first.Some? then first else second
  }

  function FinishError(resolved: bool, cleanup: bool): Option<ErrorCode> {
    if !resolved then Some(SideEffectUncertain)
    else if !cleanup then Some(CleanupIncomplete)
    else None
  }

  function CompletionOutcome(s: AttemptState, c: Completion): CommandOutcome {
    match c
    case TargetStart(binding, _) => if binding.Some? then CommandOutcome.Applied else CommandOutcome.NotApplied
    case Pulse(_, applied, _) => if applied then CommandOutcome.Applied else CommandOutcome.Uncertain
    case InputFrame(_, outcome, _, _) => outcome
    case Finish(released, stopped, _, _) =>
      if released && stopped && !s.resources.Unresolved() then CommandOutcome.Applied else CommandOutcome.Uncertain
    case _ => if c.error.None? then CommandOutcome.Applied else CommandOutcome.NotApplied
  }

  function CompletionSource(c: Completion): Option<nat> {
    match c
    case CaptureFrame(source, _) => source
    case Pulse(frame, _, _) => Some(frame)
    case InputFrame(source, _, _, _) => source
    case _ => None
  }

  function CompletionError(s: AttemptState, c: Completion): Option<ErrorCode> {
    if c.Finish? then
      var resolved := !s.resources.Unresolved();
      OrElse(c.error, FinishError(resolved, c.inputReleased && c.captureStopped && resolved))
    else c.error
  }

  function SideEffectAfter(outcome: CommandOutcome): SideEffectState {
    match outcome
    case Applied => SideEffectState.Applied
    case NotApplied => SideEffectState.NotApplied
    case _ => SideEffectState.Uncertain
  }

  /** How the device layer's answer changes the attempt-wide fields. */
  function CompletedResources(s: AttemptState, c: Completion): Resources {
    var r := s.resources;
    match c
    case TargetStart(binding, _) =>
      if binding.Some?
      then r.(target := TargetState.Running, phase := AttemptPhase.TargetReady)
      else r.(target := TargetState.NotStarted)
    case Capture(running, error) =>
      if error.Some? then r
      else if running then r.(capture := CaptureState.Running, phase := AttemptPhase.Active)
      else r.(capture := CaptureState.Stopped)
    case CaptureFrame(_, error) =>
      if error.Some? then r
      else r.(phase := AttemptPhase.Active, capture := CaptureState.Stopped)
    case InputLease(error) =>
      r.(input := if error.None? then InputState.Active else InputState.Released)
    case Pulse(_, _, _) => r
    case InputFrame(_, outcome, holds, _) =>
      r.(input := if outcome == CommandOutcome.Applied && holds then InputState.Active
                  else if outcome != CommandOutcome.Uncertain then InputState.Released
                  else InputState.Unknown)
    case Release(_, released) =>
      r.(input := ReleasedInput(released))
    case Finish(released, stopped, running, _) =>
      FinishedResources(r, released, stopped, running)
  }

  function ReleasedInput(released: bool): InputState {
    if released then InputState.Released else InputState.Unknown
  }

  function FinishedResources(r: Resources, released: bool, stopped: bool, running: bool): Resources {
    r.(phase := AttemptPhase.Terminal,
       input := ReleasedInput(released),
       capture := if stopped then CaptureState.Stopped else CaptureState.Unknown,
       target := if running then TargetState.Running else TargetState.NotStarted,
       cleanup := released && stopped && !r.Unresolved())
  }

  // ------------------------------------------------------------------- moves

  /** One in-place change of the active snapshot. */
  datatype Move =
    | Observe(request: Request)
    | Refuse(request: Request, code: ErrorCode)
    | Interrupt(sideEffect: bool)
    | Grant(request: Request, sideEffect: bool)
    | DigestConflict
    | Complete(completion: Completion)
    | Emergency(inputReleased: bool, captureStopped: bool, targetRunning: bool, error: Option<ErrorCode>)
    | MarkUncertain(code: ErrorCode, inputReleased: bool)
    | MarkReleased(code: ErrorCode)
    | Refresh(binding: TargetBinding)
  {
    /** Whether `store_current_result` runs before the snapshot is persisted. */
    predicate Stores() {
      Observe? || Refuse? || Interrupt? || Complete?
    }

    /** Whether another command becomes the last one. */
    predicate Records() {
      Observe? || Refuse? || Grant?
    }
  }

  function Apply(s: AttemptState, m: Move): AttemptState {
    match m
    case Observe(request) =>
      s.(last := Recorded(s.last, request).(outcome := CommandOutcome.Applied, sourceFrame := None, error := None))
    case Refuse(request, code) =>
      s.(last := Recorded(s.last, request).(outcome := CommandOutcome.NotApplied, sourceFrame := None,
                                            error := Some(code)),
         resources := s.resources.(error := Some(code)))
    case Interrupt(sideEffect) =>
      if sideEffect && s.resources.sideEffect == SideEffectState.IntentRecorded
      then s.(last := s.last.(outcome := CommandOutcome.Uncertain, error := Some(SideEffectUncertain)),
              resources := s.resources.(sideEffect := SideEffectState.Uncertain, error := Some(SideEffectUncertain)))
      else s.(last := s.last.(outcome := CommandOutcome.NotApplied, error := Some(CommandInterrupted)),
              resources := s.resources.(error := Some(CommandInterrupted)))
    case Grant(request, sideEffect) =>
      var r := s.resources.(error := None);
      s.(last := Recorded(s.last, request).(outcome := CommandOutcome.Unspecified, sourceFrame := None, error := None),
         resources := if sideEffect
                      then r.(sideEffect := SideEffectState.IntentRecorded, lastSideEffectId := request.commandId)
                      else r)
    case DigestConflict =>
      s.(resources := s.resources.(sideEffect := SideEffectState.Uncertain, cleanup := false,
                                   error := Some(PayloadDigestConflict)))
    case Complete(c) =>
      var outcome := CompletionOutcome(s, c);
      var error := CompletionError(s, c);
      var r := CompletedResources(s, c).(error := error);
      s.(last := s.last.(outcome := outcome, sourceFrame := CompletionSource(c), error := error),
         resources := if c.SettlesSideEffect() then r.(sideEffect := SideEffectAfter(outcome)) else r,
         ownedTarget := if c.TargetStart? then c.binding else if c.Finish? then None else s.ownedTarget)
    case Emergency(released, stopped, running, error) =>
      var r := FinishedResources(s.resources, released, stopped, running);
      s.(resources := r.(error := OrElse(error, FinishError(!s.resources.Unresolved(), r.cleanup))),
         ownedTarget := None)
    case MarkUncertain(code, released) =>
      s.(resources := s.resources.(sideEffect := SideEffectState.Uncertain, input := ReleasedInput(released),
                                   cleanup := false, error := Some(code)))
    case MarkReleased(code) =>
      s.(resources := s.resources.(input := InputState.Released, cleanup := false, error := Some(code)))
    case Refresh(binding) =>
      s.(ownedTarget := Some(binding))
  }

  /** The snapshot after a move that goes through. */
  function Next(s: AttemptState, m: Move): AttemptState {
    var a := Apply(s, m);
    if m.Stores()
    then a.(results := a.results[a.last.commandId := StoredResult(a.last, a.resources)])
    else a
  }

  // ----------------------------------------------------------------- replies

  datatype OutcomeMessage = OutcomeMessage(
    attempt: AttemptRef, commandId: string, digest: string, outcome: CommandOutcome,
    sourceFrame: Option<nat>, error: Option<ErrorCode>)

  datatype Receipt = Receipt(
    attempt: Option<AttemptRef>, commandId: string, sequence: nat, generation: nat, digest: string,
    resources: Resources)

  /** `Proceed` is the go-ahead for the device layer; `Absent` says there is no active attempt. */
  datatype Reply =
    | Proceed
    | Done
    | Absent
    | Flag(on: bool)
    | Answered(outcome: Option<OutcomeMessage>, receipt: Receipt)

  function OutcomeOf(reference: AttemptRef, record: CommandRecord): OutcomeMessage {
    OutcomeMessage(reference, record.commandId, record.digest, record.outcome, record.sourceFrame, record.error)
  }

  function ReceiptOf(reference: AttemptRef, record: CommandRecord, resources: Resources): Receipt {
    Receipt(Some(reference), record.commandId, record.sequence, record.generation, record.digest, resources)
  }

  /** A command result exists only for a settled outcome. */
  function ResultOf(reference: AttemptRef, record: CommandRecord, resources: Resources): Result<Reply> {
    if record.outcome == CommandOutcome.Unspecified
    then Err(LedgerInvalid)
    else Ok(Answered(Some(OutcomeOf(reference, record)), ReceiptOf(reference, record, resources)))
  }

  function ReceiptOnly(r: Result<Reply>): Result<Reply> {
    match r
    case Ok(Answered(_, receipt)) => Ok(Answered(None, receipt))
    case _ => r
  }

  function ConflictReply(s: AttemptState, request: Request, knownDigest: string): Reply {
    Answered(Some(OutcomeMessage(s.reference, request.commandId, request.digest, CommandOutcome.Uncertain, None,
                                 Some(PayloadDigestConflict))),
             Receipt(Some(s.reference), request.commandId, request.sequence, request.generation, knownDigest,
                     s.resources))
  }

  const NOT_FOUND_RECEIPT: Receipt :=
    Receipt(None, "", 0, 0, "",
            Resources(AttemptPhase.NotFound, SideEffectState.Clear, "", InputState.Released,
                      CaptureState.NotStarted, TargetState.NotStarted, false, None))
}
