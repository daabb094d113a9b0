/**
 The append-only attempt ledger and the runtime's API as functions of the whole
 world: the ledger directory, what the device allows, and the runtime's memory.
 `TaskAttemptRuntime` is proved against these functions.
 */
module AttemptLedger {
  import opened Outcomes
  import opened AttemptRecord

  type Log = seq<AttemptState>

  /** `durable` is false for a runtime without a ledger directory. `writable`
      says whether the next append reaches the disk; `listing` is the order in
      which the directory is read. */
  datatype World = World(
    durable: bool, files: map<string, Log>, listing: seq<string>, writable: bool,
    active: Option<AttemptState>, loaded: bool, recovered: bool)

  /** The world after an access to the ledger, and whether it succeeded. */
  datatype Access = Access(world: World, result: Result<()>)

  /** The world after a call, and what the caller is told. */
  datatype Answer = Answer(world: World, reply: Result<Reply>)

  datatype Entry = Entry(world: World, request: Result<Request>)

  // ---------------------------------------------------------------- the fold

  /** What one ledger line adds to the rebuilt command index. */
  function LineResults(line: AttemptState): map<string, StoredResult> {
    if line.InFlight() then line.results
    else line.results[line.last.commandId := StoredResult(line.last, line.resources)]
  }

  function FoldResults(log: Log): map<string, StoredResult> {
    if log == [] then map[] else FoldResults(log[..|log| - 1]) + LineResults(log[|log| - 1])
  }

  function Fold(log: Log): AttemptState
    requires log != []
  {
    log[|log| - 1].(results := FoldResults(log))
  }

  function LoadLast(log: Log): Result<AttemptState> {
    if log == [] || !Fold(log).Valid() then Err(LedgerInvalid) else Ok(Fold(log))
  }

  /** Reading one ledger by name; a runtime without a directory finds nothing. */
  function LoadNamed(w: World, attemptId: string): Result<Option<AttemptState>> {
    if !w.durable || attemptId !in w.files then Ok(None)
    else match LoadLast(w.files[attemptId])
      case Ok(s) => Ok(Some(s))
      case Err(code) => Err(code)
  }

  // --------------------------------------------------------------- recovery

  function LogOf(w: World, name: string): Log {
    if name in w.files then w.files[name] else []
  }

  /** Reads the listed ledgers in order, adopting the one attempt that still holds local resources. */
  function Scan(w: World, names: seq<string>): Access
    decreases |names|
  {
    if names == [] then Access(w.(loaded := true), Ok(()))
    else match LoadLast(LogOf(w, names[0]))
      case Err(code) => Access(w, Err(code))
      case Ok(s) =>
        if s.resources.LocallyReleased() then Scan(w, names[1..])
        else if w.active.Some? then Access(w.(active := Some(s)), Err(LedgerConflict))
        else Scan(w.(active := Some(s), recovered := true), names[1..])
  }

  function LoadActive(w: World): Access {
    if w.loaded then Access(w, Ok(()))
    else if !w.durable then Access(w.(loaded := true), Ok(()))
    else Scan(w, w.listing)
  }

  // ------------------------------------------------------------- persistence

  function Append(w: World, s: AttemptState): World {
    var name := s.reference.attemptId;
    w.(files := w.files[name := LogOf(w, name) + [s.Snapshot()]],
       listing := if name in w.files then w.listing else w.listing + [name])
  }

  function Persist(w: World, s: AttemptState): Access {
    if !w.durable then Access(w, Ok(()))
    else if !w.writable then Access(w, Err(LedgerUnavailable))
    else Access(Append(w, s), Ok(()))
  }

  // ---------------------------------------------------------------- verdicts

  /** How the reply is read off the snapshot once it is persisted. */
  datatype Ack = AckProceed | AckDone | AckReceipt | AckResult | AckConflict(request: Request, knownDigest: string)

  datatype Verdict =
    | Decline(code: ErrorCode)
    | Give(result: Result<Reply>)
    | Write(move: Move, ack: Ack)
  {
    /** Whether carrying it out makes another command the last one. */
    predicate Records() {
      Write? && move.Records()
    }
  }

  function Acknowledge(s: AttemptState, ack: Ack): Result<Reply> {
    match ack
    case AckProceed => Ok(Proceed)
    case AckDone => Ok(Done)
    case AckReceipt => Ok(Answered(None, ReceiptOf(s.reference, s.last, s.resources)))
    case AckResult => ResultOf(s.reference, s.last, s.resources)
    case AckConflict(request, known) => Ok(ConflictReply(s, request, known))
  }

  /** Carries a verdict out: a changed snapshot stays in memory even when it cannot be stored or
      persisted (only an emergency finish works on a copy), and is dropped when it yields no
      command result. */
  function Execute(w: World, s: AttemptState, v: Verdict): Answer {
    match v
    case Decline(code) => Answer(w, Err(code))
    case Give(result) => Answer(w, result)
    case Write(move, ack) =>
      var changed := Apply(s, move);
      match (if move.Stores() then StoreCurrent(changed) else Ok(changed))
      case Err(code) => Answer(w.(active := Some(changed)), Err(code))
      case Ok(stored) => Commit(w, stored, move.Emergency?, ack)
  }

  /** Persists a changed snapshot and reads the reply off it. */
  function Commit(w: World, stored: AttemptState, copied: bool, ack: Ack): Answer {
    var kept := Persist(w, stored);
    if kept.result.Err? then
      Answer(if copied then kept.world else kept.world.(active := Some(stored)), Err(kept.result.code))
    else
      var reply := Acknowledge(stored, ack);
      Answer(kept.world.(active := if reply.Err? then None else Some(stored)), reply)
  }

  // ------------------------------------------------- decisions on a snapshot

  predicate Limited(mode: Mode) {
    mode.Effect? || mode.Business?
  }

  /** The four ways the executor asks for the go-ahead. */
  datatype Mode = Effect | Business | Recovery | Finish
  {
    function Limit(): nat {
      match this
      case Effect => MAX_BUSINESS
      case Business => MAX_BUSINESS
      case Recovery => MAX_BUSINESS + MAX_INSPECT + MAX_RELEASE
      case Finish => MAX_RESULTS
    }
  }

  function StoredReply(s: AttemptState, request: Request): Result<Reply>
    requires request.commandId in s.results
  {
    var stored := s.results[request.commandId];
    ResultOf(s.reference, stored.record, stored.resources)
  }

  function DecideConflict(s: AttemptState, request: Request): Verdict {
    if s.reference != request.reference then Decline(ContractMismatch)
    else if request.commandId in s.results then
      var known := s.results[request.commandId].record.digest;
      if known == request.digest then Decline(PayloadDigestConflict)
      else Write(DigestConflict, AckConflict(request, known))
    else if s.last.commandId == request.commandId && s.last.digest != request.digest then
      Write(DigestConflict, AckConflict(request, s.last.digest))
    else Decline(PayloadDigestConflict)
  }

  /** A stored command is answered from the index, or reported as a digest conflict. */
  function DecideStored(s: AttemptState, request: Request): Verdict
    requires request.commandId in s.results
  {
    if s.results[request.commandId].record.digest != request.digest
    then DecideConflict(s, request)
    else Give(StoredReply(s, request))
  }

  function DecidePrepare(s: AttemptState, request: Request, mode: Mode, now: int): Verdict {
    if request.commandId in s.results then DecideStored(s, request)
    else if s.last.commandId == request.commandId && s.last.digest != request.digest then DecideConflict(s, request)
    else if s.reference != request.reference then Decline(ContractMismatch)
    else if s.last.commandId == request.commandId then
      if !s.InFlight() then Give(ResultOf(s.reference, s.last, s.resources))
      else if !Limited(mode) then Give(Ok(Proceed))
      else Write(Interrupt(mode.Effect?), AckResult)
    else if Limited(mode) && s.Terminal() then Decline(AttemptTerminal)
    else if Limited(mode) && s.contract.reference.contractVersion > 1 && s.contract.deadline <= now then
      Decline(ContractExpired)
    else if Limited(mode) && s.resources.Unresolved() then Decline(SideEffectUncertain)
    else match RecordCommand(s, request, mode.Limit())
      case Err(code) => Decline(code)
      case Ok(_) => Write(Grant(request, mode.Effect?), AckProceed)
  }

  /** A side-effecting command is looked up before it is prepared. `Give(Ok(Proceed))` stands for
      "nothing known about this command". */
  function DecideReplay(s: AttemptState, request: Request): Verdict {
    if s.reference != request.reference then Decline(ContractMismatch)
    else if request.commandId in s.results then DecideStored(s, request)
    else if s.last.commandId != request.commandId then Give(Ok(Proceed))
    else if s.last.digest != request.digest then DecideConflict(s, request)
    else if s.InFlight() then DecidePrepare(s, request, Effect, 0)
    else Give(ResultOf(s.reference, s.last, s.resources))
  }

  function DecideReject(s: AttemptState, request: Request, code: ErrorCode): Verdict {
    if request.commandId in s.results then DecideStored(s, request)
    else if s.last.commandId == request.commandId && s.last.digest != request.digest then DecideConflict(s, request)
    else if s.reference != request.reference then Decline(ContractMismatch)
    else if s.last.commandId == request.commandId && !s.InFlight() then
      Give(ResultOf(s.reference, s.last, s.resources))
    else match RecordCommand(s, request, MAX_BUSINESS)
      case Err(error) => Decline(error)
      case Ok(_) => Write(Move.Refuse(request, code), AckResult)
  }

  function DecideInspect(s: AttemptState, request: Request): Verdict {
    if s.reference != request.reference then Decline(ContractMismatch)
    else if request.commandId in s.results then DecideStored(s, request)
    else match RecordCommand(s, request, MAX_BUSINESS + MAX_INSPECT)
      case Err(code) => Decline(code)
      case Ok(_) => Write(Observe(request), AckReceipt)
  }

  /** `begin` against an attempt that already holds local resources. */
  function DecideBegin(s: AttemptState, request: Request): Verdict {
    if s.reference != request.reference then Decline(ContractMismatch)
    else if request.commandId in s.results then DecideStored(s, request)
    else if s.last.commandId != request.commandId then Decline(AlreadyClaimed)
    else if s.last.digest != request.digest then Decline(PayloadDigestConflict)
    else Give(Ok(Answered(None, ReceiptOf(s.reference, s.last, s.resources))))
  }

  function DecideComplete(s: AttemptState, request: Request, c: Completion): Verdict {
    if c.Finish? && s.reference != request.reference then Decline(ContractMismatch)
    else if s.last.commandId != request.commandId then Decline(AlreadyClaimed)
    else if s.last.digest != request.digest then Decline(PayloadDigestConflict)
    else Write(Move.Complete(c), AckResult)
  }

  function DecideRefresh(s: AttemptState, reference: AttemptRef, binding: TargetBinding): Verdict {
    if s.reference != reference then Decline(ContractMismatch)
    else if s.ownedTarget.None? then Decline(TargetInvalid)
    else if s.ownedTarget.value.(windowHandle := binding.windowHandle) != binding then Decline(TargetStale)
    else Write(Move.Refresh(binding), AckDone)
  }

  // ------------------------------------------------------------ the calls

  /** Every call that names a command validates it and then makes sure the ledger was read. */
  function Enter(w: World, task: TaskCommand): Entry {
    match ValidateTask(task)
    case Err(code) => Entry(w, Err(code))
    case Ok(request) =>
      var read := LoadActive(w);
      Entry(read.world, if read.result.Err? then Err(read.result.code) else Ok(request))
  }

  function Replay(w: World, task: TaskCommand): Answer {
    var e := Enter(w, task);
    if e.request.Err? then Answer(e.world, Err(e.request.code))
    else if e.world.active.None? then Answer(e.world, Err(AttemptNotFound))
    else Execute(e.world, e.world.active.value, DecideReplay(e.world.active.value, e.request.value))
  }

  function ReportConflict(w: World, task: TaskCommand): Answer {
    var e := Enter(w, task);
    if e.request.Err? then Answer(e.world, Err(e.request.code))
    else if e.world.active.None? then Answer(e.world, Err(AttemptNotFound))
    else Execute(e.world, e.world.active.value, DecideConflict(e.world.active.value, e.request.value))
  }

  function Reject(w: World, task: TaskCommand, code: ErrorCode): Answer {
    var e := Enter(w, task);
    if e.request.Err? then Answer(e.world, Err(e.request.code))
    else if e.world.active.None? then Answer(e.world, Err(AttemptNotFound))
    else Execute(e.world, e.world.active.value, DecideReject(e.world.active.value, e.request.value, code))
  }

  function Prepare(w: World, task: TaskCommand, mode: Mode, now: int): Answer {
    var e := Enter(w, task);
    if e.request.Err? then Answer(e.world, Err(e.request.code))
    else if e.world.active.None? then Answer(e.world, Err(AttemptNotFound))
    else Execute(e.world, e.world.active.value, DecidePrepare(e.world.active.value, e.request.value, mode, now))
  }

  /** `complete` is the one call that trusts the ledger to be read already, except for a finish. */
  function Complete(w: World, task: TaskCommand, c: Completion): Answer {
    var e := if c.Finish? then Enter(w, task) else Entry(w, ValidateTask(task));
    if e.request.Err? then Answer(e.world, Err(e.request.code))
    else if e.world.active.None? then Answer(e.world, Err(AttemptNotFound))
    else Execute(e.world, e.world.active.value, DecideComplete(e.world.active.value, e.request.value, c))
  }

  function RefreshTarget(w: World, reference: AttemptRef, binding: TargetBinding): Answer {
    var read := LoadActive(w);
    if read.result.Err? then Answer(read.world, Err(read.result.code))
    else if read.world.active.None? then Answer(read.world, Err(AttemptNotFound))
    else Execute(read.world, read.world.active.value, DecideRefresh(read.world.active.value, reference, binding))
  }

  /** An emergency finish and the two marks change the active attempt, if any, whatever it is doing. */
  function Impose(w: World, move: Move): Answer {
    var read := LoadActive(w);
    if read.result.Err? then Answer(read.world, Err(read.result.code))
    else if read.world.active.None? then Answer(read.world, Ok(Absent))
    else Execute(read.world, read.world.active.value, Write(move, AckReceipt))
  }

  function IsActive(w: World): Answer {
    var read := LoadActive(w);
    Answer(read.world,
           if read.result.Err? then Err(read.result.code)
           else Ok(Flag(read.world.active.Some? && !read.world.active.value.resources.LocallyReleased())))
  }

  /** The active attempt a command belongs to. */
  datatype Held = Held(world: World, state: Result<AttemptState>)

  function RequireActive(w: World, task: TaskCommand): Held {
    var e := Enter(w, task);
    Held(e.world,
         if e.request.Err? then Err(e.request.code)
         else if e.world.active.None? then Err(AttemptNotFound)
         else if e.world.active.value.reference != e.request.value.reference then Err(ContractMismatch)
         else Ok(e.world.active.value))
  }

  predicate ReusesTerminal(s: Option<AttemptState>, reference: AttemptRef) {
    s.Some? && s.value.reference.attemptId == reference.attemptId && s.value.Terminal()
  }

  /** A version-1 message is checked as it is stored, a version-3 one as it was signed. */
  predicate Acceptable(contract: Contract, v2: bool) {
    if v2 then contract.reference.contractVersion == 3 && contract.Verified() else contract.StoredVerified()
  }

  function StoredContract(contract: Contract, v2: bool): Contract {
    if v2 then contract else contract.WithoutV3Terms()
  }

  function Begin(w: World, task: TaskCommand, contract: Contract, v2: bool): Answer {
    if !Acceptable(contract, v2) then Answer(w, Err(ContractValueInvalid))
    else match ValidateTask(task)
      case Err(code) => Answer(w, Err(code))
      case Ok(request) =>
        if request.reference != contract.reference then Answer(w, Err(ContractMismatch))
        else
          var read := LoadActive(w);
          if read.result.Err? then Answer(read.world, Err(read.result.code))
          else Claim(read.world, request, StoredContract(contract, v2))
  }

  /** `begin` once the ledger has been read. */
  function Claim(w: World, request: Request, contract: Contract): Answer {
    if ReusesTerminal(w.active, request.reference) then Answer(w, Err(AttemptTerminal))
    else match LoadNamed(w, request.reference.attemptId)
      case Err(code) => Answer(w, Err(code))
      case Ok(named) =>
        if ReusesTerminal(named, request.reference) then Answer(w, Err(AttemptTerminal))
        else if w.active.Some? && !w.active.value.resources.LocallyReleased() then
          var done := Execute(w, w.active.value, DecideBegin(w.active.value, request));
          Answer(done.world, ReceiptOnly(done.reply))
        else ClaimFresh(w, request, contract)
  }

  /** A fresh claim replaces an attempt that holds nothing any more. */
  function ClaimFresh(w: World, request: Request, contract: Contract): Answer {
    var vacant := if w.active.Some? then w.(active := None, recovered := false) else w;
    var s := ClaimedState(contract, request);
    var kept := Persist(vacant, s);
    if kept.result.Err? then Answer(kept.world, Err(kept.result.code))
    else Answer(kept.world.(active := Some(s), recovered := false),
                Ok(Answered(None, ReceiptOf(s.reference, s.last, s.resources))))
  }

  function Inspect(w: World, task: TaskCommand): Answer {
    var e := Enter(w, task);
    if e.request.Err? then Answer(e.world, Err(e.request.code))
    else if e.world.active.None? then InspectNamed(e.world, e.request.value)
    else
      var done := Execute(e.world, e.world.active.value, DecideInspect(e.world.active.value, e.request.value));
      Answer(done.world, ReceiptOnly(done.reply))
  }

  /** `inspect` when no attempt is active: the ledger named by the reference is consulted, and only a
      digest conflict makes it the active one. */
  function InspectNamed(w: World, request: Request): Answer {
    match LoadNamed(w, request.reference.attemptId)
    case Err(code) => Answer(w, Err(code))
    case Ok(None) => Answer(w, Ok(Answered(None, NOT_FOUND_RECEIPT)))
    case Ok(Some(s)) =>
      if s.reference != request.reference then Answer(w, Err(ContractMismatch))
      else if request.commandId in s.results then
        if s.results[request.commandId].record.digest == request.digest
        then Answer(w, ReceiptOnly(StoredReply(s, request)))
        else
          var done := Execute(w.(active := Some(s)), s, DecideConflict(s, request));
          Answer(done.world, ReceiptOnly(done.reply))
      else match RecordCommand(s, request, MAX_BUSINESS + MAX_INSPECT)
        case Err(code) => Answer(w, Err(code))
        case Ok(_) => ObserveNamed(w, Next(s, Observe(request)))
  }

  function ObserveNamed(w: World, observed: AttemptState): Answer {
    var kept := Persist(w, observed);
    Answer(kept.world,
           if kept.result.Err? then Err(kept.result.code)
           else Ok(Answered(None, ReceiptOf(observed.reference, observed.last, observed.resources))))
  }
}
