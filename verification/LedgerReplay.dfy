/**
 What happens when a command id is used again: with the same payload digest the
 stored outcome comes back and nothing changes, with another digest the attempt
 becomes uncertain.
 */
module LedgerReplay {
  import opened Outcomes
  import opened AttemptRecord
  import opened AttemptLedger
  import opened LedgerMoves
  import opened LedgerWorlds

  /** The active attempt, once the ledger has been read. */
  ghost predicate Holds(w: World, s: AttemptState, task: TaskCommand) {
    && Healthy(w) && w.loaded && w.active == Some(s)
    && ValidateTask(task).Ok? && s.reference == ValidateTask(task).value.reference
  }

  ghost predicate SameDigest(s: AttemptState, request: Request) {
    request.commandId in s.results && s.results[request.commandId].record.digest == request.digest
  }

  ghost predicate OtherDigest(s: AttemptState, request: Request) {
    if request.commandId in s.results
    then s.results[request.commandId].record.digest != request.digest
    else s.last.commandId == request.commandId && s.last.digest != request.digest
  }

  lemma StoredIsAnswered(s: AttemptState, request: Request)
    requires Settled(s) && SameDigest(s, request)
    ensures var stored := s.results[request.commandId];
            && StoredReply(s, request) ==
               Ok(Answered(Some(OutcomeOf(s.reference, stored.record)),
                           ReceiptOf(s.reference, stored.record, stored.resources)))
            && stored.record.commandId == request.commandId
            && stored.record.outcome != CommandOutcome.Unspecified
  {
  }

  /** Once the ledger has been read, a call carries out what it decides on the active snapshot. */
  lemma CallsDecide(w: World, s: AttemptState, task: TaskCommand, mode: Mode, now: int, code: ErrorCode)
    requires w.loaded && w.active == Some(s) && ValidateTask(task).Ok?
    ensures var request := ValidateTask(task).value;
            && Replay(w, task) == Execute(w, s, DecideReplay(s, request))
            && Prepare(w, task, mode, now) == Execute(w, s, DecidePrepare(s, request, mode, now))
            && Reject(w, task, code) == Execute(w, s, DecideReject(s, request, code))
            && ReportConflict(w, task) == Execute(w, s, DecideConflict(s, request))
            && var done := Execute(w, s, DecideInspect(s, request));
               Inspect(w, task) == Answer(done.world, ReceiptOnly(done.reply))
  {
  }

  /** Every call that may carry a stored command id again gives the stored outcome and changes nothing. */
  lemma ReplayIsStable(w: World, s: AttemptState, task: TaskCommand, mode: Mode, now: int, code: ErrorCode)
    requires Holds(w, s, task) && SameDigest(s, ValidateTask(task).value)
    ensures var stored := StoredReply(s, ValidateTask(task).value);
            && stored.Ok?
            && Replay(w, task) == Answer(w, stored)
            && Prepare(w, task, mode, now) == Answer(w, stored)
            && Reject(w, task, code) == Answer(w, stored)
            && Inspect(w, task) == Answer(w, ReceiptOnly(stored))
  {
    var request := ValidateTask(task).value;
    StoredIsAnswered(s, request);
    StoredIsGiven(s, request, mode, now, code);
    CallsDecide(w, s, task, mode, now, code);
  }

  lemma StoredIsGiven(s: AttemptState, request: Request, mode: Mode, now: int, code: ErrorCode)
    requires SameDigest(s, request)
    ensures DecidePrepare(s, request, mode, now) == Give(StoredReply(s, request))
    ensures DecideReject(s, request, code) == Give(StoredReply(s, request))
    ensures s.reference == request.reference ==>
              && DecideReplay(s, request) == Give(StoredReply(s, request))
              && DecideInspect(s, request) == Give(StoredReply(s, request))
              && DecideBegin(s, request) == Give(StoredReply(s, request))
  {
  }

  /** `begin` carries a stored command id again: the stored receipt comes back exactly when the attempt is
      not terminal yet and its ledger can still be read. */
  lemma BeginReplays(w: World, s: AttemptState, task: TaskCommand, contract: Contract, v2: bool)
    requires Holds(w, s, task) && SameDigest(s, ValidateTask(task).value)
    requires Acceptable(contract, v2) && contract.reference == s.reference
    ensures Begin(w, task, contract, v2).world == w
    ensures Begin(w, task, contract, v2).reply == ReceiptOnly(StoredReply(s, ValidateTask(task).value))
            <==> !s.Terminal() && LoadLast(w.files[s.reference.attemptId]).Ok?
    ensures s.Terminal() ==> Begin(w, task, contract, v2).reply == Err(AttemptTerminal)
  {
    hide LoadLast, Claim, Healthy;
    var request := ValidateTask(task).value;
    assert Begin(w, task, contract, v2) == Claim(w, request, StoredContract(contract, v2));
    ClaimReplays(w, s, request, StoredContract(contract, v2));
  }

  lemma ClaimReplays(w: World, s: AttemptState, request: Request, contract: Contract)
    requires Healthy(w) && w.loaded && w.active == Some(s)
    requires SameDigest(s, request) && s.reference == request.reference
    ensures var readable := LoadLast(w.files[s.reference.attemptId]).Ok?;
            Claim(w, request, contract) ==
            Answer(w, if s.Terminal() then Err(AttemptTerminal)
                      else if !readable then Err(LedgerInvalid)
                      else ReceiptOnly(StoredReply(s, request)))
    ensures StoredReply(s, request).Ok?
  {
    if s.Terminal() {
      StoredIsAnswered(s, request);
    } else {
      LiveClaimReplays(w, s, request, contract);
    }
  }

  lemma LiveClaimReplays(w: World, s: AttemptState, request: Request, contract: Contract)
    requires Healthy(w) && w.loaded && w.active == Some(s) && !s.Terminal()
    requires SameDigest(s, request) && s.reference == request.reference
    ensures var readable := LoadLast(w.files[s.reference.attemptId]).Ok?;
            Claim(w, request, contract) ==
            Answer(w, if !readable then Err(LedgerInvalid) else ReceiptOnly(StoredReply(s, request)))
    ensures StoredReply(s, request).Ok?
  {
    hide Claim, LoadLast, LoadNamed, StoredReply, DecideBegin;
    StoredIsAnswered(s, request);
    NamedIsActive(w, s);
    ClaimAgain(w, s, request, contract, LoadNamed(w, request.reference.attemptId));
  }

  lemma ClaimAgain(
    w: World, s: AttemptState, request: Request, contract: Contract, named: Result<Option<AttemptState>>)
    requires w.active == Some(s) && !s.Terminal()
    requires named == LoadNamed(w, request.reference.attemptId)
    requires named.Ok? ==> !ReusesTerminal(named.value, request.reference)
    ensures var done := Execute(w, s, DecideBegin(s, request));
            Claim(w, request, contract) ==
            if named.Err? then Answer(w, Err(named.code)) else Answer(done.world, ReceiptOnly(done.reply))
    ensures s.reference == request.reference && SameDigest(s, request) ==>
              DecideBegin(s, request) == Give(StoredReply(s, request))
  {
  }

  /** Reading the ledger of the active attempt gives a snapshot that the active one follows, or fails. */
  lemma NamedIsActive(w: World, s: AttemptState)
    requires w.durable && Remembers(w, s)
    ensures var log := w.files[s.reference.attemptId];
            var named := LoadNamed(w, s.reference.attemptId);
            if LoadLast(log).Ok?
            then named == Ok(Some(Fold(log))) && (Fold(log).Terminal() ==> s.Terminal())
            else named == Err(LedgerInvalid)
  {
  }

  /** The attempt is uncertain, not cleaned up, and the ledger says so. */
  ghost predicate Marked(w: World, a: Answer, s: AttemptState) {
    var n := Next(s, DigestConflict);
    && n.resources.sideEffect == SideEffectState.Uncertain && !n.resources.cleanup
    && n.resources.error == Some(PayloadDigestConflict)
    && n.results == s.results
    && a.world == Append(w, n).(active := Some(n))
    && a.reply.Ok? && a.reply.value.Answered?
  }

  /** Marked on disk, or in memory only when the append fails. */
  ghost predicate MarkedOrFailed(w: World, a: Answer, s: AttemptState) {
    if w.writable then Marked(w, a, s)
    else a == Answer(w.(active := Some(Next(s, DigestConflict))), Err(LedgerUnavailable))
  }

  lemma ConflictIsWritten(s: AttemptState, request: Request)
    requires s.reference == request.reference && OtherDigest(s, request)
    ensures DecideConflict(s, request).Write? && DecideConflict(s, request).move == DigestConflict
    ensures DecideConflict(s, request).ack.AckConflict?
  {
  }

  lemma ConflictMarks(w: World, s: AttemptState, task: TaskCommand)
    requires Holds(w, s, task) && OtherDigest(s, ValidateTask(task).value)
    ensures MarkedOrFailed(w, Execute(w, s, DecideConflict(s, ValidateTask(task).value)), s)
  {
    ConflictIsWritten(s, ValidateTask(task).value);
    MarkIsWritten(w, s, DecideConflict(s, ValidateTask(task).value));
  }

  lemma MarkIsWritten(w: World, s: AttemptState, v: Verdict)
    requires w.durable && w.loaded && w.active == Some(s) && Settled(s)
    requires v.Write? && v.move == DigestConflict && v.ack.AckConflict?
    ensures MarkedOrFailed(w, Execute(w, s, v), s)
  {
    ExecuteFacts(w, s, v);
  }

  lemma ConflictIsDecided(s: AttemptState, request: Request, mode: Mode, now: int, code: ErrorCode)
    requires OtherDigest(s, request)
    ensures DecidePrepare(s, request, mode, now) == DecideConflict(s, request)
    ensures DecideReject(s, request, code) == DecideConflict(s, request)
    ensures s.reference == request.reference ==> DecideReplay(s, request) == DecideConflict(s, request)
    ensures s.reference == request.reference && request.commandId in s.results ==>
              && DecideInspect(s, request) == DecideConflict(s, request)
              && DecideBegin(s, request) == DecideConflict(s, request)
    ensures s.reference == request.reference && request.commandId !in s.results ==>
              DecideBegin(s, request) == Decline(PayloadDigestConflict)
  {
  }

  /** A command id that comes back with another digest makes the attempt uncertain, whichever of these calls
      brings it. */
  lemma ChangedDigestMarks(w: World, s: AttemptState, task: TaskCommand, mode: Mode, now: int, code: ErrorCode)
    requires Holds(w, s, task) && OtherDigest(s, ValidateTask(task).value)
    ensures MarkedOrFailed(w, Replay(w, task), s)
    ensures MarkedOrFailed(w, Prepare(w, task, mode, now), s)
    ensures MarkedOrFailed(w, Reject(w, task, code), s)
    ensures MarkedOrFailed(w, ReportConflict(w, task), s)
  {
    var request := ValidateTask(task).value;
    ConflictMarks(w, s, task);
    ConflictIsDecided(s, request, mode, now, code);
    CallsDecide(w, s, task, mode, now, code);
  }

  /** An inspection notices the other digest exactly when the command has a stored result. */
  lemma InspectMarksExactly(w: World, s: AttemptState, task: TaskCommand)
    requires Holds(w, s, task) && OtherDigest(s, ValidateTask(task).value)
    ensures MarkedOrFailed(w, Inspect(w, task), s) <==> ValidateTask(task).value.commandId in s.results
  {
    var request := ValidateTask(task).value;
    CallsDecide(w, s, task, Mode.Finish, 0, LedgerInvalid);
    if request.commandId in s.results {
      ConflictMarks(w, s, task);
      ConflictIsDecided(s, request, Mode.Finish, 0, LedgerInvalid);
      ReceiptsStillMark(w, Execute(w, s, DecideConflict(s, request)), s);
    } else {
      InspectionInFlight(w, s, task);
      ObservedIsNoMark(w, s, request, Inspect(w, task));
    }
  }

  lemma ObservedIsNoMark(w: World, s: AttemptState, request: Request, a: Answer)
    requires s.InFlight() && request.commandId == s.last.commandId
    requires a == Answer(w, Err(LedgerFull)) || a.world.active == Some(Next(s, Observe(request)))
    ensures !MarkedOrFailed(w, a, s)
  {
  }

  /** While the command is in flight its inspection under another digest is no conflict: if there is room, the
      command is settled as applied with that digest, and nothing else about the attempt changes. */
  lemma InspectionInFlight(w: World, s: AttemptState, task: TaskCommand)
    requires Holds(w, s, task) && OtherDigest(s, ValidateTask(task).value)
    requires ValidateTask(task).value.commandId !in s.results
    ensures var request := ValidateTask(task).value;
            var n := Next(s, Observe(request));
            var a := Inspect(w, task);
            if |s.results| >= MAX_BUSINESS + MAX_INSPECT then a == Answer(w, Err(LedgerFull))
            else
              && n.last.commandId == s.last.commandId && n.last.digest == request.digest != s.last.digest
              && n.last.outcome == CommandOutcome.Applied && n.resources == s.resources
              && a.world == (if w.writable then Append(w, n) else w).(active := Some(n))
              && a.reply == if w.writable then Ok(Answered(None, ReceiptOf(n.reference, n.last, n.resources)))
                            else Err(LedgerUnavailable)
  {
    var request := ValidateTask(task).value;
    CallsDecide(w, s, task, Mode.Finish, 0, LedgerInvalid);
    InspectIsSound(s, request);
    ExecuteFacts(w, s, DecideInspect(s, request));
  }

  /** From then on that payload, which was never carried out, is answered as applied, and the completion of the
      command that was carried out is refused. */
  lemma InspectionAnswersForAnother(
    w: World, s: AttemptState, task: TaskCommand, mode: Mode, now: int, first: TaskCommand, c: Completion)
    requires Holds(w, s, task) && OtherDigest(s, ValidateTask(task).value) && w.writable
    requires ValidateTask(task).value.commandId !in s.results && |s.results| < MAX_BUSINESS + MAX_INSPECT
    requires ValidateTask(first).Ok? && ValidateTask(first).value.commandId == s.last.commandId
    requires ValidateTask(first).value.digest == s.last.digest && ValidateTask(first).value.reference == s.reference
    ensures var later := Inspect(w, task).world;
            && Prepare(later, task, mode, now).world == later
            && Prepare(later, task, mode, now).reply.Ok?
            && Prepare(later, task, mode, now).reply.value.Answered?
            && Prepare(later, task, mode, now).reply.value.outcome.Some?
            && Prepare(later, task, mode, now).reply.value.outcome.value.outcome == CommandOutcome.Applied
            && AttemptLedger.Complete(later, first, c) == Answer(later, Err(PayloadDigestConflict))
  {
    var request := ValidateTask(task).value;
    var n := Next(s, Observe(request));
    var later := Inspect(w, task).world;
    InspectionInFlight(w, s, task);
    ObservedIsStored(s, request);
    StoredIsAnswered(n, request);
    StoredIsGiven(n, request, mode, now, LedgerInvalid);
    CallsDecide(later, n, task, mode, now, LedgerInvalid);
  }

  lemma ObservedIsStored(s: AttemptState, request: Request)
    requires Settled(s) && request.commandId !in s.results && |s.results| < MAX_RESULTS
    ensures var n := Next(s, Observe(request));
            Settled(n) && SameDigest(n, request)
            && n.results[request.commandId].record.outcome == CommandOutcome.Applied
  {
    MoveKeepsSettled(s, Observe(request));
  }

  /** `begin` notices the other digest exactly when the command has a stored result and the attempt is not
      terminal and can be read back; otherwise it is refused and changes nothing. */
  lemma BeginMarksExactly(w: World, s: AttemptState, task: TaskCommand, contract: Contract, v2: bool)
    requires Holds(w, s, task) && OtherDigest(s, ValidateTask(task).value)
    requires Acceptable(contract, v2) && contract.reference == s.reference
    ensures var readable := LoadLast(w.files[s.reference.attemptId]).Ok?;
            var stored := ValidateTask(task).value.commandId in s.results;
            var a := Begin(w, task, contract, v2);
            && (MarkedOrFailed(w, a, s) <==> stored && !s.Terminal() && readable)
            && (s.Terminal() ==> a == Answer(w, Err(AttemptTerminal)))
            && (!s.Terminal() && !readable ==> a == Answer(w, Err(LedgerInvalid)))
            && (!s.Terminal() && readable && !stored ==> a == Answer(w, Err(PayloadDigestConflict)))
  {
    var request := ValidateTask(task).value;
    assert Begin(w, task, contract, v2) == Claim(w, request, StoredContract(contract, v2));
    ClaimMarksExactly(w, s, task, StoredContract(contract, v2), Claim(w, request, StoredContract(contract, v2)));
  }

  lemma ClaimMarksExactly(w: World, s: AttemptState, task: TaskCommand, contract: Contract, a: Answer)
    requires Holds(w, s, task) && OtherDigest(s, ValidateTask(task).value)
    requires a == Claim(w, ValidateTask(task).value, contract)
    ensures var readable := LoadLast(w.files[s.reference.attemptId]).Ok?;
            var stored := ValidateTask(task).value.commandId in s.results;
            && (MarkedOrFailed(w, a, s) <==> stored && !s.Terminal() && readable)
            && (s.Terminal() ==> a == Answer(w, Err(AttemptTerminal)))
            && (!s.Terminal() && !readable ==> a == Answer(w, Err(LedgerInvalid)))
            && (!s.Terminal() && readable && !stored ==> a == Answer(w, Err(PayloadDigestConflict)))
  {
    var request := ValidateTask(task).value;
    if !s.Terminal() {
      NamedIsActive(w, s);
      ClaimAgain(w, s, request, contract, LoadNamed(w, request.reference.attemptId));
      ConflictIsDecided(s, request, Mode.Finish, 0, LedgerInvalid);
      if request.commandId in s.results {
        ConflictMarks(w, s, task);
        ReceiptsStillMark(w, Execute(w, s, DecideConflict(s, request)), s);
      }
    }
  }

  lemma ReceiptsStillMark(w: World, a: Answer, s: AttemptState)
    requires MarkedOrFailed(w, a, s)
    ensures MarkedOrFailed(w, Answer(a.world, ReceiptOnly(a.reply)), s)
  {
  }

  /** Under another attempt's reference nothing is replayed and nothing is marked. The stored outcome still
      answers `prepare` and `reject`, which look the command up before they compare references. */
  lemma OtherReferenceIsRefused(w: World, s: AttemptState, task: TaskCommand, mode: Mode, now: int, code: ErrorCode)
    requires w.loaded && w.active == Some(s)
    requires ValidateTask(task).Ok? && s.reference != ValidateTask(task).value.reference
    ensures Replay(w, task) == Answer(w, Err(ContractMismatch))
    ensures Inspect(w, task) == Answer(w, Err(ContractMismatch))
    ensures ReportConflict(w, task) == Answer(w, Err(ContractMismatch))
    ensures Prepare(w, task, mode, now) == Reject(w, task, code)
    ensures Prepare(w, task, mode, now) ==
            Answer(w, if SameDigest(s, ValidateTask(task).value) then StoredReply(s, ValidateTask(task).value)
                      else Err(ContractMismatch))
  {
    CallsDecide(w, s, task, mode, now, code);
    OtherReferenceIsDeclined(s, ValidateTask(task).value, mode, now, code);
  }

  lemma OtherReferenceIsDeclined(s: AttemptState, request: Request, mode: Mode, now: int, code: ErrorCode)
    requires s.reference != request.reference
    ensures DecideReplay(s, request) == DecideInspect(s, request) == DecideConflict(s, request)
            == Decline(ContractMismatch)
    ensures DecidePrepare(s, request, mode, now) == DecideReject(s, request, code) ==
            if SameDigest(s, request) then Give(StoredReply(s, request)) else Decline(ContractMismatch)
  {
  }
}
