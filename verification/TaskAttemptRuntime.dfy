/**
 The runtime itself: an active snapshot that every method takes, changes and puts
 back, and an append-only ledger directory. Each method is proved to do exactly
 what `AttemptLedger` says, so the theorems about runs apply to it.
 */
module TaskAttempts {
  import opened Outcomes
  import opened AttemptRecord
  import Ledger = AttemptLedger

  /** The ledger directory: one append-only file per attempt. `outages` says of the coming appends which will
      fail; all further ones work. */
  class AttemptDirectory {
    var files: map<string, Ledger.Log>
    var listing: seq<string>
    var outages: seq<bool>

    constructor (outages: seq<bool>)
      ensures files == map[] && listing == [] && this.outages == outages
    {
      files, listing := map[], [];
      this.outages := outages;
    }

    /** Whether the next append works. */
    predicate Works()
      reads this
    {
      outages == [] || !outages[0]
    }

    /** Appends one line, creating the file when it does not exist. */
    method AppendLine(name: string, line: AttemptState) returns (r: Result<()>)
      modifies this
      ensures r == if old(Works()) then Ok(()) else Err(LedgerUnavailable)
      ensures outages == if old(outages) == [] then [] else old(outages)[1..]
      ensures r.Err? ==> files == old(files) && listing == old(listing)
      ensures r.Ok? ==>
                && files == old(files)[name := (if name in old(files) then old(files)[name] else []) + [line]]
                && listing == if name in old(files) then old(listing) else old(listing) + [name]
    {
      var works := Works();
      if outages != [] {
        outages := outages[1..];
      }
      if !works {
        return Err(LedgerUnavailable);
      }
      if name !in files {
        files := files[name := []];
        listing := listing + [name];
      }
      files := files[name := files[name] + [line]];
      return Ok(());
    }
  }

  /** Rebuilds the command index by folding over every line, then validates the last snapshot. */
  method LoadLast(log: Ledger.Log) returns (r: Result<AttemptState>)
    ensures r == Ledger.LoadLast(log)
  {
    var last: Option<AttemptState> := None;
    var results: map<string, StoredResult> := map[];
    for n := 0 to |log|
      invariant results == Ledger.FoldResults(log[..n])
      invariant last == if n == 0 then None else Some(log[n - 1])
    {
      var state := log[n];
      assert log[..n + 1][..n] == log[..n];
      var line := state.results;
      if !state.InFlight() {
        line := line[state.last.commandId := StoredResult(state.last, state.resources)];
      }
      results := results + line;
      last := Some(state);
    }
    assert log[..|log|] == log;
    if last.None? {
      return Err(LedgerInvalid);
    }
    var state := last.value.(results := results);
    if !state.Valid() {
      return Err(LedgerInvalid);
    }
    return Ok(state);
  }

  class TaskAttemptRuntime {
    /** Without a ledger directory nothing is read or written. */
    const root: AttemptDirectory?
    var active: Option<AttemptState>
    var loaded: bool
    var recoveredActive: bool

    /** Whether the next append works. */
    ghost predicate Works()
      reads root
    {
      root == null || root.Works()
    }

    /** The world as the specification sees it, given what the append of a call did or will do. */
    ghost function Seen(writable: bool): Ledger.World
      reads this, root
    {
      Ledger.World(root != null, if root == null then map[] else root.files, if root == null then [] else root.listing,
                   writable, active, loaded, recoveredActive)
    }

    /** The world before the next call. */
    ghost function View(): Ledger.World
      reads this, root
    {
      Seen(Works())
    }

    /** A runtime without a ledger directory. */
    constructor Memory()
      ensures root == null && active == None && loaded && !recoveredActive
    {
      root, active, loaded, recoveredActive := null, None, true, false;
    }

    /** A runtime over a ledger directory; a restart is a new runtime over the same directory. */
    constructor At(directory: AttemptDirectory)
      ensures root == directory && active == None && !loaded && !recoveredActive
    {
      root, active, loaded, recoveredActive := directory, None, false, false;
    }

    method LoadActive() returns (r: Result<()>)
      modifies this
      ensures Ledger.Access(View(), r) == Ledger.LoadActive(old(View()))
    {
      if loaded {
        return Ok(());
      }
      if root == null {
        loaded := true;
        return Ok(());
      }
      var i := 0;
      while i < |root.listing|
        invariant i <= |root.listing|
        invariant !loaded
        invariant Ledger.Scan(View(), root.listing[i..]) == Ledger.LoadActive(old(View()))
      {
        assert root.listing[i..][1..] == root.listing[i + 1..];
        var name := root.listing[i];
        var state := LoadLast(if name in root.files then root.files[name] else []);
        if state.Err? {
          return Err(state.code);
        }
        if !state.value.resources.LocallyReleased() {
          r := Adopt(state.value);
          if r.Err? {
            return;
          }
        }
        i := i + 1;
      }
      loaded := true;
      return Ok(());
    }

    /** Adopts an attempt that still holds local resources. */
    method Adopt(state: AttemptState) returns (r: Result<()>)
      modifies this
      ensures loaded == old(loaded) && active == Some(state)
      ensures r == if old(active).Some? then Err(LedgerConflict) else Ok(())
      ensures recoveredActive == (old(active).None? || old(recoveredActive))
    {
      var previous := active;
      active := Some(state);
      if previous.Some? {
        return Err(LedgerConflict);
      }
      recoveredActive := true;
      return Ok(());
    }

    method Enter(task: TaskCommand) returns (r: Result<Request>)
      modifies this
      ensures Ledger.Entry(View(), r) == Ledger.Enter(old(View()), task)
    {
      var checked := ValidateTask(task);
      if checked.Err? {
        return Err(checked.code);
      }
      var load := LoadActive();
      if load.Err? {
        return Err(load.code);
      }
      return checked;
    }

    method RequireActive(task: TaskCommand) returns (r: Result<AttemptState>)
      modifies this
      ensures Ledger.Held(View(), r) == Ledger.RequireActive(old(View()), task)
    {
      var entered := Enter(task);
      if entered.Err? {
        return Err(entered.code);
      }
      if active.None? {
        return Err(AttemptNotFound);
      }
      if active.value.reference != entered.value.reference {
        return Err(ContractMismatch);
      }
      return Ok(active.value);
    }

    method LoadNamed(attemptId: string) returns (r: Result<Option<AttemptState>>)
      ensures r == Ledger.LoadNamed(View(), attemptId)
    {
      if root == null || attemptId !in root.files {
        return Ok(None);
      }
      var state := LoadLast(root.files[attemptId]);
      match state
      case Ok(s) => return Ok(Some(s));
      case Err(code) => return Err(code);
    }

    method Persist(state: AttemptState) returns (r: Result<()>)
      modifies root
      ensures Ledger.Access(Seen(old(Works())), r) == Ledger.Persist(old(View()), state)
    {
      if root == null {
        return Ok(());
      }
      var record := state.(results := map[]);
      r := root.AppendLine(state.reference.attemptId, record);
    }

    /** Puts a changed snapshot back and persists it, as every mutating call does last. */
    method PutBack(state: AttemptState) returns (r: Result<()>)
      modifies this, root
      ensures active == Some(state)
      ensures var kept := Ledger.Persist(old(View()), state);
              Seen(old(Works())) == kept.world.(active := Some(state)) && r == kept.result
    {
      r := Persist(state);
      active := Some(state);
    }

    /** The claim checks and the claim itself, shared by `begin` and `begin_v2`. */
    method Begin(task: TaskCommand, contract: Contract, v2: bool) returns (r: Result<Reply>)
      modifies this, root
      ensures Ledger.Answer(Seen(old(Works())), r) == Ledger.Begin(old(View()), task, contract, v2)
    {
      if if v2 then contract.reference.contractVersion != 3 || !contract.Verified() else !contract.StoredVerified() {
        return Err(ContractValueInvalid);
      }
      var checked := ValidateTask(task);
      if checked.Err? {
        return Err(checked.code);
      }
      var request := checked.value;
      if request.reference != contract.reference {
        return Err(ContractMismatch);
      }
      var load := LoadActive();
      if load.Err? {
        return Err(load.code);
      }
      r := Claim(request, if v2 then contract else contract.WithoutV3Terms());
    }

    method Claim(request: Request, contract: Contract) returns (r: Result<Reply>)
      modifies this, root
      ensures Ledger.Answer(Seen(old(Works())), r) == Ledger.Claim(old(View()), request, contract)
    {
      if active.Some?
         && active.value.reference.attemptId == request.reference.attemptId
         && active.value.Terminal() {
        return Err(AttemptTerminal);
      }
      var named := LoadNamed(request.reference.attemptId);
      if named.Err? {
        return Err(named.code);
      }
      if named.value.Some?
         && named.value.value.reference.attemptId == request.reference.attemptId
         && named.value.value.Terminal() {
        return Err(AttemptTerminal);
      }
      if active.Some? && !active.value.resources.LocallyReleased() {
        r := BeginAgain(request);
        return ReceiptOnly(r);
      }
      r := ClaimFresh(request, contract);
    }

    /** `begin` against an attempt that still holds local resources. */
    method BeginAgain(request: Request) returns (r: Result<Reply>)
      requires active.Some?
      modifies this, root
      ensures Ledger.Answer(Seen(old(Works())), r) ==
              Ledger.Execute(old(View()), old(active).value, Ledger.DecideBegin(old(active).value, request))
    {
      var state := active.value;
      if state.reference != request.reference {
        return Err(ContractMismatch);
      }
      if request.commandId in state.results {
        r := AnswerStored(request);
        return;
      }
      if state.last.commandId != request.commandId {
        return Err(AlreadyClaimed);
      }
      if state.last.digest != request.digest {
        return Err(ErrorCode.PayloadDigestConflict);
      }
      return Ok(Answered(None, ReceiptOf(state.reference, state.last, state.resources)));
    }

    method ClaimFresh(request: Request, contract: Contract) returns (r: Result<Reply>)
      modifies this, root
      ensures Ledger.Answer(Seen(old(Works())), r) == Ledger.ClaimFresh(old(View()), request, contract)
    {
      if active.Some? {
        active := None;
        recoveredActive := false;
      }
      var state := ClaimedState(contract, request);
      var appended := Persist(state);
      if appended.Err? {
        return Err(appended.code);
      }
      active := Some(state);
      recoveredActive := false;
      return Ok(Answered(None, ReceiptOf(state.reference, state.last, state.resources)));
    }

    method Inspect(task: TaskCommand) returns (r: Result<Reply>)
      modifies this, root
      ensures Ledger.Answer(Seen(old(Works())), r) == Ledger.Inspect(old(View()), task)
    {
      var entered := Enter(task);
      if entered.Err? {
        return Err(entered.code);
      }
      if active.None? {
        r := InspectNamed(entered.value);
      } else {
        r := InspectActive(entered.value);
        r := ReceiptOnly(r);
      }
    }

    method InspectActive(request: Request) returns (r: Result<Reply>)
      requires active.Some?
      modifies this, root
      ensures Ledger.Answer(Seen(old(Works())), r) ==
              Ledger.Execute(old(View()), old(active).value, Ledger.DecideInspect(old(active).value, request))
    {
      var state := active.value;
      if state.reference != request.reference {
        return Err(ContractMismatch);
      }
      if request.commandId in state.results {
        r := AnswerStored(request);
        return;
      }
      var recorded := RecordCommand(state, request, MAX_BUSINESS + MAX_INSPECT);
      if recorded.Err? {
        return Err(recorded.code);
      }
      state := recorded.value;
      state := state.(last := state.last.(outcome := CommandOutcome.Applied, sourceFrame := None, error := None));
      // The index has room: the limit just checked is below the bound of the store.
      state := StoreCurrent(state).value;
      var appended := PutBack(state);
      if appended.Err? {
        return Err(appended.code);
      }
      return Ok(Answered(None, ReceiptOf(state.reference, state.last, state.resources)));
    }

    /** `inspect` of an attempt that only the ledger remembers. */
    method InspectNamed(request: Request) returns (r: Result<Reply>)
      requires active.None?
      modifies this, root
      ensures Ledger.Answer(Seen(old(Works())), r) == Ledger.InspectNamed(old(View()), request)
    {
      hide Ledger.Execute, Ledger.DecideConflict, Ledger.ObserveNamed, RecordCommand, Next, Ledger.LoadNamed;
      var named := LoadNamed(request.reference.attemptId);
      if named.Err? {
        return Err(named.code);
      }
      if named.value.None? {
        return Ok(Answered(None, NOT_FOUND_RECEIPT));
      }
      var state := named.value.value;
      if state.reference != request.reference {
        return Err(ContractMismatch);
      }
      if request.commandId in state.results {
        var stored := state.results[request.commandId];
        if stored.record.digest != request.digest {
          active := Some(state);
          r := ConflictOnActive(request);
          return ReceiptOnly(r);
        }
        return ReceiptOnly(ResultOf(state.reference, stored.record, stored.resources));
      }
      r := RecordInspection(state, request);
    }

    /** The inspection is recorded in the ledger without making the attempt the active one. */
    method RecordInspection(attempt: AttemptState, request: Request) returns (r: Result<Reply>)
      requires request.commandId !in attempt.results
      modifies this, root
      ensures match RecordCommand(attempt, request, MAX_BUSINESS + MAX_INSPECT)
              case Err(code) => r == Err(code) && View() == old(View())
              case Ok(_) =>
                Ledger.Answer(Seen(old(Works())), r)
                == Ledger.ObserveNamed(old(View()), Next(attempt, Observe(request)))
    {
      var recorded := RecordCommand(attempt, request, MAX_BUSINESS + MAX_INSPECT);
      if recorded.Err? {
        return Err(recorded.code);
      }
      var state := recorded.value;
      state := state.(last := state.last.(outcome := CommandOutcome.Applied, sourceFrame := None, error := None));
      // The index has room: the limit just checked is below the bound of the store.
      state := StoreCurrent(state).value;
      r := ObserveNamed(state);
    }

    method ObserveNamed(state: AttemptState) returns (r: Result<Reply>)
      modifies root
      ensures Ledger.Answer(Seen(old(Works())), r) == Ledger.ObserveNamed(old(View()), state)
    {
      var appended := Persist(state);
      if appended.Err? {
        return Err(appended.code);
      }
      return Ok(Answered(None, ReceiptOf(state.reference, state.last, state.resources)));
    }

    method Replay(task: TaskCommand) returns (r: Result<Reply>)
      modifies this, root
      ensures Ledger.Answer(Seen(old(Works())), r) == Ledger.Replay(old(View()), task)
      ensures r == Ok(Proceed) ==> Works() == old(Works())
    {
      var entered := Enter(task);
      if entered.Err? {
        return Err(entered.code);
      }
      if active.None? {
        return Err(AttemptNotFound);
      }
      r := ReplayActive(entered.value);
    }

    method ReplayActive(request: Request) returns (r: Result<Reply>)
      requires active.Some?
      modifies this, root
      ensures Ledger.Answer(Seen(old(Works())), r) ==
              Ledger.Execute(old(View()), old(active).value, Ledger.DecideReplay(old(active).value, request))
      ensures r == Ok(Proceed) ==> Works() == old(Works())
    {
      var state := active.value;
      if state.reference != request.reference {
        return Err(ContractMismatch);
      }
      if request.commandId in state.results {
        r := AnswerStored(request);
        return;
      }
      if state.last.commandId != request.commandId {
        return Ok(Proceed);
      }
      if state.last.digest != request.digest {
        r := ConflictOnActive(request);
        return;
      }
      if state.InFlight() {
        r := InterruptLast(request);
        return;
      }
      return ResultOf(state.reference, state.last, state.resources);
    }

    /** A command found in flight is prepared again, which settles it as interrupted. */
    method InterruptLast(request: Request) returns (r: Result<Reply>)
      requires active.Some? && active.value.InFlight() && active.value.reference == request.reference
      requires request.commandId !in active.value.results
      requires active.value.last.commandId == request.commandId && active.value.last.digest == request.digest
      modifies this, root
      ensures Ledger.Answer(Seen(old(Works())), r) ==
              Ledger.Execute(old(View()), old(active).value,
                             Ledger.DecidePrepare(old(active).value, request, Ledger.Effect, 0))
      ensures r != Ok(Proceed)
    {
      assert Ledger.DecidePrepare(active.value, request, Ledger.Effect, 0)
          == Ledger.Write(Interrupt(true), Ledger.AckResult);
      r := PrepareInner(request, Ledger.Effect, 0);
    }

    method PayloadDigestConflict(task: TaskCommand) returns (r: Result<Reply>)
      modifies this, root
      ensures Ledger.Answer(Seen(old(Works())), r) == Ledger.ReportConflict(old(View()), task)
    {
      var entered := Enter(task);
      if entered.Err? {
        return Err(entered.code);
      }
      if active.None? {
        return Err(AttemptNotFound);
      }
      r := ConflictOnActive(entered.value);
    }

    /** `payload_digest_conflict` once the active attempt is at hand. */
    method ConflictOnActive(request: Request) returns (r: Result<Reply>)
      requires active.Some?
      modifies this, root
      ensures Ledger.Answer(Seen(old(Works())), r) ==
              Ledger.Execute(old(View()), old(active).value, Ledger.DecideConflict(old(active).value, request))
    {
      var state := active.value;
      if state.reference != request.reference {
        return Err(ContractMismatch);
      }
      var known: Option<string> := None;
      if request.commandId in state.results {
        known := Some(state.results[request.commandId].record.digest);
      } else if state.last.commandId == request.commandId {
        known := Some(state.last.digest);
      }
      if known.None? || known.value == request.digest {
        return Err(ErrorCode.PayloadDigestConflict);
      }
      state := state.(resources := state.resources.(sideEffect := SideEffectState.Uncertain, cleanup := false,
                                                    error := Some(ErrorCode.PayloadDigestConflict)));
      var appended := PutBack(state);
      if appended.Err? {
        return Err(appended.code);
      }
      return Ok(ConflictReply(state, request, known.value));
    }

    /** The answer to a command id that is already in the index. */
    method AnswerStored(request: Request) returns (r: Result<Reply>)
      requires active.Some? && request.commandId in active.value.results
      modifies this, root
      ensures Ledger.Answer(Seen(old(Works())), r) ==
              Ledger.Execute(old(View()), old(active).value, Ledger.DecideStored(old(active).value, request))
    {
      var stored := active.value.results[request.commandId];
      if stored.record.digest != request.digest {
        r := ConflictOnActive(request);
        return;
      }
      return ResultOf(active.value.reference, stored.record, stored.resources);
    }

    method Reject(task: TaskCommand, code: ErrorCode) returns (r: Result<Reply>)
      modifies this, root
      ensures Ledger.Answer(Seen(old(Works())), r) == Ledger.Reject(old(View()), task, code)
    {
      var entered := Enter(task);
      if entered.Err? {
        return Err(entered.code);
      }
      if active.None? {
        return Err(AttemptNotFound);
      }
      r := RejectActive(entered.value, code);
    }

    method RejectActive(request: Request, code: ErrorCode) returns (r: Result<Reply>)
      requires active.Some?
      modifies this, root
      ensures Ledger.Answer(Seen(old(Works())), r) ==
              Ledger.Execute(old(View()), old(active).value, Ledger.DecideReject(old(active).value, request, code))
    {
      var state := active.value;
      if request.commandId in state.results {
        r := AnswerStored(request);
        return;
      }
      if state.last.commandId == request.commandId && state.last.digest != request.digest {
        r := ConflictOnActive(request);
        return;
      }
      if state.reference != request.reference {
        return Err(ContractMismatch);
      }
      if state.last.commandId == request.commandId && !state.InFlight() {
        return ResultOf(state.reference, state.last, state.resources);
      }
      r := RecordRefusal(request, code);
    }

    method RecordRefusal(request: Request, code: ErrorCode) returns (r: Result<Reply>)
      requires active.Some?
      modifies this, root
      ensures Ledger.Answer(Seen(old(Works())), r) ==
              Ledger.Execute(old(View()), old(active).value,
                             match RecordCommand(old(active).value, request, MAX_BUSINESS)
                             case Err(error) => Ledger.Decline(error)
                             case Ok(_) => Ledger.Write(Move.Refuse(request, code), Ledger.AckResult))
    {
      var recorded := RecordCommand(active.value, request, MAX_BUSINESS);
      if recorded.Err? {
        return Err(recorded.code);
      }
      var state := recorded.value;
      state := state.(
        last := state.last.(outcome := CommandOutcome.NotApplied, sourceFrame := None, error := Some(code)),
        resources := state.resources.(error := Some(code)));
      assert state == Apply(active.value, Move.Refuse(request, code));
      r := StoreAndReport(state);
    }

    /** The common tail of every call that settles the last command. */
    method StoreAndReport(state: AttemptState) returns (r: Result<Reply>)
      modifies this, root
      ensures match StoreCurrent(state)
              case Err(code) => r == Err(code) && Seen(old(Works())) == old(View()).(active := Some(state))
              case Ok(stored) =>
                Ledger.Answer(Seen(old(Works())), r) == Ledger.Commit(old(View()), stored, false, Ledger.AckResult)
    {
      var stored := StoreCurrent(state);
      if stored.Err? {
        active := Some(state);
        return Err(stored.code);
      }
      var appended := PutBack(stored.value);
      if appended.Err? {
        return Err(appended.code);
      }
      r := ResultOf(stored.value.reference, stored.value.last, stored.value.resources);
      if r.Err? {
        active := None;
      }
    }

    method Prepare(task: TaskCommand, mode: Ledger.Mode, now: int) returns (r: Result<Reply>)
      modifies this, root
      ensures Ledger.Answer(Seen(old(Works())), r) == Ledger.Prepare(old(View()), task, mode, now)
    {
      var entered := Enter(task);
      if entered.Err? {
        return Err(entered.code);
      }
      if active.None? {
        return Err(AttemptNotFound);
      }
      r := PrepareInner(entered.value, mode, now);
    }

    /** `prepare_inner` once the active attempt is at hand. */
    method PrepareInner(request: Request, mode: Ledger.Mode, now: int) returns (r: Result<Reply>)
      requires active.Some?
      modifies this, root
      ensures Ledger.Answer(Seen(old(Works())), r) ==
              Ledger.Execute(old(View()), old(active).value,
                             Ledger.DecidePrepare(old(active).value, request, mode, now))
    {
      hide ResultOf, Ledger.Persist, Ledger.DecideConflict, Ledger.DecideStored;
      var state := active.value;
      if request.commandId in state.results {
        r := AnswerStored(request);
        return;
      }
      if state.last.commandId == request.commandId && state.last.digest != request.digest {
        r := ConflictOnActive(request);
        return;
      }
      if state.reference != request.reference {
        return Err(ContractMismatch);
      }
      var limited := mode.Effect? || mode.Business?;
      if state.last.commandId == request.commandId {
        if !state.InFlight() {
          return ResultOf(state.reference, state.last, state.resources);
        }
        if !limited {
          return Ok(Proceed);
        }
        var outcome, error := CommandOutcome.NotApplied, CommandInterrupted;
        if mode.Effect? && state.resources.sideEffect == SideEffectState.IntentRecorded {
          state := state.(resources := state.resources.(sideEffect := SideEffectState.Uncertain));
          outcome, error := CommandOutcome.Uncertain, SideEffectUncertain;
        }
        state := state.(last := state.last.(outcome := outcome, error := Some(error)));
        state := state.(resources := state.resources.(error := Some(error)));
        r := StoreAndReport(state);
        return;
      }
      if limited && state.Terminal() {
        return Err(AttemptTerminal);
      }
      if limited && state.contract.reference.contractVersion > 1 && state.contract.deadline <= now {
        return Err(ContractExpired);
      }
      if limited && state.resources.Unresolved() {
        return Err(SideEffectUncertain);
      }
      var recorded := RecordCommand(state, request, mode.Limit());
      if recorded.Err? {
        return Err(recorded.code);
      }
      state := recorded.value;
      state := state.(last := state.last.(outcome := CommandOutcome.Unspecified, sourceFrame := None, error := None));
      state := state.(resources := state.resources.(error := None));
      if mode.Effect? {
        state := state.(resources := state.resources.(sideEffect := SideEffectState.IntentRecorded,
                                                      lastSideEffectId := request.commandId));
      }
      var appended := PutBack(state);
      if appended.Err? {
        return Err(appended.code);
      }
      return Ok(Proceed);
    }

    /** Every `complete_*` call: the outcome and error first, then the side effect, then the
        update that belongs to the completed command. */
    method Complete(task: TaskCommand, c: Completion) returns (r: Result<Reply>)
      modifies this, root
      ensures Ledger.Answer(Seen(old(Works())), r) == Ledger.Complete(old(View()), task, c)
    {
      var checked: Result<Request>;
      if c.Finish? {
        checked := Enter(task);
      } else {
        checked := ValidateTask(task);
      }
      if checked.Err? {
        return Err(checked.code);
      }
      if active.None? {
        return Err(AttemptNotFound);
      }
      r := CompleteActive(checked.value, c);
    }

    method CompleteActive(request: Request, c: Completion) returns (r: Result<Reply>)
      requires active.Some?
      modifies this, root
      ensures Ledger.Answer(Seen(old(Works())), r) ==
              Ledger.Execute(old(View()), old(active).value, Ledger.DecideComplete(old(active).value, request, c))
    {
      var state := active.value;
      if c.Finish? && state.reference != request.reference {
        return Err(ContractMismatch);
      }
      if state.last.commandId != request.commandId {
        return Err(AlreadyClaimed);
      }
      if state.last.digest != request.digest {
        return Err(ErrorCode.PayloadDigestConflict);
      }
      var outcome := CompletionOutcome(state, c);
      var error := CompletionError(state, c);
      var resources := CompletedResources(state, c);
      state := state.(last := state.last.(outcome := outcome, sourceFrame := CompletionSource(c), error := error));
      state := state.(resources := resources.(error := error));
      if c.SettlesSideEffect() {
        state := state.(resources := state.resources.(sideEffect := SideEffectAfter(outcome)));
      }
      if c.TargetStart? {
        state := state.(ownedTarget := c.binding);
      }
      if c.Finish? {
        state := state.(ownedTarget := None);
      }
      r := StoreAndReport(state);
    }

    method RefreshOwnedTarget(reference: AttemptRef, binding: TargetBinding) returns (r: Result<Reply>)
      modifies this, root
      ensures Ledger.Answer(Seen(old(Works())), r) == Ledger.RefreshTarget(old(View()), reference, binding)
    {
      var load := LoadActive();
      if load.Err? {
        return Err(load.code);
      }
      if active.None? {
        return Err(AttemptNotFound);
      }
      r := RefreshActive(reference, binding);
    }

    method RefreshActive(reference: AttemptRef, binding: TargetBinding) returns (r: Result<Reply>)
      requires active.Some?
      modifies this, root
      ensures Ledger.Answer(Seen(old(Works())), r) ==
              Ledger.Execute(old(View()), old(active).value,
                             Ledger.DecideRefresh(old(active).value, reference, binding))
    {
      var state := active.value;
      if state.reference != reference {
        return Err(ContractMismatch);
      }
      if state.ownedTarget.None? {
        return Err(TargetInvalid);
      }
      var previous := state.ownedTarget.value;
      if previous.profileId != binding.profileId
         || previous.profileVersion != binding.profileVersion
         || previous.processId != binding.processId
         || previous.startedAt != binding.startedAt
         || previous.pathSha256 != binding.pathSha256 {
        return Err(TargetStale);
      }
      assert previous.(windowHandle := binding.windowHandle) == binding;
      state := state.(ownedTarget := Some(binding));
      assert state == Apply(active.value, Move.Refresh(binding));
      var appended := PutBack(state);
      if appended.Err? {
        return Err(appended.code);
      }
      return Ok(Done);
    }

    method EmergencyFinish(inputReleased: bool, captureStopped: bool, targetRunning: bool, error: Option<ErrorCode>)
      returns (r: Result<Reply>)
      modifies this, root
      ensures Ledger.Answer(Seen(old(Works())), r) ==
              Ledger.Impose(old(View()), Move.Emergency(inputReleased, captureStopped, targetRunning, error))
    {
      var load := LoadActive();
      if load.Err? {
        return Err(load.code);
      }
      if active.None? {
        return Ok(Absent);
      }
      r := EmergencyActive(inputReleased, captureStopped, targetRunning, error);
    }

    method EmergencyActive(inputReleased: bool, captureStopped: bool, targetRunning: bool, error: Option<ErrorCode>)
      returns (r: Result<Reply>)
      requires active.Some?
      modifies this, root
      ensures Ledger.Answer(Seen(old(Works())), r) ==
              Ledger.Execute(old(View()), old(active).value,
                             Ledger.Write(Move.Emergency(inputReleased, captureStopped, targetRunning, error),
                                          Ledger.AckReceipt))
    {
      var state := active.value;
      var resolved := !state.resources.Unresolved();
      var cleanup := inputReleased && captureStopped && resolved;
      state := state.(
        resources := state.resources.(
          phase := AttemptPhase.Terminal,
          input := ReleasedInput(inputReleased),
          capture := if captureStopped then CaptureState.Stopped else CaptureState.Unknown,
          target := if targetRunning then TargetState.Running else TargetState.NotStarted,
          cleanup := cleanup,
          error := OrElse(error, FinishError(resolved, cleanup))),
        ownedTarget := None);
      assert state == Apply(active.value, Move.Emergency(inputReleased, captureStopped, targetRunning, error));
      var appended := Persist(state);
      if appended.Err? {
        return Err(appended.code);
      }
      active := Some(state);
      return Ok(Answered(None, ReceiptOf(state.reference, state.last, state.resources)));
    }

    method MarkActiveSideEffectUncertain(code: ErrorCode, inputReleased: bool) returns (r: Result<Reply>)
      modifies this, root
      ensures Ledger.Answer(Seen(old(Works())), r)
              == Ledger.Impose(old(View()), Move.MarkUncertain(code, inputReleased))
    {
      var load := LoadActive();
      if load.Err? {
        return Err(load.code);
      }
      if active.None? {
        return Ok(Absent);
      }
      r := UncertainActive(code, inputReleased);
    }

    method UncertainActive(code: ErrorCode, inputReleased: bool) returns (r: Result<Reply>)
      requires active.Some?
      modifies this, root
      ensures Ledger.Answer(Seen(old(Works())), r) ==
              Ledger.Execute(old(View()), old(active).value,
                             Ledger.Write(Move.MarkUncertain(code, inputReleased), Ledger.AckReceipt))
    {
      var state := active.value;
      state := state.(
        resources := state.resources.(
          sideEffect := SideEffectState.Uncertain, input := ReleasedInput(inputReleased), cleanup := false,
          error := Some(code)));
      var appended := PutBack(state);
      if appended.Err? {
        return Err(appended.code);
      }
      return Ok(Answered(None, ReceiptOf(state.reference, state.last, state.resources)));
    }

    method MarkInputReleased(code: ErrorCode) returns (r: Result<Reply>)
      modifies this, root
      ensures Ledger.Answer(Seen(old(Works())), r) == Ledger.Impose(old(View()), Move.MarkReleased(code))
    {
      var load := LoadActive();
      if load.Err? {
        return Err(load.code);
      }
      if active.None? {
        return Ok(Absent);
      }
      r := ReleasedActive(code);
    }

    method ReleasedActive(code: ErrorCode) returns (r: Result<Reply>)
      requires active.Some?
      modifies this, root
      ensures Ledger.Answer(Seen(old(Works())), r) ==
              Ledger.Execute(old(View()), old(active).value, Ledger.Write(Move.MarkReleased(code), Ledger.AckReceipt))
    {
      var state := active.value;
      state := state.(
        resources := state.resources.(
          input := InputState.Released, cleanup := false, error := Some(code)));
      var appended := PutBack(state);
      if appended.Err? {
        return Err(appended.code);
      }
      return Ok(Answered(None, ReceiptOf(state.reference, state.last, state.resources)));
    }

    method IsActive() returns (r: Result<Reply>)
      modifies this
      ensures Ledger.Answer(View(), r) == Ledger.IsActive(old(View()))
    {
      var load := LoadActive();
      if load.Err? {
        return Err(load.code);
      }
      return Ok(Flag(active.Some? && !active.value.resources.LocallyReleased()));
    }
  }
}
