/**
 What may happen when the assumption about failed appends does not hold: exactly when
 a side effect whose result was lost is granted a second time, and what a claim over
 an unreleased ledger leads to.
 */
module LedgerLosses {
  import opened Outcomes
  import opened AttemptRecord
  import opened Ledger = AttemptLedger
  import opened LedgerMoves
  import opened LedgerWorlds
  import opened LedgerRuns
  import opened LedgerTheorems

  // ------------------------------------------------------------ a lost result

  /** The next line after an unsaved result, when it records another command. */
  function LosingLog(s: AttemptState, m: Move, log: Log): Log {
    log + [Next(s, m).Snapshot()]
  }

  /** What is left of the index: everything but the lost result. */
  ghost predicate IsPart(part: map<string, StoredResult>, whole: map<string, StoredResult>) {
    forall id :: id in part ==> id in whole && part[id].record == whole[id].record
  }

  lemma LosingResults(s: AttemptState, m: Move, log: Log)
    requires Settled(s) && Enabled(s, m) && Carries(s, log) && Unsaved(s, log) && m.Records()
    ensures var n := Next(s, m);
            var part := FoldResults(LosingLog(s, m, log));
            && IsPart(part, n.results) && s.last.commandId !in part && s.last.commandId != n.last.commandId
            && (!n.InFlight() ==> n.last.commandId in part)
  {
    MoveKeepsSettled(s, m);
    ResultIsLostExactly(s, m, log);
    SnapshotAddsItsOutcome(s);
    AllButOne(FoldResults(log), s.last.commandId, StoredResult(s.last, s.resources), s.results);
    assert IsPart(FoldResults(log), s.results);
    PartGrows(s, Next(s, m), log);
  }

  lemma PartGrows(s: AttemptState, n: AttemptState, log: Log)
    requires IsPart(FoldResults(log), s.results)
    requires if n.InFlight() then n.results == s.results
             else n.results == s.results[n.last.commandId := StoredResult(n.last, n.resources)]
    ensures IsPart(FoldResults(log + [n.Snapshot()]), n.results)
    ensures !n.InFlight() ==> n.last.commandId in FoldResults(log + [n.Snapshot()])
  {
    FoldAppend(log, n.Snapshot());
    SnapshotAddsItsOutcome(n);
  }

  /** The ledger that lost a result is still in order. */
  lemma LosingLogIsOk(s: AttemptState, m: Move, log: Log)
    requires Settled(s) && Enabled(s, m) && Carries(s, log) && Unsaved(s, log) && m.Records()
    ensures var after := LosingLog(s, m, log);
            && LogOk(s.reference.attemptId, after)
            && Fold(after) == Next(s, m).(results := FoldResults(after))
            && s.last.commandId !in FoldResults(after) && s.last.commandId != Next(s, m).last.commandId
  {
    MoveKeepsSettled(s, m);
    LosingResults(s, m, log);
    PartSettles(Next(s, m), FoldResults(LosingLog(s, m, log)));
  }

  /** A part of the index that has the last result agrees with the last command as the whole does. */
  lemma PartSettles(n: AttemptState, part: map<string, StoredResult>)
    requires Settled(n) && IsPart(part, n.results)
    requires !n.InFlight() ==> n.last.commandId in part
    ensures Settled(n.(results := part))
  {
    assert n.results.Keys == part.Keys + (n.results.Keys - part.Keys);
    assert |part| == |part.Keys| && |n.results| == |n.results.Keys|;
  }

  /** After a restart a command that is not on record gets the go-ahead for its side effect exactly when the
      attempt is resolved, not terminal, and has room. */
  lemma UnknownIsGrantedExactly(s: AttemptState, request: Request, now: int)
    requires s.reference == request.reference
    requires request.commandId !in s.results && request.commandId != s.last.commandId
    requires request.sessionId != s.last.sessionId
    requires s.contract.reference.contractVersion <= 1 || now < s.contract.deadline
    ensures var v := DecidePrepare(s, request, Effect, now);
            if !s.Terminal() && !s.resources.Unresolved() && |s.results| < MAX_BUSINESS
            then v == Write(Grant(request, true), AckProceed)
            else v.Decline?
  {
  }

  /** What a restart over readable ledgers finds when exactly one attempt is busy. */
  lemma BusyIsRecovered(w: World, listing: seq<string>, name: string)
    requires DiskOk(w) && OthersIdle(w.files, name) && name in w.files && !Idle(w.files[name])
    requires ListsFiles(listing, w.files) && !Unreadable(w.files)
    ensures var read := LoadActive(Restarted(w, listing));
            && read.result.Ok? && read.world.loaded && read.world.durable
            && read.world.writable == w.writable
            && read.world.active == Some(Fold(w.files[name])) && Settled(Fold(w.files[name]))
  {
    var r := Restarted(w, listing);
    assert OneBusy(w.files);
    LoadKeeps(r);
    ScanSucceeds(r, listing);
    assert name in listing;
  }

  lemma GrantedAfterReading(w: World, s: AttemptState, task: TaskCommand, now: int)
    requires ValidateTask(task).Ok?
    requires var read := LoadActive(w); read.result.Ok? && read.world.loaded && read.world.active == Some(s)
    requires var w1 := LoadActive(w).world; w1.durable && w1.writable && Settled(s)
    requires var v := DecidePrepare(s, ValidateTask(task).value, Effect, now);
             v.Decline? || (v.Write? && v.ack.AckProceed?)
    ensures Ledger.Prepare(w, task, Effect, now).reply == Ok(Proceed)
            <==> DecidePrepare(s, ValidateTask(task).value, Effect, now).Write?
  {
    var w1 := LoadActive(w).world;
    var v := DecidePrepare(s, ValidateTask(task).value, Effect, now);
    assert Ledger.Prepare(w, task, Effect, now) == Execute(w1, s, v);
    PrepareIsSound(s, ValidateTask(task).value, Effect, now);
    ExecuteFacts(w1, s, v);
  }

  /** The side effect `s.last` was carried out, its result is in memory only, and the next line records another
      command. After a restart the same command, in a new session and before the deadline, gets the go-ahead
      again exactly when that line left the attempt resolved and not terminal and the journal has room. */
  lemma LostResultIsGrantedAgain(
    w: World, s: AttemptState, m: Move, listing: seq<string>, task: TaskCommand, now: int)
    requires Healthy(w) && w.writable && w.loaded && w.active == Some(s) && LacksResult(w)
    requires Enabled(s, m) && m.Records() && !Next(s, m).resources.LocallyReleased()
    requires var after := Append(w, Next(s, m));
             ListsFiles(listing, after.files) && !Unreadable(after.files)
    requires ValidateTask(task).Ok? && ValidateTask(task).value.reference == s.reference
    requires ValidateTask(task).value.commandId == s.last.commandId
    requires ValidateTask(task).value.sessionId != Next(s, m).last.sessionId
    requires s.contract.reference.contractVersion <= 1 || now < s.contract.deadline
    ensures var n := Next(s, m);
            var after := Append(w, n);
            Ledger.Prepare(Restarted(after, listing), task, Effect, now).reply == Ok(Proceed)
            <==> !n.Terminal() && !n.resources.Unresolved()
                 && |FoldResults(LosingLog(s, m, w.files[s.reference.attemptId]))| < MAX_BUSINESS
  {
    var name := s.reference.attemptId;
    var log := LosingLog(s, m, w.files[name]);
    LosingWorldIsOk(w, s, m);
    LosingLogIsOk(s, m, w.files[name]);
    RegrantedExactly(Append(w, Next(s, m)), Next(s, m), log, listing, task, now);
  }

  lemma LosingWorldIsOk(w: World, s: AttemptState, m: Move)
    requires Healthy(w) && w.loaded && w.active == Some(s) && LacksResult(w)
    requires Enabled(s, m) && m.Records()
    ensures var after := Append(w, Next(s, m));
            && DiskOk(after) && OthersIdle(after.files, s.reference.attemptId)
            && Next(s, m).reference == s.reference && Next(s, m).contract == s.contract
            && s.reference.attemptId in after.files
            && after.files[s.reference.attemptId] == LosingLog(s, m, w.files[s.reference.attemptId])
  {
    hide Fold, LogOk, Settled;
    var name := s.reference.attemptId;
    MoveKeepsSettled(s, m);
    LosingLogIsOk(s, m, w.files[name]);
    StoreLogKeepsDisk(w, Append(w, Next(s, m)), name, LosingLog(s, m, w.files[name]));
  }

  /** A restart over such a ledger. */
  lemma RegrantedExactly(after: World, n: AttemptState, log: Log, listing: seq<string>, task: TaskCommand, now: int)
    requires DiskOk(after) && after.writable && OthersIdle(after.files, n.reference.attemptId)
    requires n.reference.attemptId in after.files && after.files[n.reference.attemptId] == log && log != []
    requires Fold(log) == n.(results := FoldResults(log)) && !n.resources.LocallyReleased()
    requires ListsFiles(listing, after.files) && !Unreadable(after.files)
    requires ValidateTask(task).Ok? && ValidateTask(task).value.reference == n.reference
    requires ValidateTask(task).value.commandId !in FoldResults(log)
    requires ValidateTask(task).value.commandId != n.last.commandId
    requires ValidateTask(task).value.sessionId != n.last.sessionId
    requires n.contract.reference.contractVersion <= 1 || now < n.contract.deadline
    ensures Ledger.Prepare(Restarted(after, listing), task, Effect, now).reply == Ok(Proceed)
            <==> !n.Terminal() && !n.resources.Unresolved() && |FoldResults(log)| < MAX_BUSINESS
  {
    hide Ledger.Prepare, LoadActive, DecidePrepare, Restarted, Settled;
    BusyIsRecovered(after, listing, n.reference.attemptId);
    UnknownIsGrantedExactly(Fold(log), ValidateTask(task).value, now);
    GrantedAfterReading(Restarted(after, listing), Fold(log), task, now);
  }

  // ---------------------------------------------- a claim over a busy ledger

  /** Two ledgers that hold local resources stop the runtime at the next restart. */
  lemma TwoBusyLedgersStopTheRuntime(w: World, listing: seq<string>, a: string, b: string)
    requires DiskOk(w) && ListsFiles(listing, w.files)
    requires a in w.files && b in w.files && a != b && Busy(w.files[a]) && Busy(w.files[b])
    ensures LoadActive(Restarted(w, listing)).result.Err?
  {
    var r := Restarted(w, listing);
    if LoadActive(r).result.Ok? {
      ScanSucceeds(r, listing);
    }
  }

  lemma {:induction false} ReadableScanFailsByConflict(w: World, names: seq<string>)
    requires forall name :: name in names ==> LoadLast(LogOf(w, name)).Ok?
    requires Scan(w, names).result.Err?
    ensures Scan(w, names).result == Err(LedgerConflict)
    decreases |names|
  {
    hide LoadLast, Resources.LocallyReleased;
    if names != [] {
      assert forall name :: name in names[1..] ==> name in names;
      assert LoadLast(LogOf(w, names[0])).Ok?;
      var s := LoadLast(LogOf(w, names[0])).value;
      if s.resources.LocallyReleased() {
        ReadableScanFailsByConflict(w, names[1..]);
      } else if w.active.None? {
        var w1 := w.(active := Some(s), recovered := true);
        assert forall name :: LogOf(w1, name) == LogOf(w, name);
        ReadableScanFailsByConflict(w1, names[1..]);
      }
    }
  }

  /** What a restart finds: a conflict exactly when two attempts hold local resources, if every ledger can be read;
      an invalid ledger, if one cannot be read and no two attempts hold anything. Without a directory there is
      nothing to read. */
  lemma RestartIsAnsweredExactly(w: World, listing: seq<string>)
    requires DiskOk(w) && ListsFiles(listing, w.files)
    ensures var result := LoadActive(Restarted(w, listing)).result;
            && (!Unreadable(w.files) ==> (if OneBusy(w.files) then result.Ok? else result == Err(LedgerConflict)))
            && (Unreadable(w.files) && OneBusy(w.files) ==> result == Err(LedgerInvalid))
    ensures LoadActive(w.(durable := false, loaded := false)) == Access(w.(durable := false, loaded := true), Ok(()))
  {
    var r := Restarted(w, listing);
    ScanFrame(r, listing);
    if LoadActive(r).result.Err? {
      ScanFails(r, listing);
      if !Unreadable(w.files) {
        ReadableScanFailsByConflict(r, listing);
      } else if LoadActive(r).result == Err(LedgerConflict) {
        ScanConflicts(r, listing);
      }
    } else {
      ScanSucceeds(r, listing);
    }
  }

  /** A new attempt is claimed over one that holds nothing any more in memory. If its ledger does not say so,
      because the append failed, the next restart finds two attempts and answers nothing; if it does, there is
      no conflict. */
  lemma ClaimOverUnreleasedExactly(w: World, request: Request, contract: Contract, listing: seq<string>)
    requires Healthy(w) && w.writable && w.loaded && w.active.Some? && w.active.value.resources.LocallyReleased()
    requires request.reference.attemptId !in w.files
    requires ListsFiles(listing, ClaimFresh(w, request, contract).world.files)
    requires !Unreadable(ClaimFresh(w, request, contract).world.files)
    ensures LoadActive(Restarted(ClaimFresh(w, request, contract).world, listing)).result.Ok?
            <==> ReleasedOnDisk(w)
  {
    hide ClaimFresh, LoadActive, Fold, LogOk, Settled;
    var s := ClaimedState(contract, request);
    var name, former := request.reference.attemptId, w.active.value.reference.attemptId;
    var after := ClaimFresh(w, request, contract).world;
    var log := [s.Snapshot()];
    ClaimFreshFacts(w, request, contract);
    assert LogOf(w, name) + [s.Snapshot()] == log;
    assert after.files == w.files[name := log];
    ClaimMirrors(contract, request);
    MirroredLogIsOk(s, log);
    StoreLogKeepsDisk(w, after, name, log);
    assert Busy(after.files[name]) && after.files[former] == w.files[former];
    if ReleasedOnDisk(w) {
      BusyIsRecovered(after, listing, name);
    } else {
      TwoBusyLedgersStopTheRuntime(after, listing, former, name);
    }
  }
}
