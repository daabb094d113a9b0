/**
 What every change of a snapshot keeps, and why the folded ledger mirrors the
 snapshot in memory although each line is written with its index cleared.
 */
module LedgerMoves {
  import opened Outcomes
  import opened AttemptRecord
  import opened AttemptLedger

  /** The command index and the last command agree: a settled command is stored under its own id
      with the outcome it has now, a command in flight is not stored and has a place reserved. */
  ghost predicate Settled(s: AttemptState) {
    && (forall id :: id in s.results ==>
          s.results[id].record.commandId == id && s.results[id].record.outcome != CommandOutcome.Unspecified)
    && (!s.InFlight() ==> s.last.commandId in s.results && s.results[s.last.commandId].record == s.last)
    && (s.InFlight() ==> s.last.commandId !in s.results && |s.results| < MAX_RESULTS)
    && |s.results| <= MAX_RESULTS
  }

  /** When a move is made at all. */
  ghost predicate Enabled(s: AttemptState, m: Move) {
    match m
    case Observe(request) => request.commandId !in s.results && |s.results| < MAX_RESULTS
    case Refuse(request, _) => request.commandId !in s.results && |s.results| < MAX_RESULTS
    case Grant(request, _) => request.commandId !in s.results && |s.results| < MAX_RESULTS
    case Interrupt(_) => s.InFlight()
    case Complete(c) => s.InFlight() && CompletionOutcome(s, c) != CommandOutcome.Unspecified
    case _ => true
  }

  /** A move settles the last command under a new id, or leaves the index alone. */
  lemma MoveKeepsSettled(s: AttemptState, m: Move)
    requires Settled(s) && Enabled(s, m)
    ensures Settled(Next(s, m))
    ensures Next(s, m).reference == s.reference && Next(s, m).contract == s.contract
    ensures m.Stores() ==>
              && !Next(s, m).InFlight()
              && Next(s, m).last.commandId !in s.results
              && StoreCurrent(Apply(s, m)) == Ok(Next(s, m))
              && Next(s, m).results ==
                 s.results[Next(s, m).last.commandId := StoredResult(Next(s, m).last, Next(s, m).resources)]
    ensures !m.Stores() ==> Next(s, m) == Apply(s, m) && Next(s, m).results == s.results
  {
    var a := Apply(s, m);
    assert a.results == s.results;
    if m.Stores() {
      assert a.last.commandId !in s.results;
      assert |s.results[a.last.commandId := StoredResult(a.last, a.resources)]| == |s.results| + 1;
    }
  }

  /** Only the completion of a side effect resolves one. */
  lemma UnresolvedIsSticky(s: AttemptState, m: Move)
    requires s.resources.Unresolved()
    requires !(m.Complete? && m.completion.SettlesSideEffect())
    ensures Next(s, m).resources.Unresolved()
  {
  }

  // ------------------------------------------------------------------ ledger

  /** The ledger holds what memory holds: the same snapshot as its last line, and for the same command
      ids the same outcome halves. Receipt halves may be newer in the ledger. */
  ghost predicate Mirrors(s: AttemptState, log: Log) {
    && log != []
    && log[|log| - 1] == s.Snapshot()
    && SameOutcomes(FoldResults(log), s.results)
  }

  /** The ledger may be behind memory after a failed append. What it lacks of the index is then at most the
      result of the last command, which the next line still carries. */
  ghost predicate Carries(s: AttemptState, log: Log) {
    && log != []
    && (SameOutcomes(FoldResults(log), s.results)
        || (Unsaved(s, log) && SameOutcomes(FoldResults(log) + LineResults(s.Snapshot()), s.results)))
  }

  ghost predicate Unsaved(s: AttemptState, log: Log) {
    !s.InFlight() && s.last.commandId !in FoldResults(log)
  }

  /** What two snapshots of one attempt share when one was read back from the ledger of the other. */
  ghost predicate SameButReceipts(a: AttemptState, b: AttemptState) {
    a.Snapshot() == b.Snapshot() && SameOutcomes(a.results, b.results)
  }

  ghost predicate SameOutcomes(a: map<string, StoredResult>, b: map<string, StoredResult>) {
    a.Keys == b.Keys && forall id :: id in b ==> a[id].record == b[id].record
  }

  lemma StoringKeepsOutcomes(a: map<string, StoredResult>, b: map<string, StoredResult>, id: string, r: StoredResult)
    requires SameOutcomes(a, b)
    ensures SameOutcomes(a + map[id := r], b[id := r])
    ensures id in b && b[id].record == r.record ==> SameOutcomes(a + map[id := r], b)
  {
  }

  lemma AllButOne(f: map<string, StoredResult>, id: string, r: StoredResult, results: map<string, StoredResult>)
    requires id !in f && SameOutcomes(f + map[id := r], results)
    ensures id in results && SameOutcomes(f, results - {id}) && |f| < |results|
  {
    assert (f + map[id := r]).Keys == f.Keys + {id};
    assert results.Keys == f.Keys + {id};
    assert |results| == |results.Keys| && |f| == |f.Keys|;
  }

  lemma FoldAppend(log: Log, line: AttemptState)
    ensures FoldResults(log + [line]) == FoldResults(log) + LineResults(line)
    ensures Fold(log + [line]) == line.(results := FoldResults(log) + LineResults(line))
  {
    assert (log + [line])[..|log|] == log;
  }

  lemma SnapshotAddsItsOutcome(s: AttemptState)
    ensures s.InFlight() ==> LineResults(s.Snapshot()) == map[]
    ensures !s.InFlight() ==>
              LineResults(s.Snapshot()) == map[s.last.commandId := StoredResult(s.last, s.resources)]
  {
  }

  lemma MirrorCarries(s: AttemptState, log: Log)
    requires Settled(s) && Mirrors(s, log)
    ensures Carries(s, log) && !Unsaved(s, log)
  {
  }

  /** Unless another command is recorded over an unsaved result, the next line still carries what is missing. */
  lemma MoveStillCarries(s: AttemptState, m: Move, log: Log)
    requires Settled(s) && Enabled(s, m) && Carries(s, log)
    requires Unsaved(s, log) ==> !m.Records()
    ensures Carries(Next(s, m), log)
  {
    if Unsaved(s, log) {
      KeepsTheLast(s, m);
      SameLastStillCarries(s, Next(s, m), log);
    } else {
      MoveKeepsSettled(s, m);
      SavedStillCarries(s, Next(s, m), log);
    }
  }

  lemma KeepsTheLast(s: AttemptState, m: Move)
    requires !s.InFlight() && Enabled(s, m) && !m.Records()
    ensures Next(s, m).last == s.last && Next(s, m).results == s.results
  {
  }

  lemma SameLastStillCarries(s: AttemptState, n: AttemptState, log: Log)
    requires Carries(s, log) && Unsaved(s, log) && n.last == s.last && n.results == s.results
    ensures Carries(n, log)
  {
    SnapshotAddsItsOutcome(s);
    SnapshotAddsItsOutcome(n);
  }

  lemma SavedStillCarries(s: AttemptState, n: AttemptState, log: Log)
    requires log != [] && SameOutcomes(FoldResults(log), s.results) && Settled(n)
    requires n.results == s.results
             || (!n.InFlight() && n.last.commandId !in s.results
                 && n.results == s.results[n.last.commandId := StoredResult(n.last, n.resources)])
    ensures Carries(n, log)
  {
    if n.results != s.results {
      SnapshotAddsItsOutcome(n);
      StoringKeepsOutcomes(FoldResults(log), s.results, n.last.commandId, StoredResult(n.last, n.resources));
    }
  }

  /** A line that carries what is missing makes the ledger mirror memory. */
  lemma CarriedMirrors(n: AttemptState, log: Log)
    requires Settled(n) && Carries(n, log)
    ensures Mirrors(n, log + [n.Snapshot()])
  {
    FoldAppend(log, n.Snapshot());
    SnapshotAddsItsOutcome(n);
    if SameOutcomes(FoldResults(log), n.results) {
      if n.InFlight() {
        assert FoldResults(log) + map[] == FoldResults(log);
      } else {
        StoringKeepsOutcomes(FoldResults(log), n.results, n.last.commandId, StoredResult(n.last, n.resources));
      }
    }
  }

  /** Appending the changed snapshot makes the ledger mirror memory, whether it was behind or not. */
  lemma AppendKeepsMirror(s: AttemptState, m: Move, log: Log)
    requires Settled(s) && Enabled(s, m) && Carries(s, log)
    requires Unsaved(s, log) ==> !m.Records()
    ensures Mirrors(Next(s, m), log + [Next(s, m).Snapshot()])
  {
    MoveKeepsSettled(s, m);
    MoveStillCarries(s, m, log);
    CarriedMirrors(Next(s, m), log);
  }

  /** An unsaved result is on disk after the next line exactly when that line does not record another command. */
  lemma ResultIsLostExactly(s: AttemptState, m: Move, log: Log)
    requires Settled(s) && Enabled(s, m) && Carries(s, log) && Unsaved(s, log)
    ensures s.last.commandId in FoldResults(log + [Next(s, m).Snapshot()]) <==> !m.Records()
  {
    MoveKeepsSettled(s, m);
    LineHasResultExactly(s, Next(s, m), log);
  }

  lemma LineHasResultExactly(s: AttemptState, n: AttemptState, log: Log)
    requires s.last.commandId !in FoldResults(log)
    ensures s.last.commandId in FoldResults(log + [n.Snapshot()])
            <==> !n.InFlight() && n.last.commandId == s.last.commandId
  {
    FoldAppend(log, n.Snapshot());
    SnapshotAddsItsOutcome(n);
  }

  /** A ledger of one line mirrors a fresh claim. */
  lemma ClaimMirrors(contract: Contract, request: Request)
    ensures var s := ClaimedState(contract, request);
            Settled(s) && Mirrors(s, [s.Snapshot()])
  {
    var s := ClaimedState(contract, request);
    FoldAppend([], s.Snapshot());
    assert [] + [s.Snapshot()] == [s.Snapshot()];
    SnapshotAddsItsOutcome(s);
    assert |s.results| == 1 by {
      assert s.results == map[request.commandId := StoredResult(s.last, s.resources)];
    }
  }

  /** What is read back from a mirrored ledger: the snapshot itself, with the same command ids and the
      same outcome halves; it is settled and mirrors the ledger in turn. */
  lemma FoldIsTheSnapshot(s: AttemptState, log: Log)
    requires Settled(s) && Mirrors(s, log)
    ensures Fold(log).Snapshot() == s.Snapshot()
    ensures Fold(log).results.Keys == s.results.Keys && |Fold(log).results| == |s.results|
    ensures Fold(log) == s.(results := FoldResults(log))
    ensures Settled(Fold(log)) && Mirrors(Fold(log), log)
  {
    SameOutcomesSameSize(FoldResults(log), s.results);
    SettledTransfers(s, FoldResults(log));
  }

  lemma MirrorFolds(s: AttemptState, log: Log)
    requires Mirrors(s, log)
    ensures Fold(log) == s.(results := FoldResults(log)) && SameOutcomes(FoldResults(log), s.results)
  {
  }

  lemma SameOutcomesSameSize(a: map<string, StoredResult>, b: map<string, StoredResult>)
    requires SameOutcomes(a, b)
    ensures |a| == |b|
  {
    assert |a.Keys| == |a| && |b.Keys| == |b|;
  }

  lemma SettledTransfers(s: AttemptState, index: map<string, StoredResult>)
    requires Settled(s) && SameOutcomes(index, s.results)
    ensures Settled(s.(results := index))
  {
    SameOutcomesSameSize(index, s.results);
  }

  // --------------------------------------------------------------- decisions

  /** A verdict only writes enabled moves, and promises a command result only for a settled command. */
  ghost predicate Sound(s: AttemptState, v: Verdict) {
    v.Write? ==> Enabled(s, v.move) && (v.ack.AckResult? ==> v.move.Stores())
  }

  lemma ConflictIsSound(s: AttemptState, request: Request)
    ensures var v := DecideConflict(s, request);
            Sound(s, v) && !v.Records() && (v.Write? ==> v.move == DigestConflict)
  {
  }

  lemma RefreshIsSound(s: AttemptState, reference: AttemptRef, binding: TargetBinding)
    ensures var v := DecideRefresh(s, reference, binding);
            Sound(s, v) && !v.Records() && (v.Write? ==> v.move == Refresh(binding))
  {
  }

  lemma PrepareIsSound(s: AttemptState, request: Request, mode: Mode, now: int)
    requires Settled(s)
    ensures var v := DecidePrepare(s, request, mode, now);
            Sound(s, v) && (v.Write? ==> !v.move.Complete?)
  {
  }

  lemma RejectIsSound(s: AttemptState, request: Request, code: ErrorCode)
    requires Settled(s)
    ensures var v := DecideReject(s, request, code);
            Sound(s, v) && (v.Write? ==> !v.move.Complete?)
  {
  }

  lemma InspectIsSound(s: AttemptState, request: Request)
    requires Settled(s)
    ensures var v := DecideInspect(s, request);
            Sound(s, v) && (v.Write? ==> !v.move.Complete?)
    ensures request.commandId !in s.results && RecordCommand(s, request, MAX_BUSINESS + MAX_INSPECT).Ok?
            ==> Enabled(s, Observe(request))
  {
  }

  lemma BeginIsSound(s: AttemptState, request: Request)
    requires Settled(s)
    ensures var v := DecideBegin(s, request);
            Sound(s, v) && !v.Records() && (v.Write? ==> !v.move.Complete?)
  {
  }

  lemma ReplayIsSound(s: AttemptState, request: Request)
    requires Settled(s)
    ensures var v := DecideReplay(s, request);
            Sound(s, v) && !v.Records() && (v.Write? ==> !v.move.Complete?)
  {
  }

  // ---------------------------------------------------------------- progress

  /** How a later snapshot of an attempt relates to an earlier one. `settling` says that the step in
      between was the completion of a granted side effect. */
  ghost predicate Follows(b: AttemptState, a: AttemptState, settling: bool) {
    && a.reference == b.reference
    && a.contract == b.contract
    && (forall id :: id in b.results ==> id in a.results && a.results[id].record == b.results[id].record)
    && (b.resources.Unresolved() && !settling ==> a.resources.Unresolved())
    && (b.Terminal() ==> a.Terminal())
  }

  lemma FollowsOn(a: AttemptState, b: AttemptState, c: AttemptState, settling: bool)
    requires Follows(a, b, true) && Follows(b, c, settling)
    ensures Follows(a, c, true)
  {
  }

  lemma FollowsThroughIndex(
    s: AttemptState, n: AttemptState, settling: bool,
    x: map<string, StoredResult>, y: map<string, StoredResult>)
    requires Follows(s, n, settling) && SameOutcomes(x, s.results) && SameOutcomes(y, n.results)
    ensures Follows(s.(results := x), n.(results := y), settling)
  {
  }

  /** A completion other than a release or a finish needs an attempt that is not terminal. */
  ghost predicate KeepsTerminal(s: AttemptState, m: Move) {
    m.Complete? && !m.completion.Release? && !m.completion.Finish? ==> !s.Terminal()
  }

  lemma MoveFollows(s: AttemptState, m: Move)
    requires Settled(s) && Enabled(s, m) && KeepsTerminal(s, m)
    ensures Follows(s, Next(s, m), m.Complete? && m.completion.SettlesSideEffect())
  {
    MoveKeepsSettled(s, m);
  }
}
