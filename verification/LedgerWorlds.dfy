/**
 Worlds in which memory and ledger agree, or memory is ahead by appends that
 failed: what holds between any two calls, what reading the ledger after a restart
 gives, and what one call changes.
 */
module LedgerWorlds {
  import opened Outcomes
  import opened AttemptRecord
  import opened AttemptLedger
  import opened LedgerMoves

  ghost predicate ListsFiles(listing: seq<string>, files: map<string, Log>) {
    && (forall name :: name in listing <==> name in files)
    && (forall i, j :: 0 <= i < j < |listing| ==> listing[i] != listing[j])
  }

  // ------------------------------------------------------- worlds that agree

  ghost predicate LogOk(name: string, log: Log) {
    && log != []
    && log[|log| - 1].results == map[]
    && Fold(log).reference.attemptId == name
    && Settled(Fold(log))
  }

  ghost predicate DiskOk(w: World) {
    && w.durable
    && ListsFiles(w.listing, w.files)
    && forall name :: name in w.files ==> LogOk(name, w.files[name])
  }

  predicate Idle(log: Log)
    requires log != []
  {
    Fold(log).resources.LocallyReleased()
  }

  predicate Busy(log: Log) {
    log != [] && !Idle(log)
  }

  ghost predicate OthersIdle(files: map<string, Log>, name: string) {
    forall other :: other in files && other != name ==> files[other] != [] && Idle(files[other])
  }

  /** The active snapshot is what its ledger says, or follows it and still carries what the ledger lacks;
      every other ledger is idle. */
  ghost predicate Remembers(w: World, s: AttemptState) {
    && s.reference.attemptId in w.files
    && Settled(s)
    && Carries(s, w.files[s.reference.attemptId])
    && Follows(Fold(w.files[s.reference.attemptId]), s, true)
    && OthersIdle(w.files, s.reference.attemptId)
  }

  /** The ledger of the active attempt says what memory says. */
  ghost predicate Synced(w: World) {
    w.loaded && w.active.Some? ==>
      && w.active.value.reference.attemptId in w.files
      && Mirrors(w.active.value, w.files[w.active.value.reference.attemptId])
  }

  /** Memory holds a result that no line on disk has yet. */
  ghost predicate LacksResult(w: World) {
    && w.loaded && w.active.Some?
    && w.active.value.reference.attemptId in w.files
    && Unsaved(w.active.value, w.files[w.active.value.reference.attemptId])
  }

  ghost predicate AllIdle(files: map<string, Log>) {
    forall name :: name in files ==> files[name] != [] && Idle(files[name])
  }

  ghost predicate OneBusy(files: map<string, Log>) {
    forall a, b :: a in files && b in files && Busy(files[a]) && Busy(files[b]) ==> a == b
  }

  ghost predicate Unreadable(files: map<string, Log>) {
    exists name :: name in files && LoadLast(files[name]).Err?
  }

  /** Before the ledger is read nothing is active, unless an unreadable ledger stopped an earlier attempt
      to read it. */
  ghost predicate MemoryOk(w: World) {
    if w.loaded then
      && (w.active.None? ==> AllIdle(w.files))
      && (w.active.Some? ==> Remembers(w, w.active.value))
    else
      && OneBusy(w.files)
      && (w.active.Some? ==> Unreadable(w.files))
  }

  // ---------------------------------------------------------------- recovery

  /** Scanning changes only memory, and stops early only for an unreadable ledger or a second busy one. */
  lemma {:induction false} ScanFrame(w: World, names: seq<string>)
    requires !w.loaded
    ensures var a := Scan(w, names);
            && a.world == w.(active := a.world.active, recovered := a.world.recovered, loaded := a.result.Ok?)
            && (a.result.Err? ==> a.result.code in {LedgerInvalid, LedgerConflict})
    decreases |names|
  {
    if names != [] && LoadLast(LogOf(w, names[0])).Ok? {
      var s := LoadLast(LogOf(w, names[0])).value;
      if s.resources.LocallyReleased() {
        ScanFrame(w, names[1..]);
      } else if w.active.None? {
        ScanFrame(w.(active := Some(s), recovered := true), names[1..]);
      }
    }
  }

  ghost predicate Named(w: World, names: seq<string>) {
    && (forall name :: name in names ==> name in w.files && w.files[name] != [])
    && (forall i, j :: 0 <= i < j < |names| ==> names[i] != names[j])
  }

  lemma TailNamed(w: World, names: seq<string>)
    requires Named(w, names) && names != []
    ensures Named(w, names[1..]) && names[0] in w.files && names[0] !in names[1..]
    ensures forall name :: name in names <==> name == names[0] || name in names[1..]
  {
    assert names == [names[0]] + names[1..];
  }

  /** A scan that succeeds read every ledger and adopted the only busy one. */
  lemma {:induction false} ScanSucceeds(w: World, names: seq<string>)
    requires Named(w, names) && Scan(w, names).result.Ok?
    ensures forall name :: name in names ==> LoadLast(w.files[name]).Ok?
    ensures var active := Scan(w, names).world.active;
            && (active == w.active || exists name :: name in names && active == Some(Fold(w.files[name])))
            && (w.active.Some? ==> active == w.active)
            && forall name :: name in names ==>
                 Idle(w.files[name]) || (w.active.None? && active == Some(Fold(w.files[name])))
    decreases |names|
  {
    if names != [] {
      TailNamed(w, names);
      var s := Fold(w.files[names[0]]);
      if s.resources.LocallyReleased() {
        ScanSucceeds(w, names[1..]);
      } else {
        ScanSucceeds(w.(active := Some(s), recovered := true), names[1..]);
      }
    }
  }

  /** A scan that starts with nothing active and fails met an unreadable ledger or two busy ones. */
  lemma {:induction false} ScanFails(w: World, names: seq<string>)
    requires Named(w, names) && Scan(w, names).result.Err?
    ensures || (exists name :: name in names && LoadLast(w.files[name]).Err?)
            || (w.active.Some? && exists name :: name in names && Busy(w.files[name]))
            || (exists a, b :: a in names && b in names && a != b && Busy(w.files[a]) && Busy(w.files[b]))
    decreases |names|
  {
    if names != [] {
      TailNamed(w, names);
      if LoadLast(w.files[names[0]]).Ok? {
        var s := Fold(w.files[names[0]]);
        if s.resources.LocallyReleased() {
          ScanFails(w, names[1..]);
        } else if w.active.None? {
          ScanFails(w.(active := Some(s), recovered := true), names[1..]);
        }
      }
    }
  }

  /** A conflict is reported for a second busy ledger only, or when an earlier, failed scan left an attempt active. */
  lemma {:induction false} ScanConflicts(w: World, names: seq<string>)
    requires Named(w, names) && Scan(w, names).result == Err(LedgerConflict)
    ensures || (w.active.Some? && exists name :: name in names && Busy(w.files[name]))
            || (exists a, b :: a in names && b in names && a != b && Busy(w.files[a]) && Busy(w.files[b]))
    decreases |names|
  {
    if names != [] {
      TailNamed(w, names);
      var s := Fold(w.files[names[0]]);
      if s.resources.LocallyReleased() {
        ScanConflicts(w, names[1..]);
      } else if w.active.None? {
        ScanConflicts(w.(active := Some(s), recovered := true), names[1..]);
      }
    }
  }

  ghost predicate AllWritten(files: map<string, Log>) {
    forall name :: name in files ==> files[name] != []
  }

  lemma ReadBack(w: World, name: string)
    requires DiskOk(w) && name in w.files
    ensures var s := Fold(w.files[name]);
            s.reference.attemptId == name && Settled(s) && Mirrors(s, w.files[name])
  {
    var log := w.files[name];
    assert log[|log| - 1] == Fold(log).Snapshot();
  }

  /** Reading the ledger finds the one busy attempt, or fails because a ledger is unreadable. */
  lemma LoadKeeps(w: World)
    requires DiskOk(w) && MemoryOk(w)
    ensures var a := LoadActive(w);
            && a.world == w.(active := a.world.active, recovered := a.world.recovered, loaded := a.result.Ok?)
            && DiskOk(a.world) && MemoryOk(a.world)
            && (a.result.Err? ==> a.result.code in {LedgerInvalid, LedgerConflict} && Unreadable(w.files))
            && (w.loaded ==> a == Access(w, Ok(())))
            && (!w.loaded ==> Synced(a.world))
            && SameViews(w, a.world)
  {
    if !w.loaded {
      ScanFrame(w, w.listing);
      if LoadActive(w).result.Ok? {
        ScanSucceeds(w, w.listing);
        AdoptedIsRemembered(w, LoadActive(w).world);
      } else {
        ScanFails(w, w.listing);
      }
    }
  }

  lemma AdoptedIsRemembered(w: World, w': World)
    requires DiskOk(w) && w.active.None?
    requires w' == w.(active := w'.active, recovered := w'.recovered, loaded := true)
    requires w'.active.Some? ==> exists name :: name in w.files && w'.active == Some(Fold(w.files[name]))
    requires forall name :: name in w.files ==> Idle(w.files[name]) || w'.active == Some(Fold(w.files[name]))
    ensures DiskOk(w') && MemoryOk(w') && Synced(w')
    ensures !w.loaded ==> SameViews(w, w')
  {
    if w'.active.Some? {
      var name :| name in w.files && w'.active == Some(Fold(w.files[name]));
      ReadBack(w, name);
      MirrorCarries(w'.active.value, w.files[name]);
      forall other | other in w.files && other != name
        ensures Idle(w.files[other])
      {
        ReadBack(w, other);
      }
    }
  }

  // ------------------------------------------------------------ one append

  /** What is known of an attempt: its snapshot in memory if it is active, what its ledger folds to if not. */
  function View(w: World, name: string): AttemptState
    requires name in w.files && w.files[name] != []
  {
    if w.loaded && w.active.Some? && w.active.value.reference.attemptId == name
    then w.active.value
    else Fold(w.files[name])
  }

  ghost predicate SameViews(w: World, w': World) {
    w'.files == w.files && forall name :: name in w.files && w.files[name] != [] ==> View(w', name) == View(w, name)
  }

  /** The attempt went on from what was known of it, and its ledger is as it was or says just that. */
  ghost predicate Advanced(w: World, w': World, name: string, settling: bool)
    requires name in w.files && w.files[name] != [] && name in w'.files && w'.files[name] != []
  {
    && Follows(View(w, name), View(w', name), settling)
    && (w'.files[name] == w.files[name] || SameButReceipts(Fold(w'.files[name]), View(w', name)))
  }

  /** What memory knew beyond the ledger is gone. */
  ghost predicate Forgotten(w: World, w': World, name: string)
    requires name in w.files && w.files[name] != [] && name in w'.files && w'.files[name] != []
  {
    w'.files[name] == w.files[name] && View(w', name) == Fold(w.files[name])
  }

  /** The ledger lives on, and its attempt advances or goes back to what the ledger says. */
  ghost predicate Goes(w: World, w': World, name: string, settling: Option<string>) {
    && name in w.files && name in w'.files
    && w.files[name] != [] && w'.files[name] != []
    && (Forgotten(w, w', name) || Advanced(w, w', name, settling == Some(name)))
  }

  ghost predicate Progress(w: World, w': World, settling: Option<string>) {
    forall name {:trigger Goes(w, w', name, settling)} :: name in w.files ==> Goes(w, w', name, settling)
  }

  lemma ProgressIsReflexive(w: World, w': World, settling: Option<string>)
    requires DiskOk(w) && SameViews(w, w')
    ensures Progress(w, w', settling)
  {
    forall name | name in w.files
      ensures Goes(w, w', name, settling)
    {
      assert View(w', name) == View(w, name);
    }
  }

  lemma ProgressFromSameViews(w: World, w1: World, w2: World, settling: Option<string>)
    requires SameViews(w, w1) && Progress(w1, w2, settling)
    ensures Progress(w, w2, settling)
  {
    forall name | name in w.files
      ensures Goes(w, w2, name, settling)
    {
      assert Goes(w1, w2, name, settling);
      assert View(w1, name) == View(w, name);
    }
  }

  /** Memory is never behind the disk. */
  lemma DiskTrails(w: World, name: string)
    requires DiskOk(w) && MemoryOk(w) && name in w.files
    ensures Follows(Fold(w.files[name]), View(w, name), true)
  {
  }

  lemma MirroredLogIsOk(n: AttemptState, log: Log)
    requires Settled(n) && Mirrors(n, log)
    ensures LogOk(n.reference.attemptId, log)
    ensures Idle(log) == n.resources.LocallyReleased()
  {
    FoldIsTheSnapshot(n, log);
  }

  lemma StoreLogKeepsListing(files: map<string, Log>, listing: seq<string>, name: string, log: Log)
    requires ListsFiles(listing, files)
    ensures ListsFiles(if name in files then listing else listing + [name], files[name := log])
  {
  }

  /** Replacing one ledger by another good one keeps the directory in order. */
  lemma StoreLogKeepsDisk(w: World, w': World, name: string, log: Log)
    requires DiskOk(w) && LogOk(name, log)
    requires w'.durable && w'.files == w.files[name := log]
    requires w'.listing == if name in w.files then w.listing else w.listing + [name]
    ensures DiskOk(w')
  {
    StoreLogKeepsListing(w.files, w.listing, name, log);
    forall other | other in w'.files && other != name
      ensures LogOk(other, w'.files[other])
    {
      assert w'.files[other] == w.files[other];
    }
  }

  /** Appending a snapshot that carries what its ledger lacks puts the ledger in step with memory. */
  lemma AppendKeeps(w: World, s: AttemptState, n: AttemptState, settling: bool)
    requires w.loaded && DiskOk(w) && Remembers(w, s) && View(w, s.reference.attemptId) == s
    requires Settled(n) && Carries(n, w.files[s.reference.attemptId]) && Follows(s, n, settling)
    ensures var w' := Append(w, n).(active := Some(n));
            DiskOk(w') && MemoryOk(w') && Synced(w')
            && Progress(w, w', if settling then Some(s.reference.attemptId) else None)
  {
    var name := s.reference.attemptId;
    var log := w.files[name];
    var w' := Append(w, n).(active := Some(n));
    assert w'.files == w.files[name := log + [n.Snapshot()]];
    CarriedMirrors(n, log);
    MirroredIsHealthy(w, w', n);
    MirrorFolds(n, w'.files[name]);
    OneAdvances(w, w', name, settling);
  }

  /** A snapshot over its mirror makes a good world when all other ledgers are idle. */
  lemma MirroredIsHealthy(w: World, w': World, n: AttemptState)
    requires DiskOk(w) && OthersIdle(w.files, n.reference.attemptId) && n.reference.attemptId in w'.files
    requires Settled(n) && Mirrors(n, w'.files[n.reference.attemptId])
    requires w'.durable && w'.loaded && w'.active == Some(n)
    requires w'.files == w.files[n.reference.attemptId := w'.files[n.reference.attemptId]]
    requires w'.listing == if n.reference.attemptId in w.files then w.listing else w.listing + [n.reference.attemptId]
    ensures DiskOk(w') && MemoryOk(w') && Synced(w')
  {
    var name := n.reference.attemptId;
    MirrorCarries(n, w'.files[name]);
    MirroredLogIsOk(n, w'.files[name]);
    StoreLogKeepsDisk(w, w', name, w'.files[name]);
    FoldIsFollowed(n, w'.files[name]);
  }

  lemma FoldIsFollowed(n: AttemptState, log: Log)
    requires Mirrors(n, log)
    ensures Follows(Fold(log), n, true) && SameButReceipts(Fold(log), n)
  {
    MirrorFolds(n, log);
  }

  lemma OneAdvances(w: World, w': World, name: string, settling: bool)
    requires AllWritten(w.files) && name in w.files && name in w'.files && w'.files == w.files[name := w'.files[name]]
    requires w'.loaded && w'.active.Some? && w'.active.value.reference.attemptId == name && w'.files[name] != []
    requires Follows(View(w, name), w'.active.value, settling)
    requires w'.files[name] == w.files[name] || SameButReceipts(Fold(w'.files[name]), w'.active.value)
    ensures Progress(w, w', if settling then Some(name) else None)
  {
    hide Follows, Fold, SameButReceipts, Goes;
    forall other | other in w.files
      ensures Goes(w, w', other, if settling then Some(name) else None)
    {
      if other != name {
        RestIsForgotten(w, w', other, if settling then Some(name) else None);
      } else {
        ActiveAdvances(w, w', name, settling);
      }
    }
  }

  lemma ActiveAdvances(w: World, w': World, name: string, settling: bool)
    requires name in w.files && w.files[name] != [] && name in w'.files && w'.files[name] != []
    requires w'.loaded && w'.active.Some? && w'.active.value.reference.attemptId == name
    requires Follows(View(w, name), w'.active.value, settling)
    requires w'.files[name] == w.files[name] || SameButReceipts(Fold(w'.files[name]), w'.active.value)
    ensures Goes(w, w', name, if settling then Some(name) else None)
  {
    assert Advanced(w, w', name, settling);
  }

  lemma RestIsForgotten(w: World, w': World, name: string, settling: Option<string>)
    requires name in w.files && w.files[name] != [] && name in w'.files && w'.files[name] == w.files[name]
    requires w'.active.Some? ==> w'.active.value.reference.attemptId != name
    ensures Goes(w, w', name, settling)
  {
  }

  lemma ClaimKeeps(w: World, contract: Contract, request: Request)
    requires w.loaded && DiskOk(w) && AllIdle(w.files)
    requires request.reference.attemptId !in w.files
    ensures var s := ClaimedState(contract, request);
            var w' := Append(w, s).(active := Some(s), recovered := false);
            DiskOk(w') && MemoryOk(w') && Synced(w')
            && w'.files == w.files[request.reference.attemptId := [s.Snapshot()]]
  {
    var s := ClaimedState(contract, request);
    var w' := Append(w, s).(active := Some(s), recovered := false);
    assert LogOf(w, request.reference.attemptId) + [s.Snapshot()] == [s.Snapshot()];
    ClaimMirrors(contract, request);
    MirroredIsHealthy(w, w', s);
  }

  // --------------------------------------------------------------- verdicts

  /** A sound verdict either leaves the world alone, fails to append, or appends the moved snapshot. */
  lemma ExecuteFacts(w: World, s: AttemptState, v: Verdict)
    requires w.durable && w.loaded && w.active == Some(s) && Settled(s) && Sound(s, v)
    ensures var a := Execute(w, s, v);
            && (!v.Write? ==> a.world == w)
            && (v.Write? && !w.writable ==>
                  a == Answer(w.(active := Some(if v.move.Emergency? then s else Next(s, v.move))),
                              Err(LedgerUnavailable)))
            && (v.Write? && w.writable ==>
                  var n := Next(s, v.move);
                  a == Answer(Append(w, n).(active := Some(n)), Acknowledge(n, v.ack)) && a.reply.Ok?)
  {
    if v.Write? {
      MoveKeepsSettled(s, v.move);
    }
  }

  // ------------------------------------------------------------------ calls

  ghost predicate Healthy(w: World) {
    DiskOk(w) && MemoryOk(w)
  }

  /** What every call keeps: ledger and memory stay in order and every attempt progresses. A failed append
      changes no ledger, and only a failed append leaves the ledger behind memory; any line that is written
      puts it in step again. */
  ghost predicate Keeps(w: World, a: Answer, settling: Option<string>) {
    && Healthy(a.world)
    && Progress(w, a.world, settling)
    && (a.reply == Err(LedgerUnavailable) ==> a.world.files == w.files)
    && (a.reply != Err(LedgerUnavailable) && Synced(w) ==> Synced(a.world))
    && (a.world.files != w.files ==> Synced(a.world))
  }

  /** An answer that changes at most what the first read of the ledgers brings. */
  lemma ReadingKeeps(w: World, a: Answer)
    requires DiskOk(w) && SameViews(w, a.world) && Healthy(a.world) && (Synced(w) ==> Synced(a.world))
    ensures Keeps(w, a, None)
  {
    ProgressIsReflexive(w, a.world, None);
  }

  lemma KeepsAfterReading(w: World, w1: World, a: Answer)
    requires SameViews(w, w1) && (Synced(w) ==> Synced(w1)) && Keeps(w1, a, None)
    ensures Keeps(w, a, None)
  {
    ProgressFromSameViews(w, w1, a.world, None);
  }

  lemma ReceiptsStillKeep(w: World, a: Answer)
    requires Keeps(w, a, None)
    ensures Keeps(w, Answer(a.world, ReceiptOnly(a.reply)), None)
  {
  }

  /** Whether the next append works makes no difference to what is known. */
  lemma EitherWay(w: World, w1: World)
    requires w1 == w.(writable := w1.writable)
    ensures Healthy(w) ==> Healthy(w1)
    ensures SameViews(w, w1) && LacksResult(w) == LacksResult(w1) && Synced(w) == Synced(w1)
  {
  }

  lemma AtMostOneIsBusy(w: World)
    requires Healthy(w)
    ensures OneBusy(w.files)
  {
    if w.loaded && w.active.Some? {
      assert OthersIdle(w.files, w.active.value.reference.attemptId);
    }
  }

  function Settling(s: AttemptState, v: Verdict): Option<string> {
    if v.Write? && v.move.Complete? && v.move.completion.SettlesSideEffect()
    then Some(s.reference.attemptId)
    else None
  }

  lemma ExecuteKeeps(w: World, s: AttemptState, v: Verdict)
    requires Healthy(w) && w.loaded && w.active == Some(s)
    requires Sound(s, v) && (v.Write? ==> KeepsTerminal(s, v.move))
    requires LacksResult(w) ==> !v.Records()
    ensures Keeps(w, Execute(w, s, v), Settling(s, v))
  {
    ExecuteFacts(w, s, v);
    ProgressIsReflexive(w, w, Settling(s, v));
    if v.Write? {
      var n := Next(s, v.move);
      MoveKeepsSettled(s, v.move);
      MoveFollows(s, v.move);
      MoveStillCarries(s, v.move, w.files[s.reference.attemptId]);
      if w.writable {
        AppendKeeps(w, s, n, Settling(s, v).Some?);
      } else if !v.move.Emergency? {
        MemoryGoesAhead(w, s, n, Settling(s, v).Some?);
      }
    }
  }

  /** A failed append leaves the changed snapshot in memory only. */
  lemma MemoryGoesAhead(w: World, s: AttemptState, n: AttemptState, settling: bool)
    requires Healthy(w) && w.loaded && w.active == Some(s)
    requires Settled(n) && Carries(n, w.files[s.reference.attemptId]) && Follows(s, n, settling)
    ensures var w' := w.(active := Some(n));
            Healthy(w') && Progress(w, w', if settling then Some(s.reference.attemptId) else None)
  {
    AheadIsHealthy(w, s, n, settling);
    AheadAdvances(w, w.(active := Some(n)), s, n, settling);
  }

  lemma AheadIsHealthy(w: World, s: AttemptState, n: AttemptState, settling: bool)
    requires Healthy(w) && w.loaded && w.active == Some(s)
    requires Settled(n) && Carries(n, w.files[s.reference.attemptId]) && Follows(s, n, settling)
    ensures Healthy(w.(active := Some(n)))
  {
    FollowsOn(Fold(w.files[s.reference.attemptId]), s, n, settling);
  }

  lemma AheadAdvances(w: World, w': World, s: AttemptState, n: AttemptState, settling: bool)
    requires DiskOk(w) && w.loaded && w.active == Some(s) && w' == w.(active := Some(n))
    requires s.reference.attemptId in w.files && Follows(s, n, settling)
    ensures Progress(w, w', if settling then Some(s.reference.attemptId) else None)
  {
    OneAdvances(w, w', s.reference.attemptId, settling);
  }

  /** A verdict that completes nothing, carried out once the ledger has been read. */
  lemma ExecuteAfter(w: World, w1: World, v: Verdict)
    requires Healthy(w1) && w1.loaded && w1.active.Some? && SameViews(w, w1) && (Synced(w) ==> Synced(w1))
    requires Sound(w1.active.value, v) && (v.Write? ==> !v.move.Complete?)
    requires LacksResult(w1) ==> !v.Records()
    ensures Keeps(w, Execute(w1, w1.active.value, v), None)
  {
    ExecuteKeeps(w1, w1.active.value, v);
    KeepsAfterReading(w, w1, Execute(w1, w1.active.value, v));
  }

  /** An idle attempt read from its ledger may be made the active one. */
  lemma AdoptKeeps(w: World, name: string)
    requires Healthy(w) && w.loaded && w.active.None? && name in w.files
    ensures var w' := w.(active := Some(Fold(w.files[name])));
            Healthy(w') && Synced(w') && !LacksResult(w') && SameViews(w, w')
    ensures Settled(Fold(w.files[name])) && Fold(w.files[name]).reference.attemptId == name
  {
    ReadBack(w, name);
    MirrorCarries(Fold(w.files[name]), w.files[name]);
  }

  /** A ledger read by name is the fold of its lines. */
  lemma NamedIsFold(w: World, name: string)
    ensures var named := LoadNamed(w, name);
            named.Ok? && named.value.Some? ==>
              name in w.files && w.files[name] != [] && named.value.value == Fold(w.files[name])
  {
  }

  /** What `inspect` of a named ledger does, case by case. */
  lemma InspectNamedFacts(w: World, request: Request)
    requires w.active.None?
    ensures var a := InspectNamed(w, request);
            match LoadNamed(w, request.reference.attemptId)
            case Ok(Some(s)) =>
              if s.reference != request.reference then a.world == w
              else if request.commandId in s.results
                      && s.results[request.commandId].record.digest != request.digest then
                var done := Execute(w.(active := Some(s)), s, DecideConflict(s, request));
                a == Answer(done.world, ReceiptOnly(done.reply))
              else if request.commandId !in s.results
                      && RecordCommand(s, request, MAX_BUSINESS + MAX_INSPECT).Ok? then
                a == ObserveNamed(w, Next(s, Observe(request)))
              else a.world == w
            case _ => a.world == w
  {
  }

  lemma InspectNamedKeeps(w: World, request: Request)
    requires Healthy(w) && w.loaded && w.active.None?
    ensures Keeps(w, InspectNamed(w, request), None)
  {
    ProgressIsReflexive(w, w, None);
    InspectNamedFacts(w, request);
    var name := request.reference.attemptId;
    NamedIsFold(w, name);
    if InspectNamed(w, request).world != w {
      var s := Fold(w.files[name]);
      AdoptKeeps(w, name);
      if request.commandId in s.results {
        AdoptConflictKeeps(w, s, request);
      } else {
        InspectIsSound(s, request);
        ObserveNamedKeeps(w.(active := Some(s)), s, request);
      }
    }
  }

  lemma AdoptConflictKeeps(w: World, s: AttemptState, request: Request)
    requires w.loaded && SameViews(w, w.(active := Some(s)))
    requires Healthy(w.(active := Some(s))) && Synced(w.(active := Some(s)))
    ensures var done := Execute(w.(active := Some(s)), s, DecideConflict(s, request));
            Keeps(w, Answer(done.world, ReceiptOnly(done.reply)), None)
  {
    ConflictIsSound(s, request);
    ExecuteAfter(w, w.(active := Some(s)), DecideConflict(s, request));
  }

  lemma ObserveNamedKeeps(w: World, s: AttemptState, request: Request)
    requires Healthy(w) && w.loaded && w.active == Some(s) && s.resources.LocallyReleased()
    requires s == Fold(w.files[s.reference.attemptId]) && !LacksResult(w)
    requires Enabled(s, Observe(request))
    ensures Keeps(w.(active := None), ObserveNamed(w.(active := None), Next(s, Observe(request))), None)
  {
    var n := Next(s, Observe(request));
    var a := ObserveNamed(w.(active := None), n);
    NothingHeld(w, s);
    ObserveNamedFacts(w.(active := None), n);
    if w.writable {
      ObservedKeeps(w, s, request, a);
    } else {
      ReadingKeeps(w.(active := None), a);
    }
  }

  lemma ObserveNamedFacts(w: World, n: AttemptState)
    requires w.durable
    ensures ObserveNamed(w, n) ==
            if w.writable
            then Answer(Append(w, n), Ok(Answered(None, ReceiptOf(n.reference, n.last, n.resources))))
            else Answer(w, Err(LedgerUnavailable))
  {
  }

  lemma ObservedKeeps(w: World, s: AttemptState, request: Request, a: Answer)
    requires Healthy(w) && w.loaded && w.active == Some(s) && w.writable
    requires s == Fold(w.files[s.reference.attemptId]) && !LacksResult(w) && s.resources.LocallyReleased()
    requires Enabled(s, Observe(request))
    requires a.world == Append(w, Next(s, Observe(request))).(active := None) && a.reply.Ok?
    ensures Keeps(w.(active := None), a, None)
  {
    var n := Next(s, Observe(request));
    var name := s.reference.attemptId;
    var w' := Append(w, n).(active := Some(n));
    MoveKeepsSettled(s, Observe(request));
    MoveFollows(s, Observe(request));
    MoveStillCarries(s, Observe(request), w.files[name]);
    CarriedMirrors(n, w.files[name]);
    assert w'.files == w.files[name := w.files[name] + [n.Snapshot()]];
    MirroredIsHealthy(w, w', n);
    MirroredLogIsOk(n, w'.files[name]);
    NothingHeld(w', n);
    ObservedProgresses(w.(active := None), a.world, s, n);
  }

  lemma ObservedProgresses(w: World, w': World, s: AttemptState, n: AttemptState)
    requires AllWritten(w.files) && w.active.None? && w'.active.None?
    requires s.reference.attemptId in w.files && s == Fold(w.files[s.reference.attemptId]) && Follows(s, n, false)
    requires s.reference.attemptId in w'.files && Mirrors(n, w'.files[s.reference.attemptId])
    requires w'.files == w.files[s.reference.attemptId := w'.files[s.reference.attemptId]]
    ensures Progress(w, w', None)
  {
    var name := s.reference.attemptId;
    var log := w'.files[name];
    MirrorFolds(n, log);
    FollowsThroughIndex(s, n, false, s.results, FoldResults(log));
    assert s.(results := s.results) == s;
    forall other | other in w.files
      ensures Goes(w, w', other, None)
    {
      if other != name {
        RestIsForgotten(w, w', other, None);
      } else {
        assert Advanced(w, w', name, false);
      }
    }
  }

  /** When the active attempt holds nothing, on disk as well, it may as well not be active. */
  lemma NothingHeld(w: World, s: AttemptState)
    requires Healthy(w) && w.loaded && w.active == Some(s) && Idle(w.files[s.reference.attemptId])
    ensures Healthy(w.(active := None))
  {
  }

  lemma InspectKeeps(w: World, task: TaskCommand)
    requires Healthy(w)
    requires LacksResult(w) && ValidateTask(task).Ok? ==>
               !DecideInspect(w.active.value, ValidateTask(task).value).Records()
    ensures Keeps(w, Inspect(w, task), None)
  {
    EnterKeeps(w, task);
    var e := Enter(w, task);
    if e.request.Ok? {
      if e.world.active.None? {
        InspectNamedKeeps(e.world, e.request.value);
        ProgressFromSameViews(w, e.world, Inspect(w, task).world, None);
      } else {
        InspectIsSound(e.world.active.value, e.request.value);
        ExecuteAfter(w, e.world, DecideInspect(e.world.active.value, e.request.value));
      }
    }
  }

  lemma EnterKeeps(w: World, task: TaskCommand)
    requires Healthy(w)
    ensures var e := Enter(w, task);
            && e.world == w.(active := e.world.active, recovered := e.world.recovered, loaded := e.world.loaded)
            && Healthy(e.world)
            && (e.request.Ok? ==> e.world.loaded && e.request == ValidateTask(task))
            && SameViews(w, e.world) && Progress(w, e.world, None)
            && (Synced(w) ==> Synced(e.world))
            && (LacksResult(e.world) ==> LacksResult(w))
            && (w.loaded ==> e.world == w)
  {
    LoadKeeps(w);
    ProgressIsReflexive(w, LoadActive(w).world, None);
    ProgressIsReflexive(w, w, None);
  }

  /** A call that names a command carries out what is decided about it, once it was entered. */
  lemma EnteredKeeps(w: World, e: Entry, v: Verdict, a: Answer)
    requires Healthy(w) && Healthy(e.world) && SameViews(w, e.world) && (Synced(w) ==> Synced(e.world))
    requires e.request.Ok? ==> e.world.loaded
    requires if e.request.Err? || e.world.active.None? then a.world == e.world
             else a == Execute(e.world, e.world.active.value, v)
    requires e.request.Ok? && e.world.active.Some? ==>
               && Sound(e.world.active.value, v) && (v.Write? ==> !v.move.Complete?)
               && (LacksResult(e.world) ==> !v.Records())
    ensures Keeps(w, a, None)
  {
    if e.request.Err? || e.world.active.None? {
      ReadingKeeps(w, a);
    } else {
      ExecuteAfter(w, e.world, v);
    }
  }

  lemma ReplayKeeps(w: World, task: TaskCommand)
    requires Healthy(w)
    ensures Keeps(w, Replay(w, task), None)
  {
    hide Execute, DecideReplay, Enter, Keeps, Synced, Sound;
    var e := Enter(w, task);
    EnterKeeps(w, task);
    if e.request.Ok? && e.world.active.Some? {
      ReplayIsSound(e.world.active.value, e.request.value);
      EnteredKeeps(w, e, DecideReplay(e.world.active.value, e.request.value), Replay(w, task));
    } else {
      ReadingKeeps(w, Replay(w, task));
    }
  }

  lemma ReportConflictKeeps(w: World, task: TaskCommand)
    requires Healthy(w)
    ensures Keeps(w, ReportConflict(w, task), None)
  {
    hide Execute, DecideConflict, Enter, Keeps, Synced, Sound;
    var e := Enter(w, task);
    EnterKeeps(w, task);
    if e.request.Ok? && e.world.active.Some? {
      ConflictIsSound(e.world.active.value, e.request.value);
      EnteredKeeps(w, e, DecideConflict(e.world.active.value, e.request.value), ReportConflict(w, task));
    } else {
      ReadingKeeps(w, ReportConflict(w, task));
    }
  }

  lemma RejectKeeps(w: World, task: TaskCommand, code: ErrorCode)
    requires Healthy(w)
    requires LacksResult(w) && ValidateTask(task).Ok? ==>
               !DecideReject(w.active.value, ValidateTask(task).value, code).Records()
    ensures Keeps(w, Reject(w, task, code), None)
  {
    hide Execute, DecideReject, Enter, Keeps, Synced, Sound;
    var e := Enter(w, task);
    EnterKeeps(w, task);
    if e.request.Ok? && e.world.active.Some? {
      RejectIsSound(e.world.active.value, e.request.value, code);
      EnteredKeeps(w, e, DecideReject(e.world.active.value, e.request.value, code), Reject(w, task, code));
    } else {
      ReadingKeeps(w, Reject(w, task, code));
    }
  }

  lemma PrepareKeeps(w: World, task: TaskCommand, mode: Mode, now: int)
    requires Healthy(w)
    requires LacksResult(w) && ValidateTask(task).Ok? ==>
               !DecidePrepare(w.active.value, ValidateTask(task).value, mode, now).Records()
    ensures Keeps(w, Prepare(w, task, mode, now), None)
  {
    hide Execute, DecidePrepare, Enter, Keeps, Synced, Sound;
    var e := Enter(w, task);
    EnterKeeps(w, task);
    if e.request.Ok? && e.world.active.Some? {
      PrepareIsSound(e.world.active.value, e.request.value, mode, now);
      EnteredKeeps(w, e, DecidePrepare(e.world.active.value, e.request.value, mode, now), Prepare(w, task, mode, now));
    } else {
      ReadingKeeps(w, Prepare(w, task, mode, now));
    }
  }

  lemma RefreshKeeps(w: World, reference: AttemptRef, binding: TargetBinding)
    requires Healthy(w)
    ensures Keeps(w, RefreshTarget(w, reference, binding), None)
  {
    hide Execute, DecideRefresh, LoadActive, Keeps, Synced, Sound;
    var read := LoadActive(w).world;
    LoadKeeps(w);
    if LoadActive(w).result.Ok? && read.active.Some? {
      RefreshIsSound(read.active.value, reference, binding);
      ExecuteAfter(w, read, DecideRefresh(read.active.value, reference, binding));
    } else {
      ReadingKeeps(w, RefreshTarget(w, reference, binding));
    }
  }

  /** An emergency finish and the two marks, once the ledger has been read. */
  lemma ImposeIsExecuted(w: World, move: Move)
    ensures var read := LoadActive(w);
            Impose(w, move) ==
            if read.result.Err? then Answer(read.world, Err(read.result.code))
            else if read.world.active.None? then Answer(read.world, Ok(Absent))
            else Execute(read.world, read.world.active.value, Write(move, AckReceipt))
  {
  }

  lemma ImposeKeeps(w: World, move: Move)
    requires Healthy(w) && (move.Emergency? || move.MarkUncertain? || move.MarkReleased?)
    ensures Keeps(w, Impose(w, move), None)
  {
    hide Execute, Impose, LoadActive, Keeps, Synced;
    var read := LoadActive(w).world;
    LoadKeeps(w);
    ImposeIsExecuted(w, move);
    if LoadActive(w).result.Ok? && read.active.Some? {
      ExecuteAfter(w, read, Write(move, AckReceipt));
    } else {
      ReadingKeeps(w, Impose(w, move));
    }
  }

  lemma IsActiveKeeps(w: World)
    requires Healthy(w)
    ensures Keeps(w, IsActive(w), None)
  {
    LoadKeeps(w);
    ReadingKeeps(w, IsActive(w));
  }

  /** A fresh claim finds no ledger of that name, so it starts one. */
  lemma ClaimStartsALedger(w: World, request: Request)
    requires Healthy(w) && w.loaded
    requires !ReusesTerminal(w.active, request.reference)
    requires LoadNamed(w, request.reference.attemptId).Ok?
    requires !ReusesTerminal(LoadNamed(w, request.reference.attemptId).value, request.reference)
    requires w.active.Some? ==> Idle(w.files[w.active.value.reference.attemptId])
    ensures request.reference.attemptId !in w.files && AllIdle(w.files)
  {
    assert AllIdle(w.files);
    var name := request.reference.attemptId;
    if name in w.files {
      ReadBack(w, name);
      assert false;
    }
  }

  /** A `begin` that passes its checks reads the ledger and claims; any other changes memory at most. */
  lemma BeginFacts(w: World, task: TaskCommand, contract: Contract, v2: bool)
    ensures var a := Begin(w, task, contract, v2);
            || (a.world == w && a.reply.Err? && a.reply.code != LedgerUnavailable)
            || (LoadActive(w).result.Err? && a == Answer(LoadActive(w).world, Err(LoadActive(w).result.code)))
            || (ValidateTask(task).Ok? && LoadActive(w).result.Ok?
                && a == Claim(LoadActive(w).world, ValidateTask(task).value, StoredContract(contract, v2)))
  {
  }

  /** An active attempt that holds nothing in memory holds nothing on disk either. */
  ghost predicate ReleasedOnDisk(w: World) {
    w.loaded && w.active.Some? && w.active.value.resources.LocallyReleased() ==>
      var name := w.active.value.reference.attemptId;
      name in w.files && w.files[name] != [] && Idle(w.files[name])
  }

  lemma SyncedIsReleasedOnDisk(w: World)
    requires Healthy(w) && (Synced(w) || ReleasedOnDisk(w))
    ensures ReleasedOnDisk(w) && (Synced(w) ==> !LacksResult(w))
  {
    if Synced(w) && w.loaded && w.active.Some? {
      MirrorFolds(w.active.value, w.files[w.active.value.reference.attemptId]);
      MirrorCarries(w.active.value, w.files[w.active.value.reference.attemptId]);
    }
  }

  lemma BeginKeeps(w: World, task: TaskCommand, contract: Contract, v2: bool)
    requires Healthy(w) && ReleasedOnDisk(w)
    ensures Keeps(w, Begin(w, task, contract, v2), None)
  {
    var a := Begin(w, task, contract, v2);
    var read := LoadActive(w);
    LoadKeeps(w);
    BeginFacts(w, task, contract, v2);
    if a.world == w || a.world == read.world {
      ReadingKeeps(w, a);
    } else {
      SyncedIsReleasedOnDisk(read.world);
      ClaimStep(read.world, ValidateTask(task).value, StoredContract(contract, v2));
      KeepsAfterReading(w, read.world, a);
    }
  }

  lemma ClaimFreshFacts(w: World, request: Request, contract: Contract)
    requires w.durable
    ensures var vacant := if w.active.Some? then w.(active := None, recovered := false) else w;
            var s := ClaimedState(contract, request);
            var a := ClaimFresh(w, request, contract);
            if w.writable
            then a.world == Append(vacant, s).(active := Some(s), recovered := false) && a.reply.Ok?
            else a == Answer(vacant, Err(LedgerUnavailable))
  {
  }

  lemma ClaimFreshKeeps(w: World, request: Request, contract: Contract)
    requires Healthy(w) && w.loaded && AllIdle(w.files) && request.reference.attemptId !in w.files
    ensures Keeps(w, ClaimFresh(w, request, contract), None)
  {
    ClaimFreshFacts(w, request, contract);
    var vacant := if w.active.Some? then w.(active := None, recovered := false) else w;
    if w.writable {
      ClaimKeeps(vacant, contract, request);
    }
    ClaimForgets(w, ClaimFresh(w, request, contract).world, request.reference.attemptId);
  }

  /** A fresh claim, failed or not, leaves every other attempt to its ledger. */
  lemma ClaimForgets(w: World, w': World, name: string)
    requires AllWritten(w.files) && name !in w.files
    requires w'.files == w.files || (name in w'.files && w'.files == w.files[name := w'.files[name]])
    requires w'.active.Some? ==> w'.active.value.reference.attemptId == name
    ensures Progress(w, w', None)
  {
    forall other | other in w.files
      ensures Goes(w, w', other, None)
    {
      RestIsForgotten(w, w', other, None);
    }
  }

  /** What `begin` does once the ledger has been read: nothing, an answer from the attempt in progress, or a claim. */
  lemma ClaimFacts(w: World, request: Request, contract: Contract)
    ensures var a := Claim(w, request, contract);
            var named := LoadNamed(w, request.reference.attemptId);
            if || ReusesTerminal(w.active, request.reference)
               || named.Err? || ReusesTerminal(named.value, request.reference)
            then a.world == w && a.reply.Err? && a.reply.code != LedgerUnavailable
            else if w.active.Some? && !w.active.value.resources.LocallyReleased() then
              var done := Execute(w, w.active.value, DecideBegin(w.active.value, request));
              a == Answer(done.world, ReceiptOnly(done.reply))
            else a == ClaimFresh(w, request, contract)
  {
  }

  lemma ClaimStep(w: World, request: Request, contract: Contract)
    requires Healthy(w) && w.loaded && ReleasedOnDisk(w)
    ensures Keeps(w, Claim(w, request, contract), None)
  {
    ClaimFacts(w, request, contract);
    ClaimAnswerKeeps(w, request, contract, LoadNamed(w, request.reference.attemptId), Claim(w, request, contract));
  }

  lemma ClaimAnswerKeeps(
    w: World, request: Request, contract: Contract, named: Result<Option<AttemptState>>, a: Answer)
    requires Healthy(w) && w.loaded && ReleasedOnDisk(w)
    requires named == LoadNamed(w, request.reference.attemptId)
    requires if || ReusesTerminal(w.active, request.reference)
                || named.Err? || ReusesTerminal(named.value, request.reference)
             then a.world == w && a.reply.Err? && a.reply.code != LedgerUnavailable
             else if w.active.Some? && !w.active.value.resources.LocallyReleased() then
               var done := Execute(w, w.active.value, DecideBegin(w.active.value, request));
               a == Answer(done.world, ReceiptOnly(done.reply))
             else a == ClaimFresh(w, request, contract)
    ensures Keeps(w, a, None)
  {
    if ReusesTerminal(w.active, request.reference) || named.Err? || ReusesTerminal(named.value, request.reference) {
      ReadingKeeps(w, a);
    } else if w.active.Some? && !w.active.value.resources.LocallyReleased() {
      BeginAgainKeeps(w, w.active.value, request);
    } else {
      ClaimStartsALedger(w, request);
      ClaimFreshKeeps(w, request, contract);
    }
  }

  lemma BeginAgainKeeps(w: World, s: AttemptState, request: Request)
    requires Healthy(w) && w.loaded && w.active == Some(s)
    ensures var done := Execute(w, s, DecideBegin(s, request));
            Keeps(w, Answer(done.world, ReceiptOnly(done.reply)), None)
  {
    BeginIsSound(s, request);
    ReceiptKeeps(w, s, DecideBegin(s, request));
  }

  lemma ReceiptKeeps(w: World, s: AttemptState, v: Verdict)
    requires Healthy(w) && w.loaded && w.active == Some(s)
    requires Sound(s, v) && !v.Records() && (v.Write? ==> !v.move.Complete?)
    ensures var done := Execute(w, s, v); Keeps(w, Answer(done.world, ReceiptOnly(done.reply)), None)
  {
    ExecuteAfter(w, w, v);
    ReceiptsStillKeep(w, Execute(w, s, v));
  }
}
