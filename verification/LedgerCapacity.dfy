/**
 Reserved capacity: each command kind may fill the journal only up to its own
 limit, so the places above it stay free for the kinds that come after it.
 Kinds are history: the journal itself does not record them.
 */
module LedgerCapacity {
  import opened Outcomes
  import opened AttemptRecord
  import opened Ledger = AttemptLedger
  import opened LedgerMoves
  import opened LedgerWorlds
  import opened LedgerRuns
  import opened LedgerChanges
  import opened LedgerTheorems

  /** In the order in which they may fill the journal. */
  datatype Kind = Business | Inspection | Recovery | Finish
  {
    function Rank(): nat {
      match this
      case Business => 0
      case Inspection => 1
      case Recovery => 2
      case Finish => 3
    }

    /** The number of stored results at which a new command of this kind is refused. */
    function Limit(): nat {
      match this
      case Business => MAX_BUSINESS
      case Inspection => MAX_BUSINESS + MAX_INSPECT
      case Recovery => MAX_BUSINESS + MAX_INSPECT + MAX_RELEASE
      case Finish => MAX_RESULTS
    }

    /** The places reserved for this kind and the kinds after it. */
    function Reserve(): nat {
      match this
      case Business => MAX_BUSINESS
      case Inspection => MAX_INSPECT
      case Recovery => MAX_RELEASE
      case Finish => MAX_FINISH
    }
  }

  function KindOf(call: Call): Kind {
    if call.Inspect? then Inspection
    else if call.Prepare? && call.mode.Recovery? then Kind.Recovery
    else if call.Prepare? && call.mode.Finish? then Kind.Finish
    else Kind.Business
  }

  /** The kind of every stored command, and of the last one. */
  datatype Tally = Tally(current: Kind, kinds: map<string, Kind>)

  // ------------------------------------------------------------- counting

  ghost function UpTo(kinds: map<string, Kind>, k: Kind): set<string> {
    set id | id in kinds && kinds[id].Rank() <= k.Rank()
  }

  ghost function AtLeast(kinds: map<string, Kind>, k: Kind): set<string> {
    set id | id in kinds && kinds[id].Rank() >= k.Rank()
  }

  ghost function Below(kinds: map<string, Kind>, k: Kind): set<string> {
    set id | id in kinds && kinds[id].Rank() < k.Rank()
  }

  lemma Splits(kinds: map<string, Kind>, k: Kind)
    ensures |kinds| == |Below(kinds, k)| + |AtLeast(kinds, k)|
  {
    assert kinds.Keys == Below(kinds, k) + AtLeast(kinds, k);
    assert Below(kinds, k) !! AtLeast(kinds, k);
  }

  lemma UpToIsPart(kinds: map<string, Kind>, k: Kind)
    ensures |UpTo(kinds, k)| <= |kinds|
  {
    Contained(UpTo(kinds, k), kinds.Keys);
  }

  lemma Contained(a: set<string>, b: set<string>)
    requires a <= b
    ensures |a| <= |b|
  {
    assert b == a + (b - a);
  }

  /** Every kind keeps within its limit together with the kinds before it, and the command in flight has room. */
  ghost predicate Reserved(s: AttemptState, t: Tally) {
    && t.kinds.Keys == s.results.Keys
    && (forall k: Kind :: |UpTo(t.kinds, k)| <= k.Limit())
    && (s.InFlight() ==> |s.results| < t.current.Limit())
  }

  /** A journal is full for a kind only when the places reserved for it and for the kinds after it are used up. */
  lemma RefusedOnlyWhenReserveIsUsed(s: AttemptState, t: Tally, k: Kind)
    requires Reserved(s, t) && |s.results| >= k.Limit()
    ensures |AtLeast(t.kinds, k)| >= k.Reserve()
  {
    Splits(t.kinds, k);
    assert |t.kinds| == |t.kinds.Keys| == |s.results.Keys| == |s.results|;
    match k
    case Business => assert Below(t.kinds, k) == {};
    case Inspection => assert Below(t.kinds, k) == UpTo(t.kinds, Kind.Business);
    case Recovery => assert Below(t.kinds, k) == UpTo(t.kinds, Inspection);
    case Finish => assert Below(t.kinds, k) == UpTo(t.kinds, Kind.Recovery);
  }

  // --------------------------------------------------------------- one move

  /** The tally after a line was appended: a newly recorded command has the kind of the call that brought it. */
  function TallyAfter(t: Tally, before: CommandRecord, line: CommandRecord, kind: Kind): Tally {
    var current := if line.commandId == before.commandId then t.current else kind;
    Tally(current,
          if line.outcome == CommandOutcome.Unspecified || line.commandId in t.kinds then t.kinds
          else t.kinds[line.commandId := current])
  }

  lemma OneMore(kinds: map<string, Kind>, id: string, kind: Kind)
    requires id !in kinds && |kinds| < kind.Limit()
    requires forall k: Kind :: |UpTo(kinds, k)| <= k.Limit()
    ensures forall k: Kind :: |UpTo(kinds[id := kind], k)| <= k.Limit()
  {
    forall k: Kind
      ensures |UpTo(kinds[id := kind], k)| <= k.Limit()
    {
      UpToIsPart(kinds, k);
      if kind.Rank() <= k.Rank() {
        assert UpTo(kinds[id := kind], k) == UpTo(kinds, k) + {id};
      } else {
        assert UpTo(kinds[id := kind], k) == UpTo(kinds, k);
      }
    }
  }

  /** The room a move was given: a newly recorded command fits below the limit of its kind. */
  ghost predicate HasRoom(s: AttemptState, m: Move, kind: Kind) {
    m.Observe? || m.Refuse? || m.Grant? ==> |s.results| < kind.Limit()
  }

  lemma MoveKeepsReserve(s: AttemptState, m: Move, t: Tally, kind: Kind)
    requires Settled(s) && Enabled(s, m) && HasRoom(s, m, kind) && Reserved(s, t)
    ensures var n := Next(s, m); Reserved(n, TallyAfter(t, s.last, n.last, kind))
  {
    var n := Next(s, m);
    var t' := TallyAfter(t, s.last, n.last, kind);
    MoveKeepsSettled(s, m);
    assert |t.kinds| == |t.kinds.Keys| == |s.results.Keys| == |s.results|;
    if m.Stores() {
      OneMore(t.kinds, n.last.commandId, t'.current);
    }
  }

  // ----------------------------------------------------------- one attempt

  lemma SameKeysSameReserve(a: AttemptState, b: AttemptState, t: Tally)
    requires Reserved(a, t) && a.results.Keys == b.results.Keys && a.InFlight() == b.InFlight()
    ensures Reserved(b, t)
  {
    assert |a.results| == |a.results.Keys| == |b.results.Keys| == |b.results|;
  }

  function FirstTally(log: Log): Tally {
    Tally(Kind.Business, if log == [] then map[] else map[log[0].last.commandId := Kind.Business])
  }

  lemma ClaimIsReserved(contract: Contract, request: Request)
    ensures var s := ClaimedState(contract, request);
            Reserved(s, FirstTally([s.Snapshot()]))
  {
    var s := ClaimedState(contract, request);
    var kinds := FirstTally([s.Snapshot()]).kinds;
    assert s.results.Keys == kinds.Keys == {request.commandId};
    forall k: Kind
      ensures |UpTo(kinds, k)| <= k.Limit()
    {
      Contained(UpTo(kinds, k), {request.commandId});
    }
  }

  // ------------------------------------------------------------------- runs

  /** The tallies of all attempts, for what their ledgers say and for what is known of them. */
  datatype Tallies = Tallies(disk: map<string, Tally>, known: map<string, Tally>)

  const NO_TALLIES: Tallies := Tallies(map[], map[])

  function TallyOf(tallies: map<string, Tally>, name: string): Tally {
    if name in tallies then tallies[name] else FirstTally([])
  }

  function KnownTally(h: Tallies, w: World, w': World, name: string, kind: Kind): Tally
    requires name in w'.files
  {
    if name !in w.files || w.files[name] == [] || w'.files[name] == [] then FirstTally(w'.files[name])
    else
      var onDisk := if w'.files[name] == w.files[name] then Some(Fold(w.files[name])) else None;
      NextTally(TallyOf(h.known, name), TallyOf(h.disk, name), View(w, name), View(w', name), onDisk, kind)
  }

  /** What is known of an attempt stays, goes back to what was on disk, or goes on by one move. */
  function NextTally(
    known: Tally, disk: Tally, before: AttemptState, after: AttemptState, onDisk: Option<AttemptState>, kind: Kind)
    : Tally
  {
    if after == before then known
    else if onDisk == Some(after) then disk
    else TallyAfter(known, before.last, after.last, kind)
  }

  lemma NextIsReserved(
    known: Tally, disk: Tally, before: AttemptState, after: AttemptState, onDisk: Option<AttemptState>, kind: Kind,
    n: AttemptState)
    requires Reserved(before, known) && (onDisk.Some? ==> Reserved(onDisk.value, disk))
    requires SameButReceipts(after, n) && Reserved(n, TallyAfter(known, before.last, n.last, kind))
    ensures Reserved(after, NextTally(known, disk, before, after, onDisk, kind))
  {
    SameKeysSameReserve(n, after, TallyAfter(known, before.last, n.last, kind));
    assert n.last == n.Snapshot().last == after.Snapshot().last == after.last;
  }

  function DiskTally(h: Tallies, w: World, w': World, name: string, kind: Kind): Tally
    requires name in w'.files
  {
    if name in w.files && w'.files[name] == w.files[name] then TallyOf(h.disk, name)
    else KnownTally(h, w, w', name, kind)
  }

  /** The tallies after a call of the given kind. */
  function CallTallies(h: Tallies, w: World, w': World, kind: Kind): Tallies {
    Tallies(map name | name in w'.files :: DiskTally(h, w, w', name, kind),
            map name | name in w'.files :: KnownTally(h, w, w', name, kind))
  }

  ghost predicate ReservedAt(w: World, h: Tallies, name: string) {
    && name in w.files && w.files[name] != []
    && name in h.disk && Reserved(Fold(w.files[name]), h.disk[name])
    && name in h.known && Reserved(View(w, name), h.known[name])
  }

  ghost predicate AllReserved(w: World, h: Tallies) {
    forall name {:trigger ReservedAt(w, h, name)} :: name in w.files ==> ReservedAt(w, h, name)
  }

  lemma FromHasRoom(call: Call, s: AttemptState, m: Move, written: bool)
    requires From(call, Moved(s, m, written))
    ensures HasRoom(s, m, KindOf(call))
  {
  }

  lemma RestingKeepsReserve(w: World, w': World, h: Tallies, name: string, kind: Kind)
    requires Rests(w, w', name) && ReservedAt(w, h, name)
    ensures ReservedAt(w', CallTallies(h, w, w', kind), name)
  {
  }

  lemma OthersKeepReserve(w: World, w': World, h: Tallies, changed: Option<string>, kind: Kind)
    requires AllReserved(w, h) && OthersRest(w, w', changed)
    requires changed.Some? ==> ReservedAt(w', CallTallies(h, w, w', kind), changed.value)
    requires forall name :: name in w'.files ==> name in w.files || changed == Some(name)
    ensures AllReserved(w', CallTallies(h, w, w', kind))
  {
    forall name | name in w'.files
      ensures ReservedAt(w', CallTallies(h, w, w', kind), name)
    {
      if changed != Some(name) {
        assert Rests(w, w', name) && ReservedAt(w, h, name);
        RestingKeepsReserve(w, w', h, name, kind);
      }
    }
  }

  lemma ChangeKeepsReserve(w: World, w': World, call: Call, ch: Change, h: Tallies)
    requires AllReserved(w, h) && AllWritten(w'.files) && Makes(w, w', ch) && From(call, ch)
    ensures AllReserved(w', CallTallies(h, w, w', KindOf(call)))
  {
    match ch
    case Nothing => OthersKeepReserve(w, w', h, None, KindOf(call));
    case Claimed(contract, request) => ClaimedKeepsReserve(w, w', contract, request, h, KindOf(call));
    case Moved(s, m, written) =>
      FromHasRoom(call, s, m, written);
      MovedKeepsReserve(w, w', s, m, written, h, KindOf(call));
  }

  lemma ClaimedKeepsReserve(w: World, w': World, contract: Contract, request: Request, h: Tallies, kind: Kind)
    requires AllReserved(w, h) && Makes(w, w', Change.Claimed(contract, request))
    ensures AllReserved(w', CallTallies(h, w, w', kind))
  {
    var name, s := request.reference.attemptId, ClaimedState(contract, request);
    ClaimIsReserved(contract, request);
    ClaimMirrors(contract, request);
    MirrorFolds(s, [s.Snapshot()]);
    SameKeysSameReserve(s, View(w', name), FirstTally([s.Snapshot()]));
    SameKeysSameReserve(s, Fold(w'.files[name]), FirstTally([s.Snapshot()]));
    OthersKeepReserve(w, w', h, Some(name), kind);
  }

  lemma MovedKeepsReserve(
    w: World, w': World, s: AttemptState, m: Move, written: bool, h: Tallies, kind: Kind)
    requires AllReserved(w, h) && Makes(w, w', Moved(s, m, written)) && HasRoom(s, m, kind)
    ensures AllReserved(w', CallTallies(h, w, w', kind))
  {
    var name := s.reference.attemptId;
    assert ReservedAt(w, h, name);
    MovedOneKeepsReserve(w, w', s, m, written, h, kind);
    OthersKeepReserve(w, w', h, Some(name), kind);
  }

  lemma MovedOneKeepsReserve(
    w: World, w': World, s: AttemptState, m: Move, written: bool, h: Tallies, kind: Kind)
    requires MovedOn(w, w', s, m, written) && HasRoom(s, m, kind)
    requires ReservedAt(w, h, s.reference.attemptId)
    ensures ReservedAt(w', CallTallies(h, w, w', kind), s.reference.attemptId)
  {
    var name := s.reference.attemptId;
    var known := KnownTally(h, w, w', name, kind);
    MoveKeepsReserve(s, m, h.known[name], kind);
    KnownIsReserved(w, w', s, Next(s, m), h, kind);
    if written {
      WrittenIsReserved(w, w', s, m, known);
    }
    assert Reserved(Fold(w'.files[name]), DiskTally(h, w, w', name, kind));
  }

  lemma KnownIsReserved(w: World, w': World, s: AttemptState, n: AttemptState, h: Tallies, kind: Kind)
    requires ReservedAt(w, h, s.reference.attemptId) && View(w, s.reference.attemptId) == s
    requires s.reference.attemptId in w'.files && w'.files[s.reference.attemptId] != []
    requires SameButReceipts(View(w', s.reference.attemptId), n)
    requires Reserved(n, TallyAfter(h.known[s.reference.attemptId], s.last, n.last, kind))
    ensures Reserved(View(w', s.reference.attemptId), KnownTally(h, w, w', s.reference.attemptId, kind))
  {
    var name := s.reference.attemptId;
    var onDisk := if w'.files[name] == w.files[name] then Some(Fold(w.files[name])) else None;
    NextIsReserved(h.known[name], h.disk[name], s, View(w', name), onDisk, kind, n);
  }

  lemma WrittenIsReserved(w: World, w': World, s: AttemptState, m: Move, t: Tally)
    requires MovedOn(w, w', s, m, true) && Reserved(View(w', s.reference.attemptId), t)
    ensures Reserved(Fold(w'.files[s.reference.attemptId]), t)
    ensures w'.files[s.reference.attemptId] != w.files[s.reference.attemptId]
  {
    var name, n := s.reference.attemptId, Next(s, m);
    assert w'.files[name] == w.files[name] + [n.Snapshot()];
    assert |w'.files[name]| != |w.files[name]|;
    AppendKeepsMirror(s, m, w.files[name]);
    MirrorFolds(n, w'.files[name]);
    SameKeysSameReserve(View(w', name), Fold(w'.files[name]), t);
  }

  /** The tallies after one step, and after a run. A restart goes back to what the ledgers say. */
  function StepTallies(sys: Sys, h: Tallies, step: Step): Tallies {
    match step
    case Invoke(call, _) => CallTallies(h, sys.w, Take(sys, step).w, KindOf(call))
    case Restart(_) => Tallies(h.disk, h.disk)
    case Abandon => h
  }

  function RunTallies(sys: Sys, h: Tallies, steps: seq<Step>): Tallies
    decreases |steps|
  {
    if steps == [] then h else RunTallies(Take(sys, steps[0]), StepTallies(sys, h, steps[0]), steps[1..])
  }

  lemma StepKeepsReserve(sys: Sys, h: Tallies, step: Step)
    requires Inv(sys) && Permitted(sys, step) && AllReserved(sys.w, h)
    ensures AllReserved(Take(sys, step).w, StepTallies(sys, h, step))
  {
    match step
    case Invoke(call, writable) =>
      var ch := CallMakes(sys, call, writable);
      StepKeeps(sys, step);
      AllAreWritten(Take(sys, step).w);
      ChangeKeepsReserve(sys.w, Take(sys, step).w, call, ch, h);
    case Restart(listing) => RestartKeepsReserve(sys.w, Take(sys, step).w, h);
    case Abandon =>
  }

  lemma RestartKeepsReserve(w: World, w': World, h: Tallies)
    requires AllReserved(w, h) && w'.files == w.files && w'.active.None?
    ensures AllReserved(w', Tallies(h.disk, h.disk))
  {
    forall name | name in w'.files
      ensures ReservedAt(w', Tallies(h.disk, h.disk), name)
    {
      assert ReservedAt(w, h, name);
    }
  }

  lemma {:induction false} RunKeepsReserve(sys: Sys, h: Tallies, steps: seq<Step>)
    requires Inv(sys) && Legal(sys, steps) && AllReserved(sys.w, h)
    ensures AllReserved(Run(sys, steps).w, RunTallies(sys, h, steps))
    decreases |steps|
  {
    if steps != [] {
      StepKeepsReserve(sys, h, steps[0]);
      StepKeeps(sys, steps[0]);
      RunKeepsReserve(Take(sys, steps[0]), StepTallies(sys, h, steps[0]), steps[1..]);
    }
  }

  /** One journal with its tally: every kind keeps to its limit together with the kinds before it, and the
      journal is full for a kind only when the reserve of that kind is used up. */
  ghost predicate WithinLimits(s: AttemptState, t: Tally, k: Kind) {
    && t.kinds.Keys == s.results.Keys
    && |UpTo(t.kinds, k)| <= k.Limit()
    && |s.results| <= MAX_RESULTS
    && (|s.results| >= k.Limit() ==> |AtLeast(t.kinds, k)| >= k.Reserve())
  }

  lemma ReservedIsWithinLimits(s: AttemptState, t: Tally, k: Kind)
    requires Reserved(s, t)
    ensures WithinLimits(s, t, k)
  {
    assert |t.kinds| == |t.kinds.Keys| == |s.results.Keys| == |s.results|;
    assert UpTo(t.kinds, Kind.Finish) == t.kinds.Keys;
    if |s.results| >= k.Limit() {
      RefusedOnlyWhenReserveIsUsed(s, t, k);
    }
  }

  /** After any run every journal keeps to the limits, on disk and in memory: business commands alone never exceed
      theirs, nor do all commands up to a kind; so a journal is full for a kind only when its reserve is used up. */
  lemma CapacityIsReserved(steps: seq<Step>, name: string, k: Kind)
    requires Legal(GENESIS, steps) && name in Run(GENESIS, steps).w.files
    ensures var w := Run(GENESIS, steps).w;
            var tallies := RunTallies(GENESIS, NO_TALLIES, steps);
            && w.files[name] != [] && name in tallies.disk && name in tallies.known
            && WithinLimits(Fold(w.files[name]), tallies.disk[name], k)
            && WithinLimits(View(w, name), tallies.known[name], k)
  {
    GenesisIsSound();
    RunKeepsReserve(GENESIS, NO_TALLIES, steps);
    var w, tallies := Run(GENESIS, steps).w, RunTallies(GENESIS, NO_TALLIES, steps);
    assert ReservedAt(w, tallies, name);
    ReservedIsWithinLimits(Fold(w.files[name]), tallies.disk[name], k);
    ReservedIsWithinLimits(View(w, name), tallies.known[name], k);
  }

  ghost predicate HasPlace(w: World, name: string, limit: nat) {
    name in w.files ==> w.files[name] != [] && |View(w, name).results| < limit
  }

  /** `prepare` never answers that the journal is full while it is below the limit of the command's kind. */
  lemma NeverFullBelowTheLimit(w: World, call: Call)
    requires Healthy(w) && call.Prepare? && ValidateTask(call.task).Ok?
    requires HasPlace(w, ValidateTask(call.task).value.reference.attemptId, call.mode.Limit())
    ensures Perform(w, call).reply != Err(LedgerFull)
  {
    EnterKeeps(w, call.task);
    EnterIsNotFull(w, call.task);
    PrepareAnswers(w, call, Enter(w, call.task));
    var e := Enter(w, call.task);
    if e.request.Ok? && e.world.active.Some? {
      assert View(e.world, e.world.active.value.reference.attemptId) == e.world.active.value;
      ActiveIsNotFull(e.world, e.world.active.value, e.request.value, call.mode, call.now);
    }
  }

  lemma EnterIsNotFull(w: World, task: TaskCommand)
    requires Healthy(w)
    ensures Enter(w, task).request != Err(LedgerFull)
  {
    LoadKeeps(w);
  }

  lemma PrepareAnswers(w: World, call: Call, e: Entry)
    requires call.Prepare? && e == Enter(w, call.task)
    ensures Perform(w, call) ==
            if e.request.Err? then Answer(e.world, Err(e.request.code))
            else if e.world.active.None? then Answer(e.world, Err(AttemptNotFound))
            else Execute(e.world, e.world.active.value,
                         DecidePrepare(e.world.active.value, e.request.value, call.mode, call.now))
  {
  }

  lemma ActiveIsNotFull(w: World, s: AttemptState, request: Request, mode: Mode, now: int)
    requires Healthy(w) && w.loaded && w.active == Some(s)
    requires HasPlace(w, request.reference.attemptId, mode.Limit())
    ensures Execute(w, s, DecidePrepare(s, request, mode, now)).reply != Err(LedgerFull)
  {
    PrepareIsSound(s, request, mode, now);
    PrepareIsNotFull(s, request, mode, now);
    NeitherIsTheAnswer(w, s, DecidePrepare(s, request, mode, now));
  }

  lemma PrepareIsNotFull(s: AttemptState, request: Request, mode: Mode, now: int)
    requires s.reference == request.reference ==> |s.results| < mode.Limit()
    ensures var v := DecidePrepare(s, request, mode, now);
            v != Decline(LedgerFull) && v != Give(Err(LedgerFull))
  {
  }

  lemma NeitherIsTheAnswer(w: World, s: AttemptState, v: Verdict)
    requires w.durable && w.loaded && w.active == Some(s) && Settled(s) && Sound(s, v)
    requires v != Decline(LedgerFull) && v != Give(Err(LedgerFull))
    ensures Execute(w, s, v).reply != Err(LedgerFull)
  {
    ExecuteFacts(w, s, v);
  }

  /** Fewer commands of this kind and the later kinds are stored than are reserved for them. */
  ghost predicate HasReserve(tallies: map<string, Tally>, name: string, k: Kind) {
    name in tallies ==> |AtLeast(tallies[name].kinds, k)| < k.Reserve()
  }

  lemma ReserveKeepsAPlace(steps: seq<Step>, name: string, k: Kind)
    requires Legal(GENESIS, steps) && HasReserve(RunTallies(GENESIS, NO_TALLIES, steps).known, name, k)
    ensures HasPlace(Run(GENESIS, steps).w, name, k.Limit())
  {
    if name in Run(GENESIS, steps).w.files {
      CapacityIsReserved(steps, name, k);
    }
  }

  /** After any run: as long as fewer commands of its kind and the later kinds are stored than are reserved for
      them, a command is not refused for capacity. For a finish that is fewer than MAX_FINISH finishes, for a
      release fewer than MAX_RELEASE releases and finishes. */
  lemma ReserveIsGranted(steps: seq<Step>, call: Call, writable: bool)
    requires Legal(GENESIS, steps)
    requires call.Prepare? && ValidateTask(call.task).Ok?
    requires HasReserve(RunTallies(GENESIS, NO_TALLIES, steps).known,
                        ValidateTask(call.task).value.reference.attemptId, KindOf(call))
    ensures Perform(Run(GENESIS, steps).w.(writable := writable), call).reply != Err(LedgerFull)
  {
    var name := ValidateTask(call.task).value.reference.attemptId;
    var w := Run(GENESIS, steps).w;
    GenesisIsSound();
    RunKeeps(GENESIS, steps);
    ReserveKeepsAPlace(steps, name, KindOf(call));
    assert KindOf(call).Limit() == call.mode.Limit();
    assert name in w.files ==> View(w.(writable := writable), name) == View(w, name);
    NeverFullBelowTheLimit(w.(writable := writable), call);
  }
}
