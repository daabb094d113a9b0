/**
 The managed-game lifecycle: a persisted, versioned policy per game, the closing
 gate, the idle deadline, and the close receipt that is replayed until it is
 acknowledged. Each operation is a function of the whole state, the file on disk
 included; `ManagedGameLifecycle` is proved against these functions.
 */
module ManagedGame {
  import opened Outcomes
  import opened Decimals

  const MIN_IDLE_TIMEOUT_MS: nat := 5 * 60 * 1_000
  const MAX_IDLE_TIMEOUT_MS: nat := 24 * 60 * 60 * 1_000
  const MAX_SEQUENCE: nat := 0xFFFF_FFFF_FFFF_FFFF

  datatype Policy = Policy(
    gameId: string, sessionId: string, profileId: string, version: nat,
    enabled: bool, idleTimeout: nat, occupied: bool)

  datatype Trigger = Unspecified | Manual | Idle
  {
    function Code(): nat {
      match this
      case Unspecified => 0
      case Manual => 1
      case Idle => 2
    }
  }

  datatype CloseResult = Unspecified | Graceful | Forced | Failed
  {
    function Code(): nat {
      match this
      case Unspecified => 0
      case Graceful => 1
      case Forced => 2
      case Failed => 3
    }
  }

  datatype CloseReceipt = CloseReceipt(
    sessionId: string, version: nat, trigger: Trigger, result: CloseResult, at: int, error: Option<string>)

  datatype Closing = Closing(sessionId: string, version: nat, failed: bool)

  /** What is written to disk, as one file. */
  datatype Store = Store(
    agentId: Option<string>, policies: map<string, Policy>, sequence: nat,
    pending: Option<CloseReceipt>, closing: Option<Closing>)

  datatype ActiveGame = ActiveGame(policy: Policy, lastActivity: int, lastActivityAt: int, closing: bool, failed: bool)

  /** `disk` holds what can be read of the files, one per agent; `path` names the agent whose file this lifecycle
      writes, if it has one; `writable` says whether the next write succeeds. */
  datatype Game = Game(
    path: Option<string>, disk: map<string, Store>, writable: bool,
    store: Store, bound: Option<string>, active: Option<ActiveGame>, report: bool, known: bool)

  datatype Kept = Kept(game: Game, result: Result<()>)

  datatype Closed = Closed(game: Game, receipt: Option<CloseReceipt>)

  // ------------------------------------------------------------------- parts

  function EmptyStore(agentId: Option<string>): Store {
    Store(agentId, map[], 0, None, None)
  }

  function Bump(sequence: nat): nat {
    if sequence >= MAX_SEQUENCE then MAX_SEQUENCE else sequence + 1
  }

  function Bumped(store: Store): Store {
    store.(sequence := Bump(store.sequence))
  }

  predicate InGate(closing: Option<Closing>, policy: Policy) {
    closing.Some? && closing.value.sessionId == policy.sessionId && closing.value.version == policy.version
  }

  /** A policy becomes active with the flags of the stored closing. */
  function Activate(store: Store, policy: Policy, now: int, at: int): ActiveGame {
    ActiveGame(policy, now, at, InGate(store.closing, policy),
               InGate(store.closing, policy) && store.closing.value.failed)
  }

  function Persist(g: Game): Kept {
    if g.path.None? then Kept(g, Ok(()))
    else if !g.writable then Kept(g, Err(PersistenceFailed))
    else Kept(g.(disk := g.disk[g.path.value := g.store]), Ok(()))
  }

  function ValidateConfig(p: Policy): Result<()> {
    if p.gameId == "" || p.sessionId == "" || p.profileId == "" || p.version == 0 then Err(StateInvalid)
    else if p.enabled && !(MIN_IDLE_TIMEOUT_MS <= p.idleTimeout <= MAX_IDLE_TIMEOUT_MS) then Err(TimeoutInvalid)
    else if !p.enabled && p.idleTimeout != 0 then Err(TimeoutInvalid)
    else Ok(())
  }

  /** Time that has passed since `since`; an earlier instant counts as none. */
  function Elapsed(now: int, since: int): nat {
    if now >= since then now - since else 0
  }

  // -------------------------------------------------------------- operations

  function Memory(): Game {
    Game(None, map[], true, EmptyStore(None), None, None, false, false)
  }

  /** Opens the file of one agent; anything unreadable, or written for another agent, counts as absent. */
  function Open(disk: map<string, Store>, writable: bool, agentId: string): Game {
    var known := agentId in disk && disk[agentId].agentId == Some(agentId);
    var store := if known then disk[agentId] else EmptyStore(Some(agentId));
    Game(Some(agentId), disk, writable, store, None, None, store.pending.Some?, known)
  }

  predicate AnyOccupied(policies: map<string, Policy>) {
    exists id :: id in policies && policies[id].occupied
  }

  function Vacated(policies: map<string, Policy>): map<string, Policy> {
    map id | id in policies :: policies[id].(occupied := false)
  }

  function ReleaseTaskOccupancy(g: Game): Kept {
    if !AnyOccupied(g.store.policies) then Kept(g, Ok(()))
    else
      var kept := Persist(g.(store := Bumped(g.store.(policies := Vacated(g.store.policies)))));
      if kept.result.Err? then Kept(g, kept.result)
      else if g.active.None? then kept
      else
        var vacant := g.active.value.policy.(occupied := false);
        Kept(kept.game.(active := Some(g.active.value.(policy := vacant))), Ok(()))
  }

  /** The policy of a profile, when exactly one game has it. */
  ghost predicate IsSole(policies: map<string, Policy>, profileId: string, id: string) {
    && id in policies && policies[id].profileId == profileId
    && forall other :: other in policies && policies[other].profileId == profileId ==> other == id
  }

  ghost function SolePolicy(policies: map<string, Policy>, profileId: string): Option<Policy> {
    if id :| IsSole(policies, profileId, id) then Some(policies[id]) else None
  }

  ghost function BindTarget(g: Game, profileId: string, now: int, at: int): Game {
    var policy := SolePolicy(g.store.policies, profileId);
    g.(bound := Some(profileId),
       active := if policy.None? then None else Some(Activate(g.store, policy.value, now, at)))
  }

  function Configure(g: Game, p: Policy, now: int, at: int): Kept {
    var current := if p.gameId in g.store.policies then Some(g.store.policies[p.gameId]) else None;
    if ValidateConfig(p).Err? then Kept(g, ValidateConfig(p))
    else if g.store.closing.Some? && !InGate(g.store.closing, p) then Kept(g, Err(TargetClosing))
    else if current.Some? && p.version < current.value.version then Kept(g, Err(StateStale))
    else if current.Some? && p.version == current.value.version then
      if p != current.value then Kept(g, Err(StateVersionConflict))
      else if g.active.None? && g.bound == Some(p.profileId) then
        Kept(g.(active := Some(Activate(g.store, p, now, at))), Ok(()))
      else Kept(g, Ok(()))
    else Install(g, p, now, at)
  }

  /** A new version is stored first; it becomes active only once it is persisted. */
  function Install(g: Game, p: Policy, now: int, at: int): Kept {
    var kept := Persist(g.(store := Bumped(g.store.(policies := g.store.policies[p.gameId := p]))));
    if kept.result.Err? then kept
    else
      Kept(kept.game.(active := if g.bound == Some(p.profileId)
                                then Some(Activate(kept.game.store, p, now, at)) else None), Ok(()))
  }

  predicate Idling(a: ActiveGame) {
    a.policy.enabled && !a.policy.occupied && !a.closing
  }

  function MarkActivity(g: Game, now: int, at: int): Game {
    if g.active.None? || !Idling(g.active.value) then g
    else Persist(g.(active := Some(g.active.value.(lastActivity := now, lastActivityAt := at)),
                    store := Bumped(g.store))).game
  }

  predicate Due(g: Game, now: int) {
    && g.active.Some? && Idling(g.active.value) && !g.active.value.failed
    && Elapsed(now, g.active.value.lastActivity) >= g.active.value.policy.idleTimeout
  }

  function ReceiptFor(a: ActiveGame, trigger: Trigger, result: CloseResult, at: int, error: Option<string>)
    : CloseReceipt
  {
    CloseReceipt(a.policy.sessionId, a.policy.version, trigger, result, at, error)
  }

  /** The closing gate shuts on the active game. */
  function Gated(g: Game, failed: bool): Game
    requires g.active.Some?
  {
    var a := g.active.value;
    g.(active := Some(a.(closing := true, failed := failed)),
       store := Bumped(g.store.(closing := Some(Closing(a.policy.sessionId, a.policy.version, failed)))))
  }

  /** The active game is gone: its policy, the stored closing and the binding are dropped. */
  function Departed(g: Game): Game
    requires g.active.Some?
  {
    g.(store := g.store.(policies := g.store.policies - {g.active.value.policy.gameId}, closing := None),
       bound := None, active := None)
  }

  function Close(g: Game, trigger: Trigger, result: CloseResult, at: int, error: Option<string>): Closed {
    if g.active.None? then Closed(g, None)
    else
      var receipt := ReceiptFor(g.active.value, trigger, result, at, error);
      var noted := g.(store := g.store.(pending := Some(receipt)), report := true);
      Closed(Persist(if result.Failed? then Gated(noted, true) else Departed(noted)).game, Some(receipt))
  }

  function BeginClose(g: Game): Kept {
    if g.active.None? then Kept(g, Err(IdentityUnavailable)) else Persist(Gated(g, false))
  }

  function ManualCloseFailed(g: Game, error: string, at: int): Closed {
    if g.active.None? then Closed(g, None)
    else Closed(Persist(Gated(g, true)).game,
                Some(ReceiptFor(g.active.value, Manual, CloseResult.Failed, at, Some(error))))
  }

  function ManualClose(g: Game, result: CloseResult, at: int): Closed {
    if g.active.None? then Closed(g, None)
    else Closed(Persist(Departed(g)).game, Some(ReceiptFor(g.active.value, Manual, result, at, None)))
  }

  function PrepareCloseReplay(g: Game): Game {
    g.(report := g.store.pending.Some?)
  }

  function PendingCloseReceipt(g: Game): Option<CloseReceipt> {
    if g.report then g.store.pending else None
  }

  function MarkCloseReported(g: Game): Game {
    g.(report := false)
  }

  predicate Acknowledges(r: CloseReceipt, eventId: string, sessionId: string, version: nat) {
    r.sessionId == sessionId && r.version == version && CloseEventId(r) == eventId
  }

  function AcknowledgeClose(g: Game, eventId: string, sessionId: string, version: nat): Kept {
    if g.store.pending.None? then Kept(g, Err(AckStale))
    else if !Acknowledges(g.store.pending.value, eventId, sessionId, version) then Kept(g, Err(AckMismatch))
    else Persist(g.(store := g.store.(pending := None), report := false))
  }

  predicate Released(g: Game) {
    && g.known && g.bound.None? && g.active.None?
    && g.store.closing.None? && g.store.pending.None? && !AnyOccupied(g.store.policies)
  }

  // --------------------------------------------------------------- event ids

  function ErrorText(error: Option<string>): string {
    if error.Some? then error.value else ""
  }

  /** The fields of a receipt, joined by colons. */
  function CloseEventId(r: CloseReceipt): string {
    r.sessionId + ":" + Decimal(r.version) + ":" + Decimal(r.trigger.Code()) + ":" + Decimal(r.result.Code())
    + ":" + Decimal(r.at) + ":" + ErrorText(r.error)
  }
}
