/**
 Runs of the managed-game lifecycle with failing writes and restarts, as one agent or
 another: the closing gate, the policy versions and the close evidence.
 */
module ManagedGameRuns {
  import opened Outcomes
  import opened Decimals
  import opened ManagedGame

  datatype Step =
    | Release
    | Bind(profileId: string, now: int, at: int)
    | Config(policy: Policy, now: int, at: int)
    | Touch(now: int, at: int)
    | Close(trigger: Trigger, result: CloseResult, at: int, error: Option<string>)
    | Begin
    | CloseFailed(text: string, at: int)
    | Leave(result: CloseResult, at: int)
    | Reconnect
    | Report
    | Acknowledge(eventId: string, sessionId: string, version: nat)
    | Restart(agentId: string)

  /** One step; `writable` says whether its write to disk succeeds. */
  datatype Event = Event(step: Step, writable: bool)

  ghost function Take(g0: Game, e: Event): Game {
    var g := g0.(writable := e.writable);
    match e.step
    case Release => ReleaseTaskOccupancy(g).game
    case Bind(profileId, now, at) => BindTarget(g, profileId, now, at)
    case Config(policy, now, at) => Configure(g, policy, now, at).game
    case Touch(now, at) => MarkActivity(g, now, at)
    case Close(trigger, result, at, error) => ManagedGame.Close(g, trigger, result, at, error).game
    case Begin => BeginClose(g).game
    case CloseFailed(text, at) => ManualCloseFailed(g, text, at).game
    case Leave(result, at) => ManualClose(g, result, at).game
    case Reconnect => PrepareCloseReplay(g)
    case Report => MarkCloseReported(g)
    case Acknowledge(eventId, sessionId, version) => AcknowledgeClose(g, eventId, sessionId, version).game
    case Restart(agentId) => if g.path.Some? then Open(g.disk, g.writable, agentId) else Memory()
  }

  ghost function Run(g: Game, events: seq<Event>): Game
    decreases |events|
  {
    if events == [] then g else Run(Take(g, events[0]), events[1..])
  }

  // ------------------------------------------------------- memory and disk

  /** Whether the step writes the store, if there is a file to write it to. */
  ghost predicate Persisting(g: Game, step: Step) {
    match step
    case Release => AnyOccupied(g.store.policies)
    case Config(policy, _, _) => Installs(g, policy)
    case Touch(_, _) => g.active.Some? && Idling(g.active.value)
    case Close(_, _, _, _) => g.active.Some?
    case Begin => g.active.Some?
    case CloseFailed(_, _) => g.active.Some?
    case Leave(_, _) => g.active.Some?
    case Acknowledge(eventId, sessionId, version) =>
      g.store.pending.Some? && Acknowledges(g.store.pending.value, eventId, sessionId, version)
    case _ => false
  }

  /** A policy that is neither refused nor known already. */
  predicate Installs(g: Game, p: Policy) {
    && ValidateConfig(p).Ok?
    && (g.store.closing.Some? ==> InGate(g.store.closing, p))
    && (p.gameId in g.store.policies ==> g.store.policies[p.gameId].version < p.version)
  }

  ghost predicate Writes(g: Game, e: Event) {
    g.path.Some? && e.writable && Persisting(g, e.step)
  }

  /** A step writes the whole store of its own agent or nothing. */
  lemma StepWritesExactly(g0: Game, e: Event)
    requires g0.path.Some?
    ensures var g := Take(g0, e);
            && g.path == (if e.step.Restart? then Some(e.step.agentId) else g0.path)
            && g.disk == if Writes(g0, e) then g0.disk[g0.path.value := g.store] else g0.disk
  {
    if e.step.Close? || e.step.Begin? || e.step.CloseFailed? || e.step.Leave? {
      ClosingWritesExactly(g0, e);
    } else {
      OtherStepWritesExactly(g0, e);
    }
  }

  lemma ClosingWritesExactly(g0: Game, e: Event)
    requires g0.path.Some? && (e.step.Close? || e.step.Begin? || e.step.CloseFailed? || e.step.Leave?)
    ensures var g := Take(g0, e);
            && g.path == g0.path
            && g.disk == if Writes(g0, e) then g0.disk[g0.path.value := g.store] else g0.disk
  {
  }

  lemma OtherStepWritesExactly(g0: Game, e: Event)
    requires g0.path.Some? && !(e.step.Close? || e.step.Begin? || e.step.CloseFailed? || e.step.Leave?)
    ensures var g := Take(g0, e);
            && g.path == (if e.step.Restart? then Some(e.step.agentId) else g0.path)
            && g.disk == if Writes(g0, e) then g0.disk[g0.path.value := g.store] else g0.disk
  {
    hide Acknowledges, SolePolicy, Vacated;
    if e.step.Config? {
      ConfigureWritesExactly(g0.(writable := e.writable), e.step.policy, e.step.now, e.step.at);
    }
  }

  lemma ConfigureWritesExactly(g: Game, p: Policy, now: int, at: int)
    ensures var kept := Configure(g, p, now, at);
            if Installs(g, p) then kept == Install(g, p, now, at)
            else kept.game == g.(active := kept.game.active)
  {
  }

  /** What a restart as this agent would find. */
  function FileOf(g: Game, agentId: string): Option<Store> {
    if agentId in g.disk && g.disk[agentId].agentId == Some(agentId) then Some(g.disk[agentId]) else None
  }

  /** A lifecycle with a file writes the name of its agent into it. */
  ghost predicate Named(g: Game) {
    g.path.Some? && g.store.agentId == g.path
  }

  lemma StepKeepsName(g: Game, e: Event)
    requires Named(g)
    ensures Named(Take(g, e))
  {
    if !e.step.Restart? {
      StepTouches(g, e);
    }
  }

  /** What a step of one process leaves in the store. */
  ghost predicate Touches(g: Game, step: Step, after: Game) {
    && after.path == g.path && after.store.agentId == g.store.agentId
    && after.store.sequence in {g.store.sequence, Bump(g.store.sequence)}
    && after.store.closing == ClosingAfter(g, step)
    && after.store.pending == PendingAfter(g, step)
    && (!step.Config? && !step.Release? ==>
          after.store.policies == if ClosesGame(g, step) then g.store.policies - {g.active.value.policy.gameId}
                                  else g.store.policies)
  }

  lemma StepTouches(g: Game, e: Event)
    requires !e.step.Restart?
    ensures Touches(g, e.step, Take(g, e))
  {
    if e.step.Close? || e.step.Begin? || e.step.CloseFailed? || e.step.Leave? {
      ClosingTouches(g, e, Take(g, e));
    } else {
      OtherStepTouches(g, e);
    }
  }

  lemma ClosingTouches(g: Game, e: Event, after: Game)
    requires e.step.Close? || e.step.Begin? || e.step.CloseFailed? || e.step.Leave?
    requires after == Take(g, e)
    ensures Touches(g, e.step, after)
  {
  }

  lemma OtherStepTouches(g: Game, e: Event)
    requires !e.step.Restart?
    requires !(e.step.Close? || e.step.Begin? || e.step.CloseFailed? || e.step.Leave?)
    ensures Touches(g, e.step, Take(g, e))
  {
    hide Acknowledges, SolePolicy, Vacated, AnyOccupied;
    if e.step.Config? {
      ConfigureTouchesPolicies(g.(writable := e.writable), e.step.policy, e.step.now, e.step.at);
    }
  }

  ghost function ClosingAfter(g: Game, step: Step): Option<Closing> {
    if g.active.None? then g.store.closing
    else
      var policy := g.active.value.policy;
      if ClosesGame(g, step) then None
      else if step.Close? || step.CloseFailed? then Some(Closing(policy.sessionId, policy.version, true))
      else if step.Begin? then Some(Closing(policy.sessionId, policy.version, false))
      else g.store.closing
  }

  function PendingAfter(g: Game, step: Step): Option<CloseReceipt> {
    if step.Close? && g.active.Some? then
      Some(ReceiptFor(g.active.value, step.trigger, step.result, step.at, step.error))
    else if step.Acknowledge? && g.store.pending.Some?
            && Acknowledges(g.store.pending.value, step.eventId, step.sessionId, step.version) then None
    else g.store.pending
  }

  lemma ConfigureTouchesPolicies(g: Game, p: Policy, now: int, at: int)
    ensures var after := Configure(g, p, now, at).game;
            && after.store == g.store.(policies := after.store.policies, sequence := after.store.sequence)
            && after.store.sequence in {g.store.sequence, Bump(g.store.sequence)}
            && after.path == g.path
  {
  }

  /** What a step leaves in the file of an agent: what it was, or all that this agent knows now. */
  lemma FileAfter(g: Game, e: Event, agentId: string)
    requires Named(g)
    ensures Named(Take(g, e))
    ensures FileOf(Take(g, e), agentId) ==
            if Writes(g, e) && g.path == Some(agentId) then Some(Take(g, e).store) else FileOf(g, agentId)
  {
    StepKeepsName(g, e);
    StepWritesExactly(g, e);
  }

  /** A restart finds what is on disk. */
  lemma RestartReads(g: Game, agentId: string, writable: bool)
    requires g.path.Some? && FileOf(g, agentId).Some?
    ensures var after := Take(g, Event(Restart(agentId), writable));
            && after.store == FileOf(g, agentId).value && after.path == Some(agentId)
            && PendingCloseReceipt(after) == after.store.pending
  {
  }

  // ------------------------------------------------------------ closing gate

  ghost predicate KeysOk(store: Store) {
    forall id :: id in store.policies ==> store.policies[id].gameId == id
  }

  /** The active policy is the stored one, and its flags are those of the stored closing. */
  ghost predicate GateOk(g: Game) {
    g.active.Some? ==>
      var a := g.active.value;
      && a.policy.gameId in g.store.policies && g.store.policies[a.policy.gameId] == a.policy
      && a == Activate(g.store, a.policy, a.lastActivity, a.lastActivityAt)
  }

  ghost predicate Sane(g: Game) {
    && KeysOk(g.store) && GateOk(g)
    && (forall agentId :: agentId in g.disk ==> KeysOk(g.disk[agentId]))
  }

  /** A lifecycle without a file, and one that opens a directory without files. */
  lemma StartsAreSane(agentId: string, writable: bool)
    ensures Sane(Memory())
    ensures Sane(Open(map[], writable, agentId)) && Named(Open(map[], writable, agentId))
  {
  }

  lemma SoleIsStored(policies: map<string, Policy>, profileId: string)
    ensures var p := SolePolicy(policies, profileId);
            p.Some? ==> exists id :: id in policies && policies[id] == p.value && p.value.profileId == profileId
  {
  }

  /** Only a policy that could not be persisted can leave the active game behind. */
  predicate Persists(g: Game, e: Event) {
    g.path.None? || e.writable
  }

  lemma StepKeepsGate(g0: Game, e: Event)
    requires Sane(g0) && (e.step.Config? ==> Persists(g0, e))
    ensures Sane(Take(g0, e))
  {
    var g := g0.(writable := e.writable);
    match e.step
    case Release => ReleaseKeepsGate(g);
    case Bind(profileId, now, at) => BindKeepsGate(g, profileId, now, at);
    case Touch(now, at) => TouchKeepsGate(g, now, at);
    case Acknowledge(eventId, sessionId, version) => AcknowledgeKeepsGate(g, eventId, sessionId, version);
    case Config(policy, now, at) => ConfigureKeepsGate(g, policy, now, at);
    case Close(trigger, result, at, error) => CloseKeepsGate(g, trigger, result, at, error);
    case Begin => GatedIsSane(g, false);
    case CloseFailed(_, _) => GatedIsSane(g, true);
    case Leave(_, _) => DepartedIsSane(g);
    case _ =>
  }

  lemma BindKeepsGate(g: Game, profileId: string, now: int, at: int)
    requires Sane(g)
    ensures Sane(BindTarget(g, profileId, now, at))
  {
    SoleIsStored(g.store.policies, profileId);
  }

  lemma TouchKeepsGate(g: Game, now: int, at: int)
    requires Sane(g)
    ensures Sane(MarkActivity(g, now, at))
  {
  }

  lemma AcknowledgeKeepsGate(g: Game, eventId: string, sessionId: string, version: nat)
    requires Sane(g)
    ensures Sane(AcknowledgeClose(g, eventId, sessionId, version).game)
  {
  }

  lemma ReleaseKeepsGate(g: Game)
    requires Sane(g)
    ensures Sane(ReleaseTaskOccupancy(g).game)
  {
  }

  lemma ConfigureKeepsGate(g: Game, p: Policy, now: int, at: int)
    requires Sane(g) && (g.path.None? || g.writable)
    ensures Sane(Configure(g, p, now, at).game)
  {
    ConfigureWritesExactly(g, p, now, at);
    if Installs(g, p) {
      InstallKeepsGate(g, p, now, at);
    }
  }

  lemma InstallKeepsGate(g: Game, p: Policy, now: int, at: int)
    requires Sane(g) && (g.path.None? || g.writable)
    ensures Sane(Install(g, p, now, at).game)
  {
  }

  lemma GatedIsSane(g: Game, failed: bool)
    requires Sane(g)
    ensures g.active.Some? ==> Sane(Gated(g, failed)) && Sane(Persist(Gated(g, failed)).game)
  {
  }

  lemma DepartedIsSane(g: Game)
    requires Sane(g)
    ensures g.active.Some? ==> Sane(Departed(g)) && Sane(Persist(Departed(g)).game)
  {
  }

  lemma CloseKeepsGate(g: Game, trigger: Trigger, result: CloseResult, at: int, error: Option<string>)
    requires Sane(g)
    ensures Sane(ManagedGame.Close(g, trigger, result, at, error).game)
  {
    if g.active.Some? {
      var noted := g.(store := g.store.(pending := Some(ReceiptFor(g.active.value, trigger, result, at, error))),
                      report := true);
      GatedIsSane(noted, true);
      DepartedIsSane(noted);
    }
  }

  /** In every run whose policies reach the disk the active policy equals the stored one and its flags those of
      the stored closing, whatever other writes fail and wherever the process restarts. */
  lemma {:induction false} GateHolds(g: Game, events: seq<Event>)
    requires Sane(g)
    requires forall i :: 0 <= i < |events| && events[i].step.Config? ==> events[i].writable
    ensures Sane(Run(g, events))
    decreases |events|
  {
    if events != [] {
      StepKeepsGate(g, events[0]);
      GateHolds(Take(g, events[0]), events[1..]);
    }
  }

  /** A policy that could not be persisted breaks the gate exactly when it is for the active game: the stored
      policy is then ahead of the active one. */
  lemma UnpersistedPolicyBreaksTheGate(g: Game, p: Policy, now: int, at: int)
    requires Sane(g) && g.path.Some? && !g.writable
    requires Configure(g, p, now, at).result == Err(PersistenceFailed)
    ensures GateOk(Configure(g, p, now, at).game) <==> g.active.None? || g.active.value.policy.gameId != p.gameId
  {
  }

  /** While a closing is stored, no other identity is configured. */
  lemma GateRefusesOthers(g: Game, p: Policy, now: int, at: int)
    requires g.store.closing.Some? && !InGate(g.store.closing, p)
    ensures Configure(g, p, now, at).result.Err? && Configure(g, p, now, at).game == g
    ensures ValidateConfig(p).Ok? ==> Configure(g, p, now, at).result == Err(TargetClosing)
  {
  }

  /** A close that took the active game away. */
  predicate ClosesGame(g: Game, step: Step) {
    g.active.Some? && ((step.Close? && !step.result.Failed?) || step.Leave?)
  }

  /** Within a process the stored closing is cleared exactly by a successful close of the active game. */
  lemma ClosingIsClearedByClose(g: Game, e: Event)
    requires g.store.closing.Some? && !e.step.Restart?
    ensures Take(g, e).store.closing.None? <==> ClosesGame(g, e.step)
  {
    StepTouches(g, e);
  }

  /** The gate of the agent is shut, on disk and in memory while the agent runs. */
  ghost predicate Shut(g: Game, agentId: string) {
    && Named(g)
    && FileOf(g, agentId).Some? && FileOf(g, agentId).value.closing.Some?
    && (g.path == Some(agentId) ==> g.store.closing.Some?)
  }

  lemma BeginCloseShuts(g: Game, agentId: string)
    requires Named(g) && g.path == Some(agentId) && BeginClose(g).result.Ok?
    ensures Shut(BeginClose(g).game, agentId)
  {
  }

  /** The agent closes no game successfully anywhere in the run. */
  ghost predicate ClosesNothing(g: Game, events: seq<Event>, agentId: string)
    decreases |events|
  {
    events == []
    || ((g.path == Some(agentId) ==> !ClosesGame(g, events[0].step))
        && ClosesNothing(Take(g, events[0]), events[1..], agentId))
  }

  lemma StepKeepsShut(g: Game, e: Event, agentId: string)
    requires Shut(g, agentId) && (g.path == Some(agentId) ==> !ClosesGame(g, e.step))
    ensures Shut(Take(g, e), agentId)
  {
    FileAfter(g, e, agentId);
    if e.step.Restart? {
      if e.step.agentId == agentId {
        RestartReads(g, agentId, e.writable);
      }
    } else if g.path == Some(agentId) {
      ClosingIsClearedByClose(g, e);
    }
  }

  /** As long as the agent closes no game, a closing that is on disk stays there and in memory, whatever writes
      fail, across restarts and while other agents run. */
  lemma {:induction false} ClosingStays(g: Game, events: seq<Event>, agentId: string)
    requires Shut(g, agentId) && ClosesNothing(g, events, agentId)
    ensures Shut(Run(g, events), agentId)
    ensures Take(Run(g, events), Event(Restart(agentId), true)).store.closing.Some?
    ensures Run(g, events).path == Some(agentId) ==> !Released(Run(g, events))
    decreases |events|
  {
    if events == [] {
      RestartReads(g, agentId, true);
    } else {
      StepKeepsShut(g, events[0], agentId);
      ClosingStays(Take(g, events[0]), events[1..], agentId);
    }
  }

  /** A stored closing cannot tell two games of one session and version apart. */
  predicate SameIdentity(p: Policy, q: Policy) {
    p.sessionId == q.sessionId && p.version == q.version
  }

  ghost predicate IdentitiesDiffer(policies: map<string, Policy>) {
    forall a, b :: a in policies && b in policies && SameIdentity(policies[a], policies[b]) ==> a == b
  }

  ghost predicate SomeGameInGate(policies: map<string, Policy>, closing: Option<Closing>) {
    exists id :: id in policies && InGate(closing, policies[id])
  }

  /** A successful close always clears the stored closing. The game that was in the gate is still stored
      afterwards, its gate open again, exactly when it is another one than the closed game; if identities differ
      and the closing was of a stored game, that is exactly when the active game was not in the gate. */
  lemma ClosingIsLostExactly(g: Game, e: Event)
    requires Sane(g) && ClosesGame(g, e.step) && g.store.closing.Some?
    ensures var after := Take(g, e).store;
            && after.closing.None?
            && (SomeGameInGate(after.policies, g.store.closing) <==>
                exists id :: id in g.store.policies && id != g.active.value.policy.gameId
                             && InGate(g.store.closing, g.store.policies[id]))
            && (IdentitiesDiffer(g.store.policies) && SomeGameInGate(g.store.policies, g.store.closing) ==>
                  (SomeGameInGate(after.policies, g.store.closing) <==> !g.active.value.closing))
  {
    var gone := g.active.value.policy.gameId;
    var after := Take(g, e).store;
    assert after.policies == g.store.policies - {gone};
    forall id | id in after.policies
      ensures id in g.store.policies && after.policies[id] == g.store.policies[id] && id != gone
    {
    }
  }

  const GAME_A: Policy := Policy("a", "session-a", "profile-a", 1, false, 0, false)
  const GAME_B: Policy := Policy("b", "session-b", "profile-b", 1, false, 0, false)

  /** Both games are configured, the first is bound and its gate shut; after a restart the second one is bound and
      closed. */
  const ANOTHER_CLOSED: seq<Event> := [
    Event(Config(GAME_A, 0, 0), true), Event(Config(GAME_B, 0, 0), true), Event(Bind("profile-a", 0, 0), true),
    Event(Begin, true), Event(Restart("agent"), true), Event(Bind("profile-b", 0, 0), true),
    Event(Leave(Graceful, 0), true)]

  lemma SoleIs(policies: map<string, Policy>, profileId: string, id: string)
    requires IsSole(policies, profileId, id)
    ensures SolePolicy(policies, profileId) == Some(policies[id])
  {
  }

  lemma RunsOn(g: Game, events: seq<Event>, k: nat)
    requires k < |events|
    ensures Run(g, events[k..]) == Run(Take(g, events[k]), events[k + 1..])
  {
    assert events[k..][1..] == events[k + 1..];
  }

  const BOTH: map<string, Policy> := map["a" := GAME_A, "b" := GAME_B]

  lemma BothAreFound()
    ensures SolePolicy(BOTH, "profile-a") == Some(GAME_A) && SolePolicy(BOTH, "profile-b") == Some(GAME_B)
  {
    SoleIs(BOTH, "profile-a", "a");
    SoleIs(BOTH, "profile-b", "b");
  }

  /** The state before the restart, and the same for the second half. */
  lemma ShutsTheFirst()
    ensures var g := Run(Open(map[], true, "agent"), ANOTHER_CLOSED[..4]);
            && g.path == Some("agent") && g.disk == map["agent" := g.store]
            && g.store.agentId == Some("agent") && g.store.policies == BOTH
            && g.store.closing == Some(Closing("session-a", 1, false))
  {
    var events := ANOTHER_CLOSED[..4];
    var g0 := Open(map[], true, "agent");
    var g1 := Take(g0, events[0]);
    assert g1.store.policies == map["a" := GAME_A];
    var g2 := Take(g1, events[1]);
    assert g2.store.policies == BOTH;
    BothAreFound();
    var g3 := Take(g2, events[2]);
    var g4 := Take(g3, events[3]);
    assert g4.disk == map["agent" := g4.store];
    RunsOn(g0, events, 0);
    RunsOn(g1, events, 1);
    RunsOn(g2, events, 2);
    RunsOn(g3, events, 3);
    assert events[0..] == events && events[4..] == [];
  }

  lemma BindsTheSecond(g: Game)
    requires g.path == Some("agent") && g.disk == map["agent" := g.store]
    requires g.store.agentId == Some("agent") && g.store.policies == BOTH
    requires g.store.closing == Some(Closing("session-a", 1, false))
    ensures var bound := Take(Take(g, ANOTHER_CLOSED[4]), ANOTHER_CLOSED[5]);
            && bound.path == Some("agent") && bound.store == g.store
            && bound.active == Some(ActiveGame(GAME_B, 0, 0, false, false))
  {
    BothAreFound();
  }

  lemma ClosesTheSecond(g: Game)
    requires g.path == Some("agent") && g.disk == map["agent" := g.store]
    requires g.store.agentId == Some("agent") && g.store.policies == BOTH
    requires g.store.closing == Some(Closing("session-a", 1, false))
    ensures var after := Run(g, ANOTHER_CLOSED[4..]);
            && after.store.policies == map["a" := GAME_A] && after.store.closing == None
            && FileOf(after, "agent") == Some(after.store)
  {
    var events := ANOTHER_CLOSED[4..];
    var restarted := Take(g, events[0]);
    var bound := Take(restarted, events[1]);
    BindsTheSecond(g);
    LeavesTheFirst(bound);
    RunsOn(g, events, 0);
    RunsOn(restarted, events, 1);
    RunsOn(bound, events, 2);
    assert events[0..] == events && events[3..] == [];
  }

  lemma LeavesTheFirst(g: Game)
    requires g.path == Some("agent") && g.store.agentId == Some("agent") && g.store.policies == BOTH
    requires g.active == Some(ActiveGame(GAME_B, 0, 0, false, false))
    ensures var after := Take(g, ANOTHER_CLOSED[6]);
            && after.store.policies == map["a" := GAME_A] && after.store.closing == None
            && FileOf(after, "agent") == Some(after.store)
  {
    assert BOTH - {"b"} == map["a" := GAME_A];
  }

  lemma {:induction false} RunInTwo(g: Game, events: seq<Event>, k: nat)
    requires k <= |events|
    ensures Run(g, events) == Run(Run(g, events[..k]), events[k..])
    decreases k
  {
    if k == 0 {
      assert events[..0] == [] && events[0..] == events;
    } else {
      RunInTwo(Take(g, events[0]), events[1..], k - 1);
      assert events[..k][1..] == events[1..][..k - 1] && events[1..][k - 1..] == events[k..];
    }
  }

  /** From an empty directory: the close of the second game opens the gate of the first, in memory and on disk,
      although the first is still stored and was never closed. */
  lemma ClosingAnotherGameOpensTheGate()
    ensures var g := Run(Open(map[], true, "agent"), ANOTHER_CLOSED);
            && g.store.policies == map["a" := GAME_A] && g.store.closing == None
            && FileOf(g, "agent") == Some(g.store)
            && BindTarget(g, "profile-a", 0, 0).active == Some(ActiveGame(GAME_A, 0, 0, false, false))
  {
    var g0 := Open(map[], true, "agent");
    ShutsTheFirst();
    ClosesTheSecond(Run(g0, ANOTHER_CLOSED[..4]));
    RunInTwo(g0, ANOTHER_CLOSED, 4);
    SoleIs(map["a" := GAME_A], "profile-a", "a");
  }

  /** What the gate means for the idle deadline: a game that is occupied or closing is never due, and activity
      starts a full idle period again. */
  lemma ActivityStartsAFullPeriod(g: Game, now: int, at: int, later: int)
    requires Sane(g) && g.active.Some?
    ensures Due(g, later) ==> !g.store.policies[g.active.value.policy.gameId].occupied
                              && !InGate(g.store.closing, g.active.value.policy)
    ensures Idling(g.active.value) && now <= later ==>
              (Due(MarkActivity(g, now, at), later) <==> later - now >= g.active.value.policy.idleTimeout)
    ensures !Idling(g.active.value) ==> MarkActivity(g, now, at) == g && !Due(g, later)
  {
  }

  // --------------------------------------------------------- policy versions

  /** A later policy of a game: a higher version, or the same one with at most its occupancy dropped. */
  predicate Succeeds(before: Policy, after: Policy) {
    before.version < after.version || after == before || after == before.(occupied := false)
  }

  ghost predicate PoliciesSucceed(before: Store, after: Store, except: Option<string>) {
    forall id :: id in before.policies && Some(id) != except ==>
      id in after.policies && Succeeds(before.policies[id], after.policies[id])
  }

  function ClosedGame(g: Game, step: Step): Option<string> {
    if ClosesGame(g, step) then Some(g.active.value.policy.gameId) else None
  }

  lemma StepKeepsPolicies(g: Game, e: Event)
    requires !e.step.Restart?
    ensures PoliciesSucceed(g.store, Take(g, e).store, ClosedGame(g, e.step))
  {
    if e.step.Config? {
      ConfigureKeepsPolicies(g.(writable := e.writable), e.step.policy, e.step.now, e.step.at);
    } else if e.step.Release? {
      ReleaseKeepsPolicies(g.(writable := e.writable));
    } else {
      StepTouches(g, e);
    }
  }

  lemma ReleaseKeepsPolicies(g: Game)
    ensures PoliciesSucceed(g.store, ReleaseTaskOccupancy(g).game.store, None)
  {
    VacatedSucceeds(g.store.policies);
  }

  lemma ConfigureKeepsPolicies(g: Game, p: Policy, now: int, at: int)
    ensures PoliciesSucceed(g.store, Configure(g, p, now, at).game.store, None)
  {
  }

  lemma VacatedSucceeds(policies: map<string, Policy>)
    ensures forall id :: id in policies ==> id in Vacated(policies) && Succeeds(policies[id], Vacated(policies)[id])
  {
  }

  /** The policy of a game, the same on disk and in memory while the agent runs. */
  ghost predicate HasPolicy(g: Game, agentId: string, id: string) {
    && Named(g)
    && FileOf(g, agentId).Some? && id in FileOf(g, agentId).value.policies
    && (g.path == Some(agentId) ==>
          id in g.store.policies && g.store.policies[id] == FileOf(g, agentId).value.policies[id])
  }

  function PolicyOf(g: Game, agentId: string, id: string): Policy
    requires FileOf(g, agentId).Some? && id in FileOf(g, agentId).value.policies
  {
    FileOf(g, agentId).value.policies[id]
  }

  /** The agent does not close the game, and every policy it is sent reaches the disk. */
  ghost predicate Respects(g: Game, e: Event, agentId: string, id: string) {
    g.path == Some(agentId) ==> ClosedGame(g, e.step) != Some(id) && (e.step.Config? ==> e.writable)
  }

  ghost predicate AllRespect(g: Game, events: seq<Event>, agentId: string, id: string)
    decreases |events|
  {
    events == [] || (Respects(g, events[0], agentId, id) && AllRespect(Take(g, events[0]), events[1..], agentId, id))
  }

  /** A write that fails leaves the policies of all games but a closed one as they were. */
  lemma UnwrittenPoliciesStay(g: Game, e: Event, id: string)
    requires g.path.Some? && !e.step.Restart? && !Writes(g, e) && (e.step.Config? ==> e.writable)
    requires id in g.store.policies && ClosedGame(g, e.step) != Some(id)
    ensures id in Take(g, e).store.policies && Take(g, e).store.policies[id] == g.store.policies[id]
  {
    match e.step
    case Config(policy, now, at) => ConfigureWritesExactly(g.(writable := true), policy, now, at);
    case _ =>
  }

  lemma StepAdvancesPolicy(g: Game, e: Event, agentId: string, id: string)
    requires HasPolicy(g, agentId, id) && Respects(g, e, agentId, id)
    ensures HasPolicy(Take(g, e), agentId, id)
    ensures Succeeds(PolicyOf(g, agentId, id), PolicyOf(Take(g, e), agentId, id))
  {
    FileAfter(g, e, agentId);
    if e.step.Restart? {
      if e.step.agentId == agentId {
        RestartReads(g, agentId, e.writable);
      }
    } else if g.path == Some(agentId) {
      StepKeepsPolicies(g, e);
      StepWritesExactly(g, e);
      if !Writes(g, e) {
        UnwrittenPoliciesStay(g, e, id);
      }
    } else {
      StepWritesExactly(g, e);
    }
  }

  /** As long as a game is not closed its policy stays stored, its version never decreases, and at one version
      only its occupancy changes, and only to vacant, as long as delivered policies reach the disk: whatever other
      writes fail, across restarts and while other agents run. */
  lemma {:induction false} PoliciesOnlyAdvance(g: Game, events: seq<Event>, agentId: string, id: string)
    requires HasPolicy(g, agentId, id) && AllRespect(g, events, agentId, id)
    ensures HasPolicy(Run(g, events), agentId, id)
    ensures Succeeds(PolicyOf(g, agentId, id), PolicyOf(Run(g, events), agentId, id))
    decreases |events|
  {
    if events != [] {
      StepAdvancesPolicy(g, events[0], agentId, id);
      PoliciesOnlyAdvance(Take(g, events[0]), events[1..], agentId, id);
    }
  }

  /** A delivered policy that does not reach the disk is in memory at once and gone after a restart: the version
      goes back to the one on disk, exactly when the write fails. */
  lemma PolicyGoesBackExactly(g: Game, e: Event, agentId: string)
    requires Named(g) && g.path == Some(agentId) && FileOf(g, agentId) == Some(g.store)
    requires e.step.Config? && Installs(g, e.step.policy)
    ensures var p := e.step.policy;
            var after := Take(g, e);
            var restarted := Take(after, Event(Restart(agentId), true));
            && p.gameId in after.store.policies && after.store.policies[p.gameId] == p
            && (restarted.store.policies == g.store.policies <==> !e.writable)
            && (e.writable ==> restarted.store == after.store)
  {
    ConfigureWritesExactly(g.(writable := e.writable), e.step.policy, e.step.now, e.step.at);
    FileAfter(g, e, agentId);
    RestartReads(Take(g, e), agentId, true);
  }

  // --------------------------------------------------------------- sequence

  /** The status sequence on disk, which memory is never behind. */
  ghost predicate SequenceOk(g: Game, agentId: string) {
    && Named(g)
    && FileOf(g, agentId).Some? && FileOf(g, agentId).value.sequence <= MAX_SEQUENCE
    && (g.path == Some(agentId) ==> FileOf(g, agentId).value.sequence <= g.store.sequence <= MAX_SEQUENCE)
  }

  lemma StepKeepsSequence(g: Game, e: Event)
    requires !e.step.Restart? && g.store.sequence <= MAX_SEQUENCE
    ensures g.store.sequence <= Take(g, e).store.sequence <= MAX_SEQUENCE
  {
    StepTouches(g, e);
  }

  /** The status sequence on disk never goes back, and memory is never behind it: whatever writes fail, a restart
      can undo only what was counted since the last write that worked. */
  lemma {:induction false} SequenceNeverDecreases(g: Game, events: seq<Event>, agentId: string)
    requires SequenceOk(g, agentId)
    ensures SequenceOk(Run(g, events), agentId)
    ensures FileOf(g, agentId).value.sequence <= FileOf(Run(g, events), agentId).value.sequence
    decreases |events|
  {
    if events != [] {
      FileAfter(g, events[0], agentId);
      if events[0].step.Restart? {
        if events[0].step.agentId == agentId {
          RestartReads(g, agentId, events[0].writable);
        }
      } else if g.path == Some(agentId) {
        StepKeepsSequence(g, events[0]);
      }
      StepWritesExactly(g, events[0]);
      SequenceNeverDecreases(Take(g, events[0]), events[1..], agentId);
    }
  }

  // ---------------------------------------------------------- close evidence

  /** Within a process a pending receipt goes exactly when it is acknowledged or a newer close takes its place. */
  lemma ReceiptGoesOnlyByAck(g: Game, e: Event)
    requires g.store.pending.Some? && !e.step.Restart?
    ensures var r := g.store.pending.value;
            Take(g, e).store.pending ==
            match e.step
            case Acknowledge(eventId, sessionId, version) =>
              if Acknowledges(r, eventId, sessionId, version) then None else Some(r)
            case Close(trigger, result, at, error) =>
              if g.active.Some? then Some(ReceiptFor(g.active.value, trigger, result, at, error)) else Some(r)
            case _ => Some(r)
  {
    StepTouches(g, e);
  }

  /** The receipt of the agent is pending, on disk and in memory while the agent runs. */
  ghost predicate Evident(g: Game, agentId: string, r: CloseReceipt) {
    && Named(g)
    && FileOf(g, agentId).Some? && FileOf(g, agentId).value.pending == Some(r)
    && (g.path == Some(agentId) ==> g.store.pending == Some(r))
  }

  /** The step neither acknowledges the receipt nor puts a newer one in its place. */
  ghost predicate Spares(g: Game, step: Step, r: CloseReceipt) {
    && !(step.Close? && g.active.Some?)
    && (step.Acknowledge? ==> !Acknowledges(r, step.eventId, step.sessionId, step.version))
  }

  ghost predicate AllSpare(g: Game, events: seq<Event>, agentId: string, r: CloseReceipt)
    decreases |events|
  {
    events == []
    || ((g.path == Some(agentId) ==> Spares(g, events[0].step, r))
        && AllSpare(Take(g, events[0]), events[1..], agentId, r))
  }

  lemma StepKeepsEvidence(g: Game, e: Event, agentId: string, r: CloseReceipt)
    requires Evident(g, agentId, r) && (g.path == Some(agentId) ==> Spares(g, e.step, r))
    ensures Evident(Take(g, e), agentId, r)
  {
    FileAfter(g, e, agentId);
    StepWritesExactly(g, e);
    if e.step.Restart? {
      if e.step.agentId == agentId {
        RestartReads(g, agentId, e.writable);
      }
    } else if g.path == Some(agentId) {
      ReceiptGoesOnlyByAck(g, e);
    }
  }

  /** A receipt that is on disk survives any run that does not acknowledge or replace it, whatever writes fail,
      across restarts and while other agents run; it is offered again after each reconnection and restart. */
  lemma {:induction false} ReceiptSurvives(g: Game, events: seq<Event>, agentId: string, r: CloseReceipt)
    requires Evident(g, agentId, r) && AllSpare(g, events, agentId, r)
    ensures Evident(Run(g, events), agentId, r)
    ensures Run(g, events).path == Some(agentId) ==>
              PendingCloseReceipt(PrepareCloseReplay(Run(g, events))) == Some(r)
    ensures PendingCloseReceipt(Take(Run(g, events), Event(Restart(agentId), true))) == Some(r)
    ensures Run(g, events).path == Some(agentId) ==> !Released(Run(g, events))
    decreases |events|
  {
    if events == [] {
      RestartReads(g, agentId, true);
    } else {
      StepKeepsEvidence(g, events[0], agentId, r);
      ReceiptSurvives(Take(g, events[0]), events[1..], agentId, r);
    }
  }

  /** The run stays in one process and neither acknowledges nor replaces the receipt. */
  ghost predicate Retains(g: Game, events: seq<Event>, r: CloseReceipt)
    decreases |events|
  {
    events == []
    || (!events[0].step.Restart? && Spares(g, events[0].step, r) && Retains(Take(g, events[0]), events[1..], r))
  }

  /** Some write of the run reaches the disk. */
  ghost predicate SomeWrite(g: Game, events: seq<Event>)
    decreases |events|
  {
    events != [] && (Writes(g, events[0]) || SomeWrite(Take(g, events[0]), events[1..]))
  }

  lemma {:induction false} RetainedIsWrittenExactly(g: Game, events: seq<Event>, agentId: string, r: CloseReceipt)
    requires Named(g) && g.path == Some(agentId) && g.store.pending == Some(r) && Retains(g, events, r)
    ensures var after := Run(g, events);
            && Named(after) && after.path == Some(agentId) && after.store.pending == Some(r)
            && (FileOf(after, agentId).Some? && FileOf(after, agentId).value.pending == Some(r)
                <==> SomeWrite(g, events)
                     || (FileOf(g, agentId).Some? && FileOf(g, agentId).value.pending == Some(r)))
    decreases |events|
  {
    if events != [] {
      FileAfter(g, events[0], agentId);
      StepWritesExactly(g, events[0]);
      ReceiptGoesOnlyByAck(g, events[0]);
      RetainedIsWrittenExactly(Take(g, events[0]), events[1..], agentId, r);
    }
  }

  /** `close_receipt` notes a new receipt and does not say whether it was written. It survives the next restart
      exactly when that write worked, or a later one of the same process did. */
  lemma NotedReceiptSurvivesExactly(g: Game, e: Event, events: seq<Event>, agentId: string)
    requires Named(g) && g.path == Some(agentId) && g.active.Some? && e.step.Close?
    requires var r := ReceiptFor(g.active.value, e.step.trigger, e.step.result, e.step.at, e.step.error);
             && Retains(Take(g, e), events, r)
             && (FileOf(g, agentId).Some? ==> FileOf(g, agentId).value.pending != Some(r))
    ensures var r := ReceiptFor(g.active.value, e.step.trigger, e.step.result, e.step.at, e.step.error);
            PendingCloseReceipt(Take(Run(Take(g, e), events), Event(Restart(agentId), true))) == Some(r)
            <==> e.writable || SomeWrite(Take(g, e), events)
  {
    var r := ReceiptFor(g.active.value, e.step.trigger, e.step.result, e.step.at, e.step.error);
    FileAfter(g, e, agentId);
    StepWritesExactly(g, e);
    RetainedIsWrittenExactly(Take(g, e), events, agentId, r);
    RestartFindsReceiptExactly(Run(Take(g, e), events), agentId, r);
  }

  lemma RestartFindsReceiptExactly(g: Game, agentId: string, r: CloseReceipt)
    requires g.path.Some?
    ensures PendingCloseReceipt(Take(g, Event(Restart(agentId), true))) == Some(r)
            <==> FileOf(g, agentId).Some? && FileOf(g, agentId).value.pending == Some(r)
  {
  }

  /** The run stays on one connection of one process, and no game is closed. */
  ghost predicate OneConnection(events: seq<Event>) {
    forall i :: 0 <= i < |events| ==>
      !events[i].step.Reconnect? && !events[i].step.Restart? && !events[i].step.Close?
  }

  /** A pending receipt is offered once per connection: after it was reported no longer, whatever else happens,
      until a new connection, a restart or another close. */
  lemma ReceiptIsOfferedOnce(g: Game, events: seq<Event>)
    requires OneConnection(events)
    ensures PendingCloseReceipt(PrepareCloseReplay(g)) == g.store.pending
    ensures PendingCloseReceipt(Run(MarkCloseReported(g), events)).None?
  {
    StaysReported(MarkCloseReported(g), events);
  }

  lemma {:induction false} StaysReported(g: Game, events: seq<Event>)
    requires OneConnection(events) && !g.report
    ensures !Run(g, events).report
    decreases |events|
  {
    if events != [] {
      StepStaysReported(g, events[0]);
      StaysReported(Take(g, events[0]), events[1..]);
    }
  }

  lemma StepStaysReported(g: Game, e: Event)
    requires !g.report && !e.step.Reconnect? && !e.step.Restart? && !e.step.Close?
    ensures !Take(g, e).report
  {
    hide Acknowledges, SolePolicy, Vacated, AnyOccupied;
  }

  /** A receipt whose acknowledgement could not be persisted comes back after a restart. */
  lemma UnpersistedAckComesBack(g: Game, agentId: string, r: CloseReceipt, eventId: string)
    requires Evident(g, agentId, r) && g.path == Some(agentId) && !g.writable
    requires Acknowledges(r, eventId, r.sessionId, r.version)
    ensures var a := AcknowledgeClose(g, eventId, r.sessionId, r.version);
            && a.result == Err(PersistenceFailed)
            && a.game.store.pending.None?
            && PendingCloseReceipt(Take(a.game, Event(Restart(agentId), true))) == Some(r)
  {
  }

  /** Giving up task occupancy leaves no occupied policy in memory or on disk; when it fails nothing changes and
      it can be tried again. */
  lemma OccupancyIsReleased(g: Game, agentId: string)
    requires Named(g) && g.path == Some(agentId) && FileOf(g, agentId) == Some(g.store)
    ensures var kept := ReleaseTaskOccupancy(g);
            if kept.result.Ok?
            then !AnyOccupied(kept.game.store.policies) && FileOf(kept.game, agentId) == Some(kept.game.store)
                 && kept.game.store.pending == g.store.pending && kept.game.store.closing == g.store.closing
            else kept.game == g && ReleaseTaskOccupancy(g.(writable := true)).result.Ok?
  {
  }

  // ------------------------------------------------------------- event ids

  /** An event id says which receipt it stands for: of one game session and version, only the receipt with the
      same trigger, result, time and error text has it. */
  lemma EventIdsAreExact(r: CloseReceipt, q: CloseReceipt)
    requires r.sessionId == q.sessionId && r.version == q.version
    ensures CloseEventId(r) == CloseEventId(q) <==>
            r.trigger == q.trigger && r.result == q.result && r.at == q.at && ErrorText(r.error) == ErrorText(q.error)
  {
    var head := r.sessionId + ":" + Decimal(r.version) + ":";
    HeadAndTail(r);
    HeadAndTail(q);
    if CloseEventId(r) == CloseEventId(q) {
      assert Tail(r) == CloseEventId(r)[|head|..] == Tail(q);
      TailsAreExact(r, q);
    }
  }

  lemma HeadAndTail(r: CloseReceipt)
    ensures CloseEventId(r) == (r.sessionId + ":" + Decimal(r.version) + ":") + Tail(r)
  {
    Regroup(r.sessionId + ":" + Decimal(r.version) + ":", Decimal(r.trigger.Code()), Decimal(r.result.Code()),
            Decimal(r.at), ErrorText(r.error));
  }

  lemma Regroup(h: string, a: string, b: string, c: string, d: string)
    ensures h + a + ":" + b + ":" + c + ":" + d == h + (a + ":" + (b + ":" + (c + ":" + d)))
  {
  }

  function Tail(r: CloseReceipt): string {
    Decimal(r.trigger.Code()) + ":" + (Decimal(r.result.Code()) + ":" + (Decimal(r.at) + ":" + ErrorText(r.error)))
  }

  lemma TailsAreExact(r: CloseReceipt, q: CloseReceipt)
    requires Tail(r) == Tail(q)
    ensures r.trigger == q.trigger && r.result == q.result && r.at == q.at && ErrorText(r.error) == ErrorText(q.error)
  {
    DecimalAvoids(r.trigger.Code(), ':');
    DecimalAvoids(q.trigger.Code(), ':');
    DecimalAvoids(r.result.Code(), ':');
    DecimalAvoids(q.result.Code(), ':');
    DecimalAvoids(r.at, ':');
    DecimalAvoids(q.at, ':');
    SplitsAtSeparator(
      Decimal(r.trigger.Code()), Decimal(r.result.Code()) + ":" + (Decimal(r.at) + ":" + ErrorText(r.error)),
      Decimal(q.trigger.Code()), Decimal(q.result.Code()) + ":" + (Decimal(q.at) + ":" + ErrorText(q.error)), ':');
    SplitsAtSeparator(Decimal(r.result.Code()), Decimal(r.at) + ":" + ErrorText(r.error),
                      Decimal(q.result.Code()), Decimal(q.at) + ":" + ErrorText(q.error), ':');
    SplitsAtSeparator(Decimal(r.at), ErrorText(r.error), Decimal(q.at), ErrorText(q.error), ':');
    DecimalsAreInjective(r.trigger.Code(), q.trigger.Code());
    DecimalsAreInjective(r.result.Code(), q.result.Code());
    DecimalsAreInjective(r.at, q.at);
  }
}
