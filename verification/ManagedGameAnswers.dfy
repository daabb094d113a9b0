/**
 What the managed-game lifecycle answers and keeps, operation by operation: which
 policies it accepts, when a game is due, and what a close leaves behind.
 */
module ManagedGameAnswers {
  import opened Outcomes
  import opened Decimals
  import opened ManagedGame
  import opened ManagedGameRuns

  // ------------------------------------------------------------------ starts

  /** A lifecycle without a file knows nothing. One with a file takes up what was written for its own agent, and
      offers a receipt that is pending there; a file of another agent is like none, and is left alone. */
  lemma StartsAreAnswered(disk: map<string, Store>, writable: bool, agentId: string)
    ensures Memory() == Game(None, map[], true, Store(None, map[], 0, None, None), None, None, false, false)
    ensures var g := Open(disk, writable, agentId);
            && g.path == Some(agentId) && g.disk == disk && g.bound.None? && g.active.None?
            && if agentId in disk && disk[agentId].agentId == Some(agentId)
               then g.known && g.store == disk[agentId] && PendingCloseReceipt(g) == g.store.pending
               else !g.known && g.store == Store(Some(agentId), map[], 0, None, None) && PendingCloseReceipt(g).None?
  {
  }

  // ---------------------------------------------------------------- policies

  predicate HasIdentity(p: Policy) {
    p.gameId != "" && p.sessionId != "" && p.profileId != "" && p.version > 0
  }

  /** Five minutes to a day for an enabled policy, nothing for a disabled one. */
  predicate TimeoutInRange(p: Policy) {
    if p.enabled then 300_000 <= p.idleTimeout <= 86_400_000 else p.idleTimeout == 0
  }

  /** The stored closing is of another identity. */
  predicate ShutsOut(closing: Option<Closing>, p: Policy) {
    closing.Some? && (closing.value.sessionId != p.sessionId || closing.value.version != p.version)
  }

  /** Why a delivered policy is refused, in the order of the checks. */
  function RefusalOf(store: Store, p: Policy): Option<ErrorCode> {
    var known := p.gameId in store.policies;
    if !HasIdentity(p) then Some(StateInvalid)
    else if !TimeoutInRange(p) then Some(TimeoutInvalid)
    else if ShutsOut(store.closing, p) then Some(TargetClosing)
    else if known && p.version < store.policies[p.gameId].version then Some(StateStale)
    else if known && p.version == store.policies[p.gameId].version && p != store.policies[p.gameId]
    then Some(StateVersionConflict)
    else None
  }

  /** The watch of a game starts now. It is in the gate if the stored closing is its own. */
  function Watched(store: Store, p: Policy, now: int, at: int): ActiveGame {
    var closing := store.closing.Some? && !ShutsOut(store.closing, p);
    ActiveGame(p, now, at, closing, closing && store.closing.value.failed)
  }

  /** A delivered policy is refused for the first reason that applies, and then changes nothing. A known one changes
      nothing either, but its game may be watched again. Any other is stored; if that was written, its game is
      watched exactly when its profile is bound, and no other game is any more. */
  lemma PolicyIsAnsweredExactly(g: Game, p: Policy, now: int, at: int)
    ensures var kept := Configure(g, p, now, at);
            var refusal := RefusalOf(g.store, p);
            var bound := g.bound == Some(p.profileId);
            if refusal.Some? then kept == Kept(g, Err(refusal.value))
            else if p.gameId in g.store.policies && p.version == g.store.policies[p.gameId].version then
              kept == Kept(if g.active.None? && bound then g.(active := Some(Watched(g.store, p, now, at))) else g,
                           Ok(()))
            else
              && kept.game.store == g.store.(policies := g.store.policies[p.gameId := p],
                                             sequence := if g.store.sequence >= MAX_SEQUENCE then MAX_SEQUENCE
                                                         else g.store.sequence + 1)
              && kept.result == (if g.path.None? || g.writable then Ok(()) else Err(PersistenceFailed))
              && kept.game.disk == (if g.path.Some? && g.writable then g.disk[g.path.value := kept.game.store]
                                    else g.disk)
              && kept.game.active == (if kept.result.Err? then g.active
                                      else if bound then Some(Watched(g.store, p, now, at)) else None)
              && kept.game.bound == g.bound
  {
  }

  /** A policy of a game not known before is stored exactly when it is complete and its timeout in range, unless
      another closing is stored. */
  lemma NewPolicyIsStoredExactly(g: Game, p: Policy, now: int, at: int)
    requires p.gameId !in g.store.policies && g.store.closing.None?
    ensures p.gameId in Configure(g, p, now, at).game.store.policies
            <==> && p.gameId != "" && p.sessionId != "" && p.profileId != "" && p.version > 0
                 && (if p.enabled then 300_000 <= p.idleTimeout <= 86_400_000 else p.idleTimeout == 0)
  {
    PolicyIsAnsweredExactly(g, p, now, at);
  }

  /** A game is due exactly when it is enabled, neither occupied nor closing nor failed to close, and its whole
      timeout has passed since its last activity. */
  lemma DueExactly(g: Game, now: int)
    ensures Due(g, now) <==>
            && g.active.Some?
            && var a := g.active.value;
               && a.policy.enabled && !a.policy.occupied && !a.closing && !a.failed
               && (now - a.lastActivity >= a.policy.idleTimeout || a.policy.idleTimeout == 0)
  {
  }

  /** A written policy for the bound profile starts a full idle period. */
  lemma DeliveryStartsAFullPeriod(g: Game, p: Policy, now: int, at: int, later: int)
    requires RefusalOf(g.store, p).None? && g.bound == Some(p.profileId) && (g.path.None? || g.writable)
    requires p.gameId in g.store.policies ==> g.store.policies[p.gameId].version < p.version
    ensures var after := Configure(g, p, now, at).game;
            && after.active.Some? && after.active.value.policy == p
            && (Due(after, later) <==> p.enabled && !p.occupied && g.store.closing.None?
                                       && later - now >= p.idleTimeout)
  {
    PolicyIsAnsweredExactly(g, p, now, at);
    DueExactly(Configure(g, p, now, at).game, later);
  }

  /** A new policy for a profile that is not bound ends the watch of the active game, which is never due then until
      its target is bound again or its own policy delivered. */
  lemma OtherDeliveryEndsTheWatch(g: Game, p: Policy, now: int, at: int, later: int)
    requires RefusalOf(g.store, p).None? && g.bound != Some(p.profileId)
    requires p.gameId in g.store.policies ==> g.store.policies[p.gameId].version < p.version
    ensures var after := Configure(g, p, now, at).game;
            && (after.active.None? <==> g.active.None? || g.path.None? || g.writable)
            && (after.active.None? ==> !Due(after, later))
  {
    PolicyIsAnsweredExactly(g, p, now, at);
  }

  // -------------------------------------------------------------- whole runs

  predicate Proper(p: Policy) {
    HasIdentity(p) && TimeoutInRange(p)
  }

  ghost predicate AllProper(policies: map<string, Policy>) {
    forall id :: id in policies ==> Proper(policies[id]) && policies[id].gameId == id
  }

  ghost predicate PoliciesProper(g: Game) {
    && AllProper(g.store.policies)
    && (g.active.Some? ==> Proper(g.active.value.policy))
    && (forall agentId :: agentId in g.disk ==> AllProper(g.disk[agentId].policies))
  }

  lemma ConfigureKeepsProper(g: Game, p: Policy, now: int, at: int)
    requires PoliciesProper(g)
    ensures PoliciesProper(Configure(g, p, now, at).game)
  {
    hide Configure;
    PolicyIsAnsweredExactly(g, p, now, at);
    ConfigureKeepsDisk(g, p, now, at);
  }

  lemma ConfigureKeepsDisk(g: Game, p: Policy, now: int, at: int)
    ensures var after := Configure(g, p, now, at).game;
            after.disk == g.disk || (g.path.Some? && after.disk == g.disk[g.path.value := after.store])
  {
  }

  lemma PersistKeepsProper(g: Game)
    requires PoliciesProper(g)
    ensures PoliciesProper(Persist(g).game)
  {
  }

  lemma GatedKeepsProper(g: Game, failed: bool)
    requires PoliciesProper(g) && g.active.Some?
    ensures PoliciesProper(Gated(g, failed)) && PoliciesProper(Departed(g))
  {
  }

  lemma VacatedKeepsProper(g: Game)
    requires PoliciesProper(g)
    ensures PoliciesProper(ReleaseTaskOccupancy(g).game)
  {
    if AnyOccupied(g.store.policies) {
      var vacant := g.(store := Bumped(g.store.(policies := Vacated(g.store.policies))));
      assert PoliciesProper(vacant);
      PersistKeepsProper(vacant);
    }
  }

  lemma CloseKeepsProper(g: Game, e: Event)
    requires PoliciesProper(g) && (e.step.Close? || e.step.Leave? || e.step.Begin? || e.step.CloseFailed?)
    ensures PoliciesProper(Take(g, e))
  {
    hide Persist, PoliciesProper, Gated, Departed;
    var w := g.(writable := e.writable);
    SameButWritableIsProper(g, w);
    if g.active.Some? {
      var noted := if e.step.Close? then NotedIn(w, e.step) else w;
      SameButNotedIsProper(w, noted);
      GatedKeepsProper(noted, !e.step.Begin?);
      PersistKeepsProper(Gated(noted, !e.step.Begin?));
      PersistKeepsProper(Departed(noted));
    }
  }

  function NotedIn(g: Game, step: Step): Game
    requires g.active.Some? && step.Close?
  {
    g.(store := g.store.(pending := Some(ReceiptFor(g.active.value, step.trigger, step.result, step.at, step.error))),
       report := true)
  }

  lemma SameButWritableIsProper(g: Game, w: Game)
    requires PoliciesProper(g) && w == g.(writable := w.writable)
    ensures PoliciesProper(w)
  {
  }

  lemma SameButNotedIsProper(g: Game, noted: Game)
    requires PoliciesProper(g)
    requires noted == g.(store := g.store.(pending := noted.store.pending), report := noted.report)
    ensures PoliciesProper(noted)
  {
  }

  lemma StepKeepsProper(g0: Game, e: Event)
    requires PoliciesProper(g0)
    ensures PoliciesProper(Take(g0, e))
  {
    var g := g0.(writable := e.writable);
    if e.step.Config? {
      ConfigureKeepsProper(g, e.step.policy, e.step.now, e.step.at);
    } else if e.step.Release? {
      VacatedKeepsProper(g);
    } else if e.step.Close? || e.step.Leave? || e.step.Begin? || e.step.CloseFailed? {
      CloseKeepsProper(g0, e);
    } else {
      OtherStepKeepsProper(g0, e);
    }
  }

  lemma OtherStepKeepsProper(g: Game, e: Event)
    requires PoliciesProper(g) && !e.step.Config? && !e.step.Release?
    requires !e.step.Close? && !e.step.Leave? && !e.step.Begin? && !e.step.CloseFailed?
    ensures PoliciesProper(Take(g, e))
  {
    hide PoliciesProper;
    if e.step.Bind? {
      BoundKeepsProper(g.(writable := e.writable), e.step);
    } else if e.step.Touch? {
      TouchedKeepsProper(g.(writable := e.writable), e.step);
    } else if e.step.Acknowledge? {
      AcknowledgedKeepsProper(g.(writable := e.writable), e.step);
    } else {
      QuietKeepsProper(g, e);
    }
    SameButWritableIsProper(g, g.(writable := e.writable));
  }

  lemma BoundKeepsProper(g: Game, step: Step)
    requires step.Bind?
    ensures PoliciesProper(g) ==> PoliciesProper(BindTarget(g, step.profileId, step.now, step.at))
  {
    SoleIsStored(g.store.policies, step.profileId);
  }

  lemma TouchedKeepsProper(g: Game, step: Step)
    requires step.Touch?
    ensures PoliciesProper(g) ==> PoliciesProper(MarkActivity(g, step.now, step.at))
  {
    if PoliciesProper(g) && g.active.Some? {
      PersistKeepsProper(g.(active := Some(g.active.value.(lastActivity := step.now, lastActivityAt := step.at)),
                            store := Bumped(g.store)));
    }
  }

  lemma AcknowledgedKeepsProper(g: Game, step: Step)
    requires step.Acknowledge?
    ensures PoliciesProper(g) ==>
              PoliciesProper(AcknowledgeClose(g, step.eventId, step.sessionId, step.version).game)
  {
    if PoliciesProper(g) {
      PersistKeepsProper(g.(store := g.store.(pending := None), report := false));
    }
  }

  lemma QuietKeepsProper(g: Game, e: Event)
    requires PoliciesProper(g) && (e.step.Restart? || e.step.Reconnect? || e.step.Report?)
    ensures PoliciesProper(Take(g, e))
  {
  }

  /** In every run of a lifecycle without a file, or from an empty directory, whatever is delivered and whatever writes
      fail: an enabled game that is watched has a timeout of at least five minutes. */
  lemma {:induction false} TimeoutsStayInRange(g: Game, events: seq<Event>)
    requires PoliciesProper(g)
    ensures PoliciesProper(Run(g, events))
    decreases |events|
  {
    if events != [] {
      StepKeepsProper(g, events[0]);
      TimeoutsStayInRange(Take(g, events[0]), events[1..]);
    }
  }

  lemma NoGameIsClosedEarly(g: Game, events: seq<Event>, now: int)
    requires g == Memory() || exists writable, agentId :: g == Open(map[], writable, agentId)
    requires Due(Run(g, events), now)
    ensures now - Run(g, events).active.value.lastActivity >= 300_000
  {
    TimeoutsStayInRange(g, events);
    DueExactly(Run(g, events), now);
  }

  // ------------------------------------------------------------------ closes

  /** The receipt of the active game. */
  function Noted(p: Policy, trigger: Trigger, result: CloseResult, at: int, error: Option<string>): CloseReceipt {
    CloseReceipt(p.sessionId, p.version, trigger, result, at, error)
  }

  /** The gate is shut on the active game, in memory and in what is stored. */
  ghost predicate ShutOn(g: Game, after: Game, failed: bool) {
    && g.active.Some? && after.active == Some(g.active.value.(closing := true, failed := failed))
    && after.store.closing == Some(Closing(g.active.value.policy.sessionId, g.active.value.policy.version, failed))
    && after.store.policies == g.store.policies && after.bound == g.bound
  }

  /** The active game is forgotten together with its policy, its binding and the stored closing. */
  ghost predicate GoneFrom(g: Game, after: Game) {
    && g.active.Some? && after.active.None? && after.bound.None? && after.store.closing.None?
    && after.store.policies == g.store.policies - {g.active.value.policy.gameId}
  }

  /** A close that failed shuts the gate for good, any other lets the game go; both are noted and reported. */
  lemma CloseIsAnswered(g: Game, trigger: Trigger, result: CloseResult, at: int, error: Option<string>)
    ensures var noted := ManagedGame.Close(g, trigger, result, at, error);
            if g.active.None? then noted == Closed(g, None)
            else
              && noted.receipt == Some(Noted(g.active.value.policy, trigger, result, at, error))
              && noted.game.store.pending == noted.receipt && noted.game.report
              && (if result == CloseResult.Failed then ShutOn(g, noted.game, true) else GoneFrom(g, noted.game))
  {
  }

  /** Closing by hand is told the same way, but nothing is noted. */
  lemma ManualClosesAreAnswered(g: Game, result: CloseResult, at: int, text: string)
    ensures var failed, gone := ManualCloseFailed(g, text, at), ManualClose(g, result, at);
            if g.active.None? then failed == Closed(g, None) && gone == Closed(g, None)
            else
              && failed.receipt == Some(Noted(g.active.value.policy, Manual, CloseResult.Failed, at, Some(text)))
              && ShutOn(g, failed.game, true) && failed.game.store.pending == g.store.pending
              && gone.receipt == Some(Noted(g.active.value.policy, Manual, result, at, None))
              && GoneFrom(g, gone.game) && gone.game.store.pending == g.store.pending
  {
  }

  /** A close that begins shuts the gate, and says whether that was written. */
  lemma BeginIsAnswered(g: Game)
    ensures var begun := BeginClose(g);
            if g.active.None? then begun == Kept(g, Err(IdentityUnavailable))
            else
              && ShutOn(g, begun.game, false) && begun.game.store.pending == g.store.pending
              && begun.result == if g.path.None? || g.writable then Ok(()) else Err(PersistenceFailed)
  {
  }

  /** A pending receipt is acknowledged by its own event id, session and version, and by nothing else. */
  lemma AcknowledgedExactly(g: Game, eventId: string, sessionId: string, version: nat)
    ensures var kept := AcknowledgeClose(g, eventId, sessionId, version);
            match g.store.pending
            case None => kept == Kept(g, Err(AckStale))
            case Some(r) =>
              if r.sessionId != sessionId || r.version != version || CloseEventId(r) != eventId
              then kept == Kept(g, Err(AckMismatch))
              else kept.game.store == g.store.(pending := None) && !kept.game.report
                   && kept.result == (if g.path.None? || g.writable then Ok(()) else Err(PersistenceFailed))
  {
  }

  /** How an event id is spelled: session, version, trigger, result, time and error text. */
  lemma EventIdIsSpelledOut(r: CloseReceipt)
    ensures CloseEventId(r) ==
            r.sessionId + ":" + Decimal(r.version)
            + ":" + (match r.trigger case Unspecified => "0" case Manual => "1" case Idle => "2")
            + ":" + (match r.result case Unspecified => "0" case Graceful => "1" case Forced => "2" case Failed => "3")
            + ":" + Decimal(r.at) + ":" + (if r.error.Some? then r.error.value else "")
  {
    assert Decimal(0) == "0" && Decimal(1) == "1" && Decimal(2) == "2" && Decimal(3) == "3";
  }

  /** The lifecycle counts as released exactly when nothing of a game is left, in a file that could be read. */
  lemma ReleasedExactly(g: Game)
    ensures Released(g) <==>
            && g.known && g.bound.None? && g.active.None? && g.store.closing.None? && g.store.pending.None?
            && forall id :: id in g.store.policies ==> !g.store.policies[id].occupied
  {
  }

  /** Binding a target watches the game of that profile exactly when there is one and no second one. */
  lemma BindingWatchesExactly(g: Game, profileId: string, now: int, at: int)
    ensures var after := BindTarget(g, profileId, now, at);
            && after.bound == Some(profileId) && after.store == g.store
            && (after.active.Some? <==>
                exists id :: id in g.store.policies && g.store.policies[id].profileId == profileId
                             && forall other :: other in g.store.policies && other != id ==>
                                                  g.store.policies[other].profileId != profileId)
            && (after.active.Some? ==>
                  var p := after.active.value.policy;
                  && p.profileId == profileId && (exists id :: id in g.store.policies && g.store.policies[id] == p)
                  && after.active.value == Watched(g.store, p, now, at))
  {
    hide Activate;
    SoleIsStored(g.store.policies, profileId);
    ActivationIsWatch(g.store, now, at);
    if id :| id in g.store.policies && g.store.policies[id].profileId == profileId
             && forall other :: other in g.store.policies && other != id ==>
                                  g.store.policies[other].profileId != profileId {
      SoleIs(g.store.policies, profileId, id);
    }
  }

  lemma ActivationIsWatch(store: Store, now: int, at: int)
    ensures forall p :: Activate(store, p, now, at) == Watched(store, p, now, at)
  {
  }
}
