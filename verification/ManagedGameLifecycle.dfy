/** The lifecycle object itself, over the directory with the file that keeps its store. */
module ManagedGames {
  import opened Outcomes
  import Spec = ManagedGame

  /** One file per agent. A file is written to a temporary name and renamed, so it changes as a whole or not at
      all. `outages` says of the coming writes which will fail; all further ones work. */
  class PolicyDirectory {
    var files: map<string, Spec.Store>
    var outages: seq<bool>

    constructor (files: map<string, Spec.Store>, outages: seq<bool>)
      ensures this.files == files && this.outages == outages
    {
      this.files, this.outages := files, outages;
    }

    /** Whether the next write works. */
    predicate Works()
      reads this
    {
      outages == [] || !outages[0]
    }

    method Replace(name: string, store: Spec.Store) returns (r: Result<()>)
      modifies this
      ensures outages == if old(outages) == [] then [] else old(outages)[1..]
      ensures if old(Works()) then r == Ok(()) && files == old(files)[name := store]
              else r == Err(PersistenceFailed) && files == old(files)
    {
      var works := Works();
      if outages != [] {
        outages := outages[1..];
      }
      if !works {
        return Err(PersistenceFailed);
      }
      files := files[name := store];
      return Ok(());
    }
  }

  class ManagedGameLifecycle {
    /** Without a directory nothing is read or written. */
    const directory: PolicyDirectory?
    const path: string
    var persisted: Spec.Store
    var boundProfileId: Option<string>
    var active: Option<Spec.ActiveGame>
    var pendingCloseReport: bool
    const recoveryStateKnown: bool

    ghost predicate Works()
      reads directory
    {
      directory == null || directory.Works()
    }

    /** The state as the specification sees it, given what the write of a call did or will do. */
    ghost function Seen(writable: bool): Spec.Game
      reads this, directory
    {
      Spec.Game(if directory == null then None else Some(path), if directory == null then map[] else directory.files,
                writable, persisted, boundProfileId, active, pendingCloseReport, recoveryStateKnown)
    }

    /** The state before the next call. */
    ghost function View(): Spec.Game
      reads this, directory
    {
      Seen(Works())
    }

    constructor Memory()
      ensures View() == Spec.Memory() && directory == null
    {
      directory, path, persisted := null, "", Spec.EmptyStore(None);
      boundProfileId, active, pendingCloseReport, recoveryStateKnown := None, None, false, false;
    }

    constructor Persistent(directory: PolicyDirectory, agentId: string)
      ensures View() == Spec.Open(directory.files, directory.Works(), agentId) && this.directory == directory
    {
      var known := agentId in directory.files && directory.files[agentId].agentId == Some(agentId);
      var persisted := if known then directory.files[agentId] else Spec.EmptyStore(Some(agentId));
      this.directory, this.path, this.persisted := directory, agentId, persisted;
      boundProfileId, active, pendingCloseReport, recoveryStateKnown := None, None, persisted.pending.Some?, known;
    }

    method Persist() returns (r: Result<()>)
      modifies directory
      ensures Spec.Kept(Seen(old(Works())), r) == Spec.Persist(old(View()))
    {
      if directory == null {
        return Ok(());
      }
      r := directory.Replace(path, persisted);
    }

    method BumpSequence()
      modifies this`persisted
      ensures persisted == Spec.Bumped(old(persisted))
    {
      persisted := persisted.(sequence := if persisted.sequence >= Spec.MAX_SEQUENCE then Spec.MAX_SEQUENCE
                                          else persisted.sequence + 1);
    }

    /** Whether any stored policy is occupied. */
    method AnyOccupied() returns (occupied: bool)
      ensures occupied == Spec.AnyOccupied(persisted.policies)
    {
      var left := persisted.policies.Keys;
      while left != {}
        invariant left <= persisted.policies.Keys
        invariant forall id :: id in persisted.policies && id !in left ==> !persisted.policies[id].occupied
        decreases left
      {
        var id :| id in left;
        if persisted.policies[id].occupied {
          return true;
        }
        left := left - {id};
      }
      return false;
    }

    /** Clears the occupied flag of every stored policy, one after the other. */
    method VacatePolicies()
      modifies this`persisted
      ensures persisted == old(persisted).(policies := Spec.Vacated(old(persisted).policies))
    {
      ghost var before := persisted;
      var left := persisted.policies.Keys;
      while left != {}
        invariant left <= before.policies.Keys
        invariant persisted == before.(policies := persisted.policies)
        invariant persisted.policies.Keys == before.policies.Keys
        invariant forall id :: id in before.policies ==>
                    persisted.policies[id] ==
                    if id in left then before.policies[id] else before.policies[id].(occupied := false)
        decreases left
      {
        var id :| id in left;
        var policy := persisted.policies[id];
        persisted := persisted.(policies := persisted.policies[id := policy.(occupied := false)]);
        left := left - {id};
      }
      assert persisted.policies == Spec.Vacated(before.policies);
    }

    method ReleaseTaskOccupancy() returns (r: Result<()>)
      modifies this, directory
      ensures Spec.Kept(Seen(old(Works())), r) == Spec.ReleaseTaskOccupancy(old(View()))
    {
      var occupied := AnyOccupied();
      if !occupied {
        return Ok(());
      }
      var previous := persisted;
      VacatePolicies();
      BumpSequence();
      r := Persist();
      if r.Err? {
        persisted := previous;
        return;
      }
      if active.Some? {
        active := Some(active.value.(policy := active.value.policy.(occupied := false)));
      }
    }

    /** The stored policies of a profile are looked through until a second one is found. */
    method BindTarget(profileId: string, now: int, at: int)
      modifies this`boundProfileId, this`active
      ensures View() == Spec.BindTarget(old(View()), profileId, now, at)
    {
      boundProfileId := Some(profileId);
      var found: Option<string> := None;
      var several := false;
      var left := persisted.policies.Keys;
      while left != {} && !several
        invariant left <= persisted.policies.Keys
        invariant found.Some? ==> found.value in persisted.policies.Keys - left
                                  && persisted.policies[found.value].profileId == profileId
        invariant !several ==>
                    forall id :: id in persisted.policies.Keys - left && persisted.policies[id].profileId == profileId
                      ==> found == Some(id)
        invariant several ==> found.Some? && exists id :: id in persisted.policies && id != found.value
                                                && persisted.policies[id].profileId == profileId
        decreases left
      {
        var id :| id in left;
        left := left - {id};
        if persisted.policies[id].profileId == profileId {
          if found.Some? {
            several := true;
          } else {
            found := Some(id);
          }
        }
      }
      if found.None? || several {
        active := None;
      } else {
        assert Spec.IsSole(persisted.policies, profileId, found.value);
        active := Some(Spec.Activate(persisted, persisted.policies[found.value], now, at));
      }
    }

    method Configure(value: Spec.Policy, now: int, at: int) returns (r: Result<()>)
      modifies this, directory
      ensures Spec.Kept(Seen(old(Works())), r) == Spec.Configure(old(View()), value, now, at)
    {
      var checked := Spec.ValidateConfig(value);
      if checked.Err? {
        return checked;
      }
      if persisted.closing.Some?
         && (persisted.closing.value.sessionId != value.sessionId || persisted.closing.value.version != value.version) {
        return Err(TargetClosing);
      }
      if value.gameId in persisted.policies {
        var current := persisted.policies[value.gameId];
        if value.version < current.version {
          return Err(StateStale);
        }
        if value.version == current.version {
          if value != current {
            return Err(StateVersionConflict);
          }
          if active.None? && boundProfileId == Some(value.profileId) {
            active := Some(Spec.Activate(persisted, value, now, at));
          }
          return Ok(());
        }
      }
      r := Install(value, now, at);
    }

    method Install(value: Spec.Policy, now: int, at: int) returns (r: Result<()>)
      modifies this, directory
      ensures Spec.Kept(Seen(old(Works())), r) == Spec.Install(old(View()), value, now, at)
    {
      persisted := persisted.(policies := persisted.policies[value.gameId := value]);
      BumpSequence();
      r := Persist();
      if r.Err? {
        return;
      }
      if boundProfileId == Some(value.profileId) {
        active := Some(Spec.Activate(persisted, value, now, at));
      } else {
        active := None;
      }
    }

    method MarkActivity(now: int, at: int)
      modifies this, directory
      ensures Seen(old(Works())) == Spec.MarkActivity(old(View()), now, at)
    {
      if active.None? || !active.value.policy.enabled || active.value.policy.occupied || active.value.closing {
        return;
      }
      active := Some(active.value.(lastActivity := now, lastActivityAt := at));
      BumpSequence();
      var _ := Persist();
    }

    method CloseReceipt(trigger: Spec.Trigger, result: Spec.CloseResult, at: int, error: Option<string>)
      returns (r: Option<Spec.CloseReceipt>)
      modifies this, directory
      ensures Spec.Closed(Seen(old(Works())), r) == Spec.Close(old(View()), trigger, result, at, error)
    {
      if active.None? {
        return None;
      }
      var receipt := Spec.ReceiptFor(active.value, trigger, result, at, error);
      persisted := persisted.(pending := Some(receipt));
      pendingCloseReport := true;
      if result.Failed? {
        ShutGate(true);
      } else {
        Depart();
      }
      var _ := Persist();
      return Some(receipt);
    }

    method ShutGate(failed: bool)
      requires active.Some?
      modifies this`active, this`persisted
      ensures View() == Spec.Gated(old(View()), failed)
    {
      var policy := active.value.policy;
      active := Some(active.value.(closing := true, failed := failed));
      persisted := persisted.(closing := Some(Spec.Closing(policy.sessionId, policy.version, failed)));
      BumpSequence();
    }

    method Depart()
      requires active.Some?
      modifies this`active, this`persisted, this`boundProfileId
      ensures View() == Spec.Departed(old(View()))
    {
      persisted := persisted.(policies := persisted.policies - {active.value.policy.gameId}, closing := None);
      boundProfileId := None;
      active := None;
    }

    method BeginClose() returns (r: Result<()>)
      modifies this, directory
      ensures Spec.Kept(Seen(old(Works())), r) == Spec.BeginClose(old(View()))
    {
      if active.None? {
        return Err(IdentityUnavailable);
      }
      ShutGate(false);
      r := Persist();
    }

    method ManualCloseFailed(error: string, at: int) returns (r: Option<Spec.CloseReceipt>)
      modifies this, directory
      ensures Spec.Closed(Seen(old(Works())), r) == Spec.ManualCloseFailed(old(View()), error, at)
    {
      if active.None? {
        return None;
      }
      ShutGate(true);
      var _ := Persist();
      return Some(Spec.ReceiptFor(active.value, Spec.Manual, Spec.CloseResult.Failed, at, Some(error)));
    }

    method ManualCloseReceipt(result: Spec.CloseResult, at: int) returns (r: Option<Spec.CloseReceipt>)
      modifies this, directory
      ensures Spec.Closed(Seen(old(Works())), r) == Spec.ManualClose(old(View()), result, at)
    {
      if active.None? {
        return None;
      }
      r := Some(Spec.ReceiptFor(active.value, Spec.Manual, result, at, None));
      Depart();
      var _ := Persist();
    }

    /** Whether the game has been idle for its whole period. */
    method Due(now: int) returns (due: bool)
      ensures due == Spec.Due(View(), now)
    {
      if active.None? {
        return false;
      }
      var policy := active.value.policy;
      var elapsed := if now >= active.value.lastActivity then now - active.value.lastActivity else 0;
      return policy.enabled && !policy.occupied && !active.value.closing && !active.value.failed
             && elapsed >= policy.idleTimeout;
    }

    /** The receipt to offer on this connection. */
    method PendingCloseReceipt() returns (receipt: Option<Spec.CloseReceipt>)
      ensures receipt == Spec.PendingCloseReceipt(View())
    {
      if !pendingCloseReport {
        return None;
      }
      return persisted.pending;
    }

    method Released() returns (released: bool)
      ensures released == Spec.Released(View())
    {
      var occupied := AnyOccupied();
      return recoveryStateKnown && boundProfileId.None? && active.None? && persisted.closing.None?
             && persisted.pending.None? && !occupied;
    }

    method PrepareCloseReplay()
      modifies this`pendingCloseReport
      ensures View() == Spec.PrepareCloseReplay(old(View()))
    {
      pendingCloseReport := persisted.pending.Some?;
    }

    method MarkCloseReported()
      modifies this`pendingCloseReport
      ensures View() == Spec.MarkCloseReported(old(View()))
    {
      pendingCloseReport := false;
    }

    method AcknowledgeClose(eventId: string, sessionId: string, version: nat) returns (r: Result<()>)
      modifies this, directory
      ensures Spec.Kept(Seen(old(Works())), r) == Spec.AcknowledgeClose(old(View()), eventId, sessionId, version)
    {
      if persisted.pending.None? {
        return Err(AckStale);
      }
      var receipt := persisted.pending.value;
      if receipt.sessionId != sessionId || receipt.version != version || Spec.CloseEventId(receipt) != eventId {
        return Err(AckMismatch);
      }
      persisted := persisted.(pending := None);
      pendingCloseReport := false;
      r := Persist();
    }
  }
}
