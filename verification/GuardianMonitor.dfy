/** The monitor object, over the driver that lets go of the physical holds. */
module GuardianMonitors {
  import opened Outcomes
  import opened Spec = Guardian

  class ReleaseDriver {
    var answers: seq<Result<()>>
    /** Every list of holds it was asked to release, with its answer. */
    ghost var asked: seq<(map<string, PhysicalHold>, Result<()>)>

    constructor (answers: seq<Result<()>>)
      ensures this.answers == answers && asked == []
    {
      this.answers, asked := answers, [];
    }

    method ReleaseAll(holds: map<string, PhysicalHold>) returns (r: Result<()>)
      modifies this
      ensures r == if old(answers) == [] then Ok(()) else old(answers)[0]
      ensures answers == if old(answers) == [] then [] else old(answers)[1..]
      ensures asked == old(asked) + [(holds, r)]
    {
      r := Ok(());
      if answers != [] {
        r := answers[0];
        answers := answers[1..];
      }
      asked := asked + [(holds, r)];
    }
  }

  class GuardianMonitor {
    const releaseDriver: ReleaseDriver
    var agent: Option<Agent>
    var heartbeatTimeout: Option<nat>
    var heartbeatDeadline: Option<int>
    var lastSequence: nat
    var pendingIntent: Option<Intent>
    var committedHolds: seq<PhysicalHold>
    var lastReleaseReason: Option<ReleaseReason>

    ghost function View(): Monitor
      reads this
    {
      Monitor(agent, heartbeatTimeout, heartbeatDeadline, lastSequence, pendingIntent, committedHolds,
              lastReleaseReason)
    }

    constructor (releaseDriver: ReleaseDriver)
      ensures View() == NEW_MONITOR && this.releaseDriver == releaseDriver
    {
      this.releaseDriver := releaseDriver;
      agent, heartbeatTimeout, heartbeatDeadline, lastSequence := None, None, None, 0;
      pendingIntent, committedHolds, lastReleaseReason := None, [], None;
    }

    method RegisterAgent(agent: Agent, timeout: nat, now: int) returns (r: Result<()>)
      modifies this
      ensures Outcome(View(), r) == Spec.RegisterAgent(old(View()), agent, timeout, now)
    {
      if agent.pid == 0 || agent.processHandle == 0 || timeout == 0 || timeout > MAX_TIMEOUT_MS {
        return Err(Code("registration_invalid"));
      }
      if this.agent.Some? {
        return Err(Code("agent_already_registered"));
      }
      this.agent, heartbeatTimeout, heartbeatDeadline := Some(agent), Some(timeout), Some(now + timeout);
      return Ok(());
    }

    method RegisterIntent(sequence: nat, holds: seq<PhysicalHold>) returns (r: Result<()>)
      modifies this
      ensures Outcome(View(), r) == Spec.RegisterIntent(old(View()), sequence, holds)
    {
      if pendingIntent.Some? {
        return Err(Code("intent_pending"));
      }
      if agent.None? || sequence == 0 || sequence <= lastSequence {
        return Err(Code("sequence_invalid"));
      }
      var unique: set<string> := {};
      for i := 0 to |holds|
        invariant unique == ActionIds(holds[..i])
      {
        assert holds[..i + 1] == holds[..i] + [holds[i]];
        unique := unique + {holds[i].actionId};
      }
      assert holds[..|holds|] == holds;
      if |unique| != |holds| {
        return Err(Code("duplicate_hold"));
      }
      pendingIntent := Some(Intent(sequence, holds));
      return Ok(());
    }

    method CommitHolds(sequence: nat) returns (r: Result<()>)
      modifies this
      ensures Outcome(View(), r) == Spec.CommitHolds(old(View()), sequence)
    {
      var taken := pendingIntent;
      pendingIntent := None;
      if taken.None? {
        return Err(Code("intent_missing"));
      }
      if taken.value.sequence != sequence {
        pendingIntent := taken;
        return Err(Code("sequence_invalid"));
      }
      lastSequence := sequence;
      committedHolds := taken.value.holds;
      return Ok(());
    }

    method Heartbeat(sequence: nat, now: int) returns (r: Result<()>)
      modifies this
      ensures Outcome(View(), r) == Spec.Heartbeat(old(View()), sequence, now)
    {
      if sequence < lastSequence {
        return Err(Code("sequence_invalid"));
      }
      if heartbeatTimeout.None? {
        return Err(Code("agent_not_registered"));
      }
      heartbeatDeadline := Some(now + heartbeatTimeout.value);
      return Ok(());
    }

    /** A pending hold takes the place of a committed one of the same action. */
    method CollectHolds() returns (releases: map<string, PhysicalHold>)
      ensures releases == ReleaseHolds(View())
    {
      releases := map[];
      for i := 0 to |committedHolds|
        invariant releases == ByAction(committedHolds[..i])
      {
        assert committedHolds[..i + 1][..i] == committedHolds[..i];
        releases := releases[committedHolds[i].actionId := committedHolds[i]];
      }
      assert committedHolds[..|committedHolds|] == committedHolds;
      if pendingIntent.Some? {
        var pending := pendingIntent.value.holds;
        for i := 0 to |pending|
          invariant releases == ByAction(committedHolds) + ByAction(pending[..i])
        {
          assert pending[..i + 1][..i] == pending[..i];
          releases := releases[pending[i].actionId := pending[i]];
        }
        assert pending[..|pending|] == pending;
      }
    }

    method ReleaseAll(reason: ReleaseReason) returns (r: Result<()>)
      modifies this, releaseDriver
      ensures releaseDriver.asked == old(releaseDriver.asked) + [(ReleaseHolds(old(View())), r)]
      ensures Outcome(View(), r) == Spec.ReleaseAll(old(View()), reason, r)
    {
      var releases := CollectHolds();
      r := releaseDriver.ReleaseAll(releases);
      if r.Err? {
        return;
      }
      committedHolds := [];
      pendingIntent := None;
      lastReleaseReason := Some(reason);
    }

    method Tick(now: int, agentAlive: bool) returns (r: Result<()>)
      modifies this, releaseDriver
      ensures Outcome(View(), r) == Spec.Tick(old(View()), now, agentAlive, r)
      ensures releaseDriver.asked ==
              if !agentAlive || Expired(old(View()), now)
              then old(releaseDriver.asked) + [(ReleaseHolds(old(View())), r)] else old(releaseDriver.asked)
    {
      if !agentAlive {
        r := ReleaseAll(AgentExited);
        if r.Err? {
          return;
        }
        agent := None;
        heartbeatDeadline := None;
        return;
      }
      r := Ok(());
      if heartbeatDeadline.Some? && now >= heartbeatDeadline.value {
        r := ReleaseAll(HeartbeatExpired);
        if r.Err? {
          return;
        }
        heartbeatDeadline := None;
      }
    }
  }
}
