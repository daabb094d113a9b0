/** The guardian never forgets a hold. */
module GuardianRuns {
  import opened Outcomes
  import opened Guardian

  datatype Step =
    | Register(agent: Agent, timeout: nat, now: int)
    | Intend(sequence: nat, holds: seq<PhysicalHold>)
    | Commit(sequence: nat)
    | Beat(sequence: nat, now: int)
    | Watch(now: int, alive: bool, released: Result<()>)
    | Release(reason: ReleaseReason, released: Result<()>)

  function Take(m: Monitor, step: Step): Outcome {
    match step
    case Register(agent, timeout, now) => RegisterAgent(m, agent, timeout, now)
    case Intend(sequence, holds) => RegisterIntent(m, sequence, holds)
    case Commit(sequence) => CommitHolds(m, sequence)
    case Beat(sequence, now) => Heartbeat(m, sequence, now)
    case Watch(now, alive, released) => Tick(m, now, alive, released)
    case Release(reason, released) => ReleaseAll(m, reason, released)
  }

  function Run(m: Monitor, steps: seq<Step>): Monitor
    decreases |steps|
  {
    if steps == [] then m else Run(Take(m, steps[0]).monitor, steps[1..])
  }

  // -------------------------------------------------------- what is released

  lemma {:induction false} ByActionHolds(holds: seq<PhysicalHold>)
    ensures ByAction(holds).Keys == ActionIds(holds)
    ensures forall id :: id in ByAction(holds) ==> ByAction(holds)[id] in holds && ByAction(holds)[id].actionId == id
    decreases |holds|
  {
    if holds != [] {
      var n := |holds| - 1;
      ByActionHolds(holds[..n]);
      assert holds == holds[..n] + [holds[n]];
      assert ActionIds(holds) == ActionIds(holds[..n]) + {holds[n].actionId};
    }
  }

  /** With distinct actions every hold of the list is there. */
  lemma {:induction false} DistinctHoldsAreAllThere(holds: seq<PhysicalHold>, i: nat)
    requires Distinct(holds) && i < |holds|
    ensures holds[i].actionId in ByAction(holds) && ByAction(holds)[holds[i].actionId] == holds[i]
    decreases |holds|
  {
    if i < |holds| - 1 {
      DistinctHoldsAreAllThere(holds[..|holds| - 1], i);
    }
  }

  lemma AddingOne(init: seq<PhysicalHold>, last: PhysicalHold)
    ensures ActionIds(init + [last]) == ActionIds(init) + {last.actionId}
    ensures Distinct(init + [last]) <==> Distinct(init) && last.actionId !in ActionIds(init)
  {
    var holds := init + [last];
    assert forall i :: 0 <= i < |init| ==> holds[i] == init[i];
    assert holds[|init|] == last;
    if last.actionId in ActionIds(init) {
      var hold :| hold in init && hold.actionId == last.actionId;
      var i :| 0 <= i < |init| && init[i] == hold;
      assert holds[i].actionId == holds[|init|].actionId;
    }
    if !Distinct(init) {
      var i, j :| 0 <= i < j < |init| && init[i].actionId == init[j].actionId;
      assert holds[i].actionId == holds[j].actionId;
    }
  }

  /** Counting the action ids tells exactly whether they are distinct. */
  lemma {:induction false} CountingFindsDuplicates(holds: seq<PhysicalHold>)
    ensures |ActionIds(holds)| <= |holds|
    ensures |ActionIds(holds)| == |holds| <==> Distinct(holds)
    decreases |holds|
  {
    if holds != [] {
      var init, last := holds[..|holds| - 1], holds[|holds| - 1];
      CountingFindsDuplicates(init);
      assert holds == init + [last];
      AddingOne(init, last);
      if last.actionId in ActionIds(init) {
        assert ActionIds(init) + {last.actionId} == ActionIds(init);
      }
    }
  }

  ghost predicate Valid(m: Monitor) {
    && Distinct(m.committed) && Distinct(PendingHolds(m))
    && (m.pending.Some? ==> m.pending.value.sequence > m.lastSequence)
  }

  /** What may be held is exactly the committed and the pending holds, the pending one where both name an action. */
  lemma ReleasesExactlyTheHolds(m: Monitor, hold: PhysicalHold)
    requires Valid(m)
    ensures hold.actionId in ReleaseHolds(m) && ReleaseHolds(m)[hold.actionId] == hold
            <==> hold in PendingHolds(m) || (hold in m.committed && hold.actionId !in ActionIds(PendingHolds(m)))
  {
    ByActionHolds(m.committed);
    ByActionHolds(PendingHolds(m));
    forall i | 0 <= i < |m.committed|
      ensures ByAction(m.committed)[m.committed[i].actionId] == m.committed[i]
    {
      DistinctHoldsAreAllThere(m.committed, i);
    }
    forall i | 0 <= i < |PendingHolds(m)|
      ensures ByAction(PendingHolds(m))[PendingHolds(m)[i].actionId] == PendingHolds(m)[i]
    {
      DistinctHoldsAreAllThere(PendingHolds(m), i);
    }
  }

  // ------------------------------------------------------------------- steps

  lemma StepKeepsValid(m: Monitor, step: Step)
    requires Valid(m)
    ensures Valid(Take(m, step).monitor)
  {
    if step.Intend? {
      CountingFindsDuplicates(step.holds);
    }
  }

  /** The actions that may be held. */
  function Held(m: Monitor): set<string> {
    ActionIds(m.committed) + ActionIds(PendingHolds(m))
  }

  /** The actions a step lets go of: all of them by a release that worked, those a commit leaves out. */
  function LetGo(m: Monitor, step: Step): set<string> {
    if Take(m, step).result.Err? then {}
    else match step
      case Release(_, _) => Held(m)
      case Watch(now, alive, _) => if !alive || Expired(m, now) then Held(m) else {}
      case Commit(_) => ActionIds(m.committed) - ActionIds(PendingHolds(m))
      case _ => {}
  }

  function TakenUp(m: Monitor, step: Step): set<string> {
    if step.Intend? && Take(m, step).result.Ok? then ActionIds(step.holds) else {}
  }

  lemma HeldIds(m: Monitor)
    ensures ReleaseHolds(m).Keys == Held(m)
  {
    ByActionHolds(m.committed);
    ByActionHolds(PendingHolds(m));
  }

  lemma StepAccountsForHolds(m: Monitor, step: Step)
    ensures ReleaseHolds(Take(m, step).monitor).Keys == ReleaseHolds(m).Keys - LetGo(m, step) + TakenUp(m, step)
  {
    HeldIds(m);
    HeldIds(Take(m, step).monitor);
    HeldChanges(m, Take(m, step).monitor, step);
  }

  lemma HeldChanges(m: Monitor, n: Monitor, step: Step)
    requires n == Take(m, step).monitor
    ensures Held(n) == Held(m) - LetGo(m, step) + TakenUp(m, step)
  {
    assert ActionIds([]) == {};
    if Take(m, step).result.Err? {
      assert n == m;
    } else if step.Commit? {
      assert n.committed == PendingHolds(m) && PendingHolds(n) == [];
    } else if step.Intend? {
      assert PendingHolds(m) == [] && PendingHolds(n) == step.holds && n.committed == m.committed;
    } else if LetGo(m, step) == Held(m) && n.committed == [] && n.pending.None? {
      assert Held(n) == {};
    } else {
      assert n.committed == m.committed && n.pending == m.pending;
    }
  }

  ghost predicate NeverLetGo(m: Monitor, steps: seq<Step>, id: string)
    decreases |steps|
  {
    steps == [] || (id !in LetGo(m, steps[0]) && NeverLetGo(Take(m, steps[0]).monitor, steps[1..], id))
  }

  /** A hold stays in the list of what must be released through any run, until a release works or a commit
      leaves it out. */
  lemma {:induction false} HoldsAreNeverForgotten(m: Monitor, steps: seq<Step>, id: string)
    requires id in ReleaseHolds(m) && NeverLetGo(m, steps, id)
    ensures id in ReleaseHolds(Run(m, steps))
    decreases |steps|
  {
    if steps != [] {
      StepAccountsForHolds(m, steps[0]);
      HoldsAreNeverForgotten(Take(m, steps[0]).monitor, steps[1..], id);
    }
  }

  lemma StepRaisesSequence(m: Monitor, step: Step)
    requires Valid(m)
    ensures m.lastSequence <= Take(m, step).monitor.lastSequence
    ensures step.Commit? && Take(m, step).result.Ok? ==>
              m.lastSequence < step.sequence == Take(m, step).monitor.lastSequence
  {
  }

  /** Sequence numbers only go up, so of two commits that were accepted in a run the later has the higher one. */
  lemma {:induction false} CommitsAreInOrder(m: Monitor, steps: seq<Step>, k: nat)
    requires Valid(m) && k < |steps|
    requires steps[k].Commit? && Take(Run(m, steps[..k]), steps[k]).result.Ok?
    ensures m.lastSequence < steps[k].sequence <= Run(m, steps).lastSequence
    ensures Valid(Run(m, steps))
    decreases |steps|
  {
    var next := Take(m, steps[0]).monitor;
    StepKeepsValid(m, steps[0]);
    StepRaisesSequence(m, steps[0]);
    if k == 0 {
      SequenceNeverDecreases(next, steps[1..]);
    } else {
      assert steps[..k][1..] == steps[1..][..k - 1];
      CommitsAreInOrder(next, steps[1..], k - 1);
    }
  }

  lemma {:induction false} SequenceNeverDecreases(m: Monitor, steps: seq<Step>)
    requires Valid(m)
    ensures Valid(Run(m, steps)) && m.lastSequence <= Run(m, steps).lastSequence
    decreases |steps|
  {
    if steps != [] {
      StepKeepsValid(m, steps[0]);
      StepRaisesSequence(m, steps[0]);
      SequenceNeverDecreases(Take(m, steps[0]).monitor, steps[1..]);
    }
  }

  /** A new monitor starts the runs of all these results. */
  lemma StartsValid(steps: seq<Step>)
    ensures Valid(NEW_MONITOR) && Valid(Run(NEW_MONITOR, steps))
  {
    SequenceNeverDecreases(NEW_MONITOR, steps);
  }

  // ------------------------------------------------------------------- ticks

  /** Whether a tick of a living agent would release. */
  predicate Releases(m: Monitor, now: int) {
    Tick(m, now, true, Ok(())).monitor != m || Tick(m, now, true, Err(Code("release"))).result.Err?
  }

  /** A heartbeat holds the release off for one timeout and not longer, whatever holds are registered or committed
      meanwhile; a heartbeat that is behind the last commit does not count. */
  lemma HeartbeatHoldsOffExactly(m: Monitor, sequence: nat, at: int, steps: seq<Step>, now: int)
    requires m.timeout.Some? && OnlyHolds(steps)
    ensures var beaten := Heartbeat(m, sequence, at);
            && (beaten.result.Ok? <==> m.lastSequence <= sequence)
            && (beaten.result.Ok? ==> (Releases(Run(beaten.monitor, steps), now) <==> now >= at + m.timeout.value))
            && (beaten.result.Err? ==> beaten.monitor == m)
  {
    HoldsKeepTheDeadline(Heartbeat(m, sequence, at).monitor, steps);
  }

  ghost predicate OnlyHolds(steps: seq<Step>) {
    forall i :: 0 <= i < |steps| ==> steps[i].Intend? || steps[i].Commit?
  }

  lemma {:induction false} HoldsKeepTheDeadline(m: Monitor, steps: seq<Step>)
    requires OnlyHolds(steps)
    ensures Run(m, steps).deadline == m.deadline
    decreases |steps|
  {
    if steps != [] {
      HoldsKeepTheDeadline(Take(m, steps[0]).monitor, steps[1..]);
    }
  }

  ghost predicate AllFailing(m: Monitor, steps: seq<Step>) {
    forall i :: 0 <= i < |steps| ==>
      steps[i].Watch? && steps[i].released.Err? && (!steps[i].alive || Expired(m, steps[i].now))
  }

  /** As long as the driver fails nothing changes, so every later tick tries again, and the first that works
      releases everything that was held when the deadline passed. */
  lemma {:induction false} FailedReleasesAreRetried(m: Monitor, steps: seq<Step>, now: int, alive: bool)
    requires AllFailing(m, steps)
    requires !alive || Expired(m, now)
    ensures Run(m, steps) == m
    ensures ReleaseHolds(Run(m, steps + [Watch(now, alive, Ok(()))])) == map[]
    ensures Run(m, steps + [Watch(now, alive, Ok(()))]).deadline == None
    decreases |steps|
  {
    var last := Watch(now, alive, Ok(()));
    if steps == [] {
      assert [last][1..] == [];
      assert steps + [last] == [last];
    } else {
      assert (steps + [last])[1..] == steps[1..] + [last];
      FailedReleasesAreRetried(m, steps[1..], now, alive);
    }
  }

  ghost predicate NoBeat(steps: seq<Step>) {
    forall i :: 0 <= i < |steps| ==> !steps[i].Beat? && !steps[i].Register? && (steps[i].Watch? ==> steps[i].alive)
  }

  /** Once the heartbeat deadline has been used up, ticks release nothing for a living agent until it sends a
      heartbeat, although it may go on committing holds. */
  lemma {:induction false} NoDeadlineNoRelease(m: Monitor, steps: seq<Step>)
    requires m.deadline.None? && NoBeat(steps)
    ensures Run(m, steps).deadline.None?
    ensures forall now :: Tick(Run(m, steps), now, true, Ok(())).monitor == Run(m, steps)
    decreases |steps|
  {
    if steps != [] {
      NoDeadlineNoRelease(Take(m, steps[0]).monitor, steps[1..]);
    }
  }

  /** An agent registered after another one exited is held to the sequence numbers of the first. */
  lemma NextAgentContinuesTheSequence(
    m: Monitor, agent: Agent, timeout: nat, now: int, sequence: nat, holds: seq<PhysicalHold>)
    requires m.agent.None? && m.pending.None?
    requires RegisterAgent(m, agent, timeout, now).result.Ok? && Distinct(holds) && sequence > 0
    ensures RegisterIntent(RegisterAgent(m, agent, timeout, now).monitor, sequence, holds).result.Ok?
            <==> sequence > m.lastSequence
  {
    CountingFindsDuplicates(holds);
  }

  // ----------------------------------------------------------------- answers

  function Refused(m: Monitor, reason: string): Outcome {
    Outcome(m, Err(Reported("guardian." + reason)))
  }

  /** A tick with a dead agent lets everything go and makes room for the next agent; one after the deadline lets
      everything go and waits for the next heartbeat. A driver that fails leaves everything as it was. */
  lemma TickIsAnsweredExactly(m: Monitor, now: int, alive: bool, released: Result<()>)
    ensures var out := Tick(m, now, alive, released);
            if alive && (m.deadline.None? || now < m.deadline.value) then out == Outcome(m, Ok(()))
            else if released.Err? then out == Outcome(m, released)
            else
              && out.result.Ok?
              && out.monitor == Monitor(if alive then m.agent else None, m.timeout, None, m.lastSequence, None, [],
                                        Some(if alive then HeartbeatExpired else AgentExited))
  {
  }

  /** An agent is registered exactly when it is identified, its timeout is at most five seconds, and no other agent
      is; its first deadline is one timeout away. */
  lemma RegistrationIsAnsweredExactly(m: Monitor, agent: Agent, timeout: nat, now: int)
    ensures RegisterAgent(m, agent, timeout, now) ==
            if agent.pid == 0 || agent.processHandle == 0 || timeout == 0 || timeout > 5_000
            then Refused(m, "registration_invalid")
            else if m.agent.Some? then Refused(m, "agent_already_registered")
            else Outcome(m.(agent := Some(agent), timeout := Some(timeout), deadline := Some(now + timeout)), Ok(()))
  {
  }

  /** What the agent is told of an intent, a commit and a heartbeat, for the first reason that applies. */
  lemma RequestsAreAnsweredExactly(m: Monitor, sequence: nat, holds: seq<PhysicalHold>, now: int)
    ensures RegisterIntent(m, sequence, holds) ==
            if m.pending.Some? then Refused(m, "intent_pending")
            else if m.agent.None? || sequence == 0 || sequence <= m.lastSequence then Refused(m, "sequence_invalid")
            else if !Distinct(holds) then Refused(m, "duplicate_hold")
            else Outcome(m.(pending := Some(Intent(sequence, holds))), Ok(()))
    ensures CommitHolds(m, sequence) ==
            if m.pending.None? then Refused(m, "intent_missing")
            else if m.pending.value.sequence != sequence then Refused(m, "sequence_invalid")
            else Outcome(m.(pending := None, lastSequence := sequence, committed := m.pending.value.holds), Ok(()))
    ensures Heartbeat(m, sequence, now) ==
            if sequence < m.lastSequence then Refused(m, "sequence_invalid")
            else if m.timeout.None? then Refused(m, "agent_not_registered")
            else Outcome(m.(deadline := Some(now + m.timeout.value)), Ok(()))
  {
    CountingFindsDuplicates(holds);
  }

  /** Once a dead agent's holds were released the next agent can register, and until its first heartbeat it is given
      one timeout. */
  lemma DeadAgentMakesRoom(m: Monitor, now: int, agent: Agent, timeout: nat, at: int, later: int)
    requires agent.pid > 0 && agent.processHandle > 0 && 0 < timeout <= 5_000
    ensures var left := Tick(m, now, false, Ok(())).monitor;
            var next := RegisterAgent(left, agent, timeout, at);
            && next.result.Ok? && next.monitor.agent == Some(agent)
            && ReleaseHolds(next.monitor) == map[]
            && (Releases(next.monitor, later) <==> later >= at + timeout)
  {
    TickIsAnsweredExactly(m, now, false, Ok(()));
    RegistrationIsAnsweredExactly(Tick(m, now, false, Ok(())).monitor, agent, timeout, at);
  }
}
