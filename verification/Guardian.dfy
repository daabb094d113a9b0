/**
 The guardian's monitor: which physical holds it must be able to release, what it
 accepts from the agent, and when it releases.
 */
module Guardian {
  import opened Outcomes

  const MAX_TIMEOUT_MS: nat := 5_000

  datatype MouseButton = Left | Right | Middle | X1 | X2

  datatype PhysicalHold =
    | ScanCode(actionId: string, scanCode: nat, extended: bool)
    | MouseHold(actionId: string, button: MouseButton)

  datatype ReleaseReason =
    | LeaseExpired | FocusLost | SessionChanged | EmergencyStop | GuardianFailure | AgentExited
    | HeartbeatExpired | AgentDisconnected | PlatformFailure

  datatype Intent = Intent(sequence: nat, holds: seq<PhysicalHold>)

  datatype Agent = Agent(pid: nat, processHandle: nat)

  datatype Monitor = Monitor(
    agent: Option<Agent>, timeout: Option<nat>, deadline: Option<int>, lastSequence: nat,
    pending: Option<Intent>, committed: seq<PhysicalHold>, lastReason: Option<ReleaseReason>)

  datatype Outcome = Outcome(monitor: Monitor, result: Result<()>)

  const NEW_MONITOR: Monitor := Monitor(None, None, None, 0, None, [], None)

  // ------------------------------------------------------------------- holds

  /** The last hold of each action. */
  function ByAction(holds: seq<PhysicalHold>): map<string, PhysicalHold> {
    if holds == [] then map[]
    else ByAction(holds[..|holds| - 1])[holds[|holds| - 1].actionId := holds[|holds| - 1]]
  }

  function ActionIds(holds: seq<PhysicalHold>): set<string> {
    set hold | hold in holds :: hold.actionId
  }

  predicate Distinct(holds: seq<PhysicalHold>) {
    forall i, j :: 0 <= i < j < |holds| ==> holds[i].actionId != holds[j].actionId
  }

  function PendingHolds(m: Monitor): seq<PhysicalHold> {
    if m.pending.Some? then m.pending.value.holds else []
  }

  /** Everything that may be physically held: a pending hold counts from its intent on. */
  function ReleaseHolds(m: Monitor): map<string, PhysicalHold> {
    ByAction(m.committed) + ByAction(PendingHolds(m))
  }

  // -------------------------------------------------------------- operations

  function Code(reason: string): ErrorCode {
    Reported("guardian." + reason)
  }

  function Fail(m: Monitor, reason: string): Outcome {
    Outcome(m, Err(Code(reason)))
  }

  function RegisterAgent(m: Monitor, agent: Agent, timeout: nat, now: int): Outcome {
    if agent.pid == 0 || agent.processHandle == 0 || timeout == 0 || timeout > MAX_TIMEOUT_MS then
      Fail(m, "registration_invalid")
    else if m.agent.Some? then Fail(m, "agent_already_registered")
    else Outcome(m.(agent := Some(agent), timeout := Some(timeout), deadline := Some(now + timeout)), Ok(()))
  }

  function RegisterIntent(m: Monitor, sequence: nat, holds: seq<PhysicalHold>): Outcome {
    if m.pending.Some? then Fail(m, "intent_pending")
    else if m.agent.None? || sequence == 0 || sequence <= m.lastSequence then Fail(m, "sequence_invalid")
    else if |ActionIds(holds)| != |holds| then Fail(m, "duplicate_hold")
    else Outcome(m.(pending := Some(Intent(sequence, holds))), Ok(()))
  }

  function CommitHolds(m: Monitor, sequence: nat): Outcome {
    if m.pending.None? then Fail(m, "intent_missing")
    else if m.pending.value.sequence != sequence then Fail(m, "sequence_invalid")
    else Outcome(m.(pending := None, lastSequence := sequence, committed := m.pending.value.holds), Ok(()))
  }

  function Heartbeat(m: Monitor, sequence: nat, now: int): Outcome {
    if sequence < m.lastSequence then Fail(m, "sequence_invalid")
    else if m.timeout.None? then Fail(m, "agent_not_registered")
    else Outcome(m.(deadline := Some(now + m.timeout.value)), Ok(()))
  }

  /** `released` is what the release driver answers. */
  function ReleaseAll(m: Monitor, reason: ReleaseReason, released: Result<()>): Outcome {
    if released.Err? then Outcome(m, released)
    else Outcome(m.(committed := [], pending := None, lastReason := Some(reason)), released)
  }

  predicate Expired(m: Monitor, now: int) {
    m.deadline.Some? && now >= m.deadline.value
  }

  function Tick(m: Monitor, now: int, alive: bool, released: Result<()>): Outcome {
    if !alive then
      var out := ReleaseAll(m, AgentExited, released);
      if out.result.Err? then out else Outcome(out.monitor.(agent := None, deadline := None), out.result)
    else if Expired(m, now) then
      var out := ReleaseAll(m, HeartbeatExpired, released);
      if out.result.Err? then out else Outcome(out.monitor.(deadline := None), out.result)
    else Outcome(m, Ok(()))
  }
}
