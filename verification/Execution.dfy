/**
 The command executor around the attempt ledger: target generations, the frame
 counters that say which observation an input is based on, the order of replay,
 go-ahead, device and completion, and the session reset.
 */
module Execution {
  import opened Outcomes
  import opened AttemptRecord
  import Ledger = AttemptLedger
  import opened LedgerWorlds
  import opened TaskAttempts
  import Games = ManagedGame
  import opened ManagedGames

  const MAX_U64: nat := 0xFFFF_FFFF_FFFF_FFFF

  /** A counter belongs to a capture source, of one attempt or of none. */
  datatype FrameKey = ForTask(attemptId: string, contractDigest: string, sourceId: string) | ForSource(sourceId: string)

  datatype Owner = Owner(key: FrameKey, generation: nat)

  datatype Frame = Frame(counter: nat, sequence: nat)

  function KeyOf(sourceId: string, attempt: Option<AttemptRef>): FrameKey {
    if attempt.None? then ForSource(sourceId)
    else ForTask(attempt.value.attemptId, attempt.value.contractDigest, sourceId)
  }

  /** A worker whose capture was rebuilt once is not rebuilt again. */
  datatype CaptureWorker = CaptureWorker(
    sourceId: string, attempt: Option<AttemptRef>, counter: nat, generation: nat, rediscoverable: bool)
  {
    function Key(): FrameKey {
      KeyOf(sourceId, attempt)
    }
  }

  datatype InputFrame = InputFrame(generation: nat, source: Option<nat>, relative: bool, relativeAllowed: bool)

  // ------------------------------------------------------------------ device

  /** What the device layer does with the next request. */
  datatype DeviceAnswer = Refuses(code: ErrorCode) | Reaches(result: Result<bool>)

  /** An input frame that reached the device, with the latest frame there was when it did, and what came of it. */
  datatype AppliedInput = AppliedInput(
    binding: TargetBinding, generation: nat, source: Option<nat>, latest: Option<nat>, result: Result<bool>)

  predicate IsCurrent(latest: Option<nat>, source: Option<nat>) {
    source.Some? ==> source.value != 0 && latest == source
  }

  class Platform {
    var script: seq<DeviceAnswer>
    ghost var inputs: seq<AppliedInput>

    constructor (script: seq<DeviceAnswer>)
      ensures this.script == script && inputs == []
    {
      this.script, inputs := script, [];
    }

    method NextAnswer() returns (answer: DeviceAnswer)
      modifies this`script
      ensures answer == if old(script) == [] then Reaches(Ok(false)) else old(script)[0]
      ensures script == Rest(old(script))
    {
      answer := Reaches(Ok(false));
      if script != [] {
        answer := script[0];
        script := script[1..];
      }
    }

    /** A request that only succeeds or fails. */
    method Attempt() returns (r: Result<()>)
      modifies this`script
      ensures r == FirstAnswer(old(script)) && script == Rest(old(script))
    {
      var answer := NextAnswer();
      r := if answer.Reaches? then Ok(()) else Err(answer.code);
    }

    /** The device checks once more that the frame named by the input is the latest one. */
    method ApplyInputFrame(binding: TargetBinding, ghost generation: nat, latest: Option<nat>, source: Option<nat>)
      returns (r: Result<bool>)
      modifies this
      ensures var reached := IsCurrent(latest, source) && NextAnswerOf(old(script)).Reaches?;
              inputs == if reached then old(inputs) + [AppliedInput(binding, generation, source, latest, r)]
                        else old(inputs)
      ensures r == if !IsCurrent(latest, source) then Err(SourceFrameStale)
                   else match NextAnswerOf(old(script))
                        case Refuses(code) => Err(code)
                        case Reaches(result) => result
    {
      if source.Some? && (source.value == 0 || latest != source) {
        return Err(SourceFrameStale);
      }
      var answer := NextAnswer();
      if answer.Refuses? {
        return Err(answer.code);
      }
      inputs := inputs + [AppliedInput(binding, generation, source, latest, answer.result)];
      return answer.result;
    }
  }

  /** What the device layer will do with the next request. */
  function NextAnswerOf(script: seq<DeviceAnswer>): DeviceAnswer {
    if script == [] then Reaches(Ok(false)) else script[0]
  }

  /** What the next request that only succeeds or fails will answer. */
  function FirstAnswer(script: seq<DeviceAnswer>): Result<()> {
    if script == [] || script[0].Reaches? then Ok(()) else Err(script[0].code)
  }

  /** The requests after the next one. */
  function Rest(script: seq<DeviceAnswer>): seq<DeviceAnswer> {
    if script == [] then [] else script[1..]
  }

  predicate AllReach(script: seq<DeviceAnswer>) {
    forall i :: 0 <= i < |script| ==> script[i].Reaches?
  }

  function InputFrameOutcome(error: Option<ErrorCode>): CommandOutcome {
    if error.None? then CommandOutcome.Applied
    else if error.value in {GuardianUnavailable, LocalInputDetected, FrameInvalid, GenerationStale, DeadlineExpired,
                            WorkerNotApplied}
    then CommandOutcome.NotApplied
    else CommandOutcome.Uncertain
  }

  /** Whether a command counts as activity of the managed game. */
  predicate OutcomeApplied(r: Result<Reply>) {
    && r.Ok? && r.value.Answered?
    && (r.value.outcome.None? || r.value.outcome.value.outcome == CommandOutcome.Applied)
  }

  // --------------------------------------------------------- failed captures

  /** Failures that leave open what the worker process did: every code of the worker's own, and one of the capture. */
  predicate WorkerFailed(code: ErrorCode) {
    || code.DeadlineExpired? || code.WorkerNotApplied?
    || (code.Reported? && ("worker." <= code.text || code.text == "capture.worker_failed"))
  }

  /** Failures after which the target is looked for once more. */
  predicate Rediscovers(code: ErrorCode) {
    code in {Reported("capture.no_frame_timeout"), TargetStale, Reported("target.not_found")}
  }

  lemma RediscoversExactly(code: ErrorCode)
    ensures Rediscovers(code) <==>
            match code
            case TargetStale => true
            case Reported(text) => text == "capture.no_frame_timeout" || text == "target.not_found"
            case _ => false
  {
  }

  /** How a failed capture is marked on the active attempt, once its input was let go of or not. */
  function FailureMark(failure: ErrorCode, release: Result<()>): Move {
    if WorkerFailed(failure) || release.Err?
    then Move.MarkUncertain(if release.Err? then release.code else failure, release.Ok?)
    else Move.MarkReleased(failure)
  }

  datatype RuntimeState = RecoveryBlocked | Executing | ProfileUpdateBlocked | ConnectedIdle

  // ---------------------------------------------------------------- executor

  class CommandExecutor {
    const platform: Platform
    const attempts: TaskAttemptRuntime
    const games: ManagedGameLifecycle
    var binding: Option<TargetBinding>
    var targetGeneration: nat
    var capture: Option<CaptureWorker>
    /** Counters are shared with capture workers, so the map holds references into `counters`. */
    var frameSequences: map<FrameKey, nat>
    var counters: seq<nat>
    var profileUpdateBlocked: bool
    /** Whom each counter was made for, and every frame that was published, oldest first. */
    ghost var owners: seq<Owner>
    ghost var published: seq<Frame>

    ghost predicate Valid()
      reads this
    {
      && |owners| == |counters|
      && (forall key :: key in frameSequences ==>
            frameSequences[key] < |counters| && owners[frameSequences[key]] == Owner(key, targetGeneration))
      && (forall c :: 0 <= c < |owners| ==> owners[c].generation <= targetGeneration)
      && (capture.Some? ==>
            capture.value.counter < |counters|
            && owners[capture.value.counter] == Owner(capture.value.Key(), capture.value.generation))
      && Numbered(counters, published)
      && targetGeneration <= MAX_U64
      && forall c :: 0 <= c < |counters| ==> counters[c] <= MAX_U64
    }

    /** Every counter of the current generation is still in use. */
    ghost predicate Covered()
      requires Valid()
      reads this
    {
      forall c :: 0 <= c < |owners| && owners[c].generation == targetGeneration ==>
        owners[c].key in frameSequences && frameSequences[owners[c].key] == c
    }

    constructor (platform: Platform, attempts: TaskAttemptRuntime, games: ManagedGameLifecycle)
      ensures this.platform == platform && this.attempts == attempts && this.games == games
      ensures Valid() && Covered() && targetGeneration == 0 && binding == None && capture == None
      ensures frameSequences == map[] && counters == [] && owners == [] && published == []
    {
      this.platform, this.attempts, this.games := platform, attempts, games;
      binding, targetGeneration, capture, frameSequences, counters := None, 0, None, map[], [];
      profileUpdateBlocked, owners, published := false, [], [];
    }

    // -------------------------------------------------------- target binding

    /** A new binding raises the generation and drops every counter; the same binding changes nothing. */
    method SetBinding(b: Option<TargetBinding>) returns (r: Result<()>)
      requires Valid()
      modifies this`binding, this`targetGeneration, this`frameSequences
      ensures Valid()
      ensures if old(binding) == b then
                r == Ok(()) && binding == b && targetGeneration == old(targetGeneration)
                && frameSequences == old(frameSequences)
              else if old(targetGeneration) == MAX_U64 then
                r == Err(GenerationExhausted) && binding == old(binding)
                && targetGeneration == old(targetGeneration) && frameSequences == old(frameSequences)
              else
                && r == Ok(()) && binding == b && targetGeneration == old(targetGeneration) + 1
                && frameSequences == map[] && Covered()
                && forall f :: f in published ==> owners[f.counter].generation < targetGeneration
    {
      if binding != b {
        if targetGeneration == MAX_U64 {
          return Err(GenerationExhausted);
        }
        targetGeneration := targetGeneration + 1;
        frameSequences := map[];
      }
      binding := b;
      return Ok(());
    }

    method RequireTargetGeneration(generation: nat) returns (r: Result<()>)
      ensures r == if generation == targetGeneration && generation != 0 then Ok(()) else Err(GenerationStale)
    {
      if generation == targetGeneration && generation != 0 {
        return Ok(());
      }
      return Err(GenerationStale);
    }

    // ---------------------------------------------------------------- frames

    /** The counter of a source, made when there is none. */
    method OpenCounter(key: FrameKey) returns (c: nat)
      requires Valid()
      modifies this`frameSequences, this`counters, this`owners
      ensures Valid() && key in frameSequences && c == frameSequences[key]
      ensures old(Covered()) ==> Covered()
      ensures if key in old(frameSequences)
              then frameSequences == old(frameSequences) && counters == old(counters) && owners == old(owners)
              else frameSequences == old(frameSequences)[key := |old(counters)|] && counters == old(counters) + [0]
                   && owners == old(owners) + [Owner(key, targetGeneration)]
    {
      if key !in frameSequences {
        frameSequences := frameSequences[key := |counters|];
        counters := counters + [0];
        owners := owners + [Owner(key, targetGeneration)];
      }
      c := frameSequences[key];
    }

    /** Publishes the next frame of a counter. */
    method PublishFrame(c: nat) returns (r: Result<nat>)
      requires Valid() && c < |counters|
      modifies this`counters, this`published
      ensures Valid() && (old(Covered()) ==> Covered())
      ensures if old(counters)[c] == MAX_U64
              then r == Err(SequenceExhausted) && counters == old(counters) && published == old(published)
              else r == Ok(old(counters)[c] + 1) && counters == old(counters)[c := old(counters)[c] + 1]
                   && published == old(published) + [Frame(c, old(counters)[c] + 1)]
    {
      if counters[c] == MAX_U64 {
        return Err(SequenceExhausted);
      }
      counters := counters[c := counters[c] + 1];
      published := published + [Frame(c, counters[c])];
      return Ok(counters[c]);
    }

    /** What a running worker answers when it is told to stop, and the requests after that. */
    static function Stopping(running: Option<CaptureWorker>, script: seq<DeviceAnswer>): Result<()> {
      if running.Some? then FirstAnswer(script) else Ok(())
    }

    static function AfterStopping(running: Option<CaptureWorker>, script: seq<DeviceAnswer>): seq<DeviceAnswer> {
      if running.Some? then Rest(script) else script
    }

    method StopCapture(sourceId: Option<string>) returns (r: Result<()>)
      requires Valid()
      modifies this`capture, platform`script
      ensures Valid()
      ensures if old(capture).Some? && sourceId.Some? && old(capture).value.sourceId != sourceId.value
              then r == Err(Reported("capture.source_not_active")) && capture == old(capture)
                   && platform.script == old(platform.script)
              else capture == None && r == Stopping(old(capture), old(platform.script))
                   && platform.script == AfterStopping(old(capture), old(platform.script))
    {
      if capture.Some? && sourceId.Some? && capture.value.sourceId != sourceId.value {
        return Err(Reported("capture.source_not_active"));
      }
      r := Ok(());
      if capture.Some? {
        capture := None;
        r := platform.Attempt();
      }
    }

    /** A capture worker publishes on the counter of its source, for the generation it was started in. */
    method StartCapture(sourceId: string, attempt: Option<AttemptRef>, generation: nat) returns (r: Result<()>)
      requires Valid()
      modifies this`capture, this`frameSequences, this`counters, this`owners, platform`script
      ensures Valid() && (old(Covered()) ==> Covered())
      ensures var stopped := Stopping(old(capture), old(platform.script));
              r == if stopped.Err? then Err(stopped.code)
                   else if generation == 0 || generation != targetGeneration then Err(GenerationStale)
                   else FirstAnswer(AfterStopping(old(capture), old(platform.script)))
      ensures r.Ok? ==>
                && Captures(sourceId, attempt, true)
                && Opened(KeyOf(sourceId, attempt), old(frameSequences), old(counters), old(owners))
      ensures r.Err? ==>
                && capture == None && frameSequences == old(frameSequences)
                && counters == old(counters) && owners == old(owners)
      ensures old(platform.script) == [] ==> platform.script == []
    {
      r := StopCapture(None);
      if r.Err? {
        return;
      }
      r := RequireTargetGeneration(generation);
      if r.Err? {
        return;
      }
      r := platform.Attempt();
      if r.Err? {
        return;
      }
      SpawnWorker(sourceId, attempt, true);
    }

    /** A worker of this source, on its counter, under the current generation. */
    ghost predicate Captures(sourceId: string, attempt: Option<AttemptRef>, rediscoverable: bool)
      reads this
    {
      var key := KeyOf(sourceId, attempt);
      && key in frameSequences
      && capture == Some(CaptureWorker(sourceId, attempt, frameSequences[key], targetGeneration, rediscoverable))
    }

    /** The counter of the key is the one it had, or a new one that starts at zero. */
    ghost predicate Opened(key: FrameKey, sequences: map<FrameKey, nat>, numbers: seq<nat>, makers: seq<Owner>)
      reads this
    {
      if key in sequences
      then frameSequences == sequences && counters == numbers && owners == makers
      else frameSequences == sequences[key := |numbers|] && counters == numbers + [0]
           && owners == makers + [Owner(key, targetGeneration)]
    }

    /** A new worker on the counter of its source. */
    method SpawnWorker(sourceId: string, attempt: Option<AttemptRef>, rediscoverable: bool)
      requires Valid()
      modifies this`capture, this`frameSequences, this`counters, this`owners
      ensures Valid() && (old(Covered()) ==> Covered()) && Captures(sourceId, attempt, rediscoverable)
      ensures Opened(KeyOf(sourceId, attempt), old(frameSequences), old(counters), old(owners))
    {
      var c := OpenCounter(KeyOf(sourceId, attempt));
      capture := Some(CaptureWorker(sourceId, attempt, c, targetGeneration, rediscoverable));
    }

    /** The capture worker produces its next frame, whatever the executor is doing. */
    method WorkerFrame() returns (r: Result<nat>)
      requires Valid() && capture.Some?
      modifies this`counters, this`published
      ensures Valid() && (old(Covered()) ==> Covered())
      ensures var c := capture.value.counter;
              if old(counters)[c] == MAX_U64
              then r == Err(SequenceExhausted) && counters == old(counters) && published == old(published)
              else r == Ok(old(counters)[c] + 1) && counters == old(counters)[c := old(counters)[c] + 1]
                   && published == old(published) + [Frame(c, old(counters)[c] + 1)]
    {
      r := PublishFrame(capture.value.counter);
    }

    /** What a frame on request comes to: the next number of its source, or what stands in the way. */
    ghost function NextFrame(key: FrameKey, generation: nat, script: seq<DeviceAnswer>): Result<nat>
      requires Valid()
      reads this
    {
      if generation == 0 || generation != targetGeneration then Err(GenerationStale)
      else if FirstAnswer(script).Err? then Err(FirstAnswer(script).code)
      else NextNumber(key)
    }

    ghost function NextNumber(key: FrameKey): Result<nat>
      requires Valid()
      reads this
    {
      if key !in frameSequences then Ok(1)
      else if counters[frameSequences[key]] == MAX_U64 then Err(SequenceExhausted)
      else Ok(counters[frameSequences[key]] + 1)
    }

    /** The next frame of a source, on the counter it has or on a new one. */
    method PublishNext(key: FrameKey) returns (r: Result<nat>)
      requires Valid()
      modifies this`frameSequences, this`counters, this`owners, this`published
      ensures Valid() && (old(Covered()) ==> Covered())
      ensures r == old(NextNumber(key))
      ensures r.Ok? ==> Published(key, r.value, old(frameSequences), old(counters), old(owners), old(published))
      ensures r.Err? ==>
                && frameSequences == old(frameSequences) && counters == old(counters)
                && owners == old(owners) && published == old(published)
    {
      hide Numbered;
      var c := OpenCounter(key);
      r := PublishFrame(c);
    }

    /** The frame was published under this number, on the counter that the key had or on a new one. */
    ghost predicate Published(
      key: FrameKey, n: nat, sequences: map<FrameKey, nat>, numbers: seq<nat>, makers: seq<Owner>, before: seq<Frame>)
      reads this
    {
      && key in frameSequences && frameSequences[key] < |counters| && counters[frameSequences[key]] == n
      && published == before + [Frame(frameSequences[key], n)]
      && (if key in sequences
          then frameSequences == sequences && owners == makers && frameSequences[key] < |numbers|
               && counters == numbers[frameSequences[key] := n]
          else frameSequences == sequences[key := |numbers|] && owners == makers + [Owner(key, targetGeneration)]
               && counters == numbers + [1])
    }

    /** One frame on request. */
    method CaptureOnce(key: FrameKey, generation: nat) returns (r: Result<nat>)
      requires Valid()
      modifies this`frameSequences, this`counters, this`owners, this`published, platform`script
      ensures Valid() && (old(Covered()) ==> Covered())
      ensures r == old(NextFrame(key, generation, platform.script))
      ensures r.Ok? ==> Published(key, r.value, old(frameSequences), old(counters), old(owners), old(published))
      ensures r.Err? ==>
                && frameSequences == old(frameSequences) && counters == old(counters)
                && owners == old(owners) && published == old(published)
      ensures old(platform.script) == [] ==> platform.script == []
    {
      hide Numbered, FirstAnswer, Rest;
      QuietDevice();
      var current := RequireTargetGeneration(generation);
      if current.Err? {
        return Err(current.code);
      }
      var captured := platform.Attempt();
      if captured.Err? {
        return Err(captured.code);
      }
      r := PublishNext(key);
    }

    // ------------------------------------------------------ capture commands

    /** The attempt a capture command is for, when the ledger gives the go-ahead. */
    static ghost function CaptureGoAhead(w: Ledger.World, task: TaskCommand, profileId: string, now: int)
      : (Result<AttemptRef>, Ledger.Answer)
    {
      var held := Ledger.RequireActive(w, task);
      if held.state.Err? then (Err(held.state.code), Ledger.Answer(held.world, Err(held.state.code)))
      else if held.state.value.contract.profileId != profileId then
        (Err(Reported("profile_mismatch")), Ledger.Answer(held.world, Err(Reported("profile_mismatch"))))
      else
        var go := Ledger.Prepare(held.world, task, Ledger.Business, now);
        (if go.reply == Ok(Proceed) then Ok(held.state.value.reference) else Err(LedgerConflict), go)
    }

    /** The closing gate of the managed game refuses every target command. */
    predicate Gated()
      reads this, games
    {
      games.active.Some? && games.active.value.closing
    }

    ghost predicate MayCapture(w: Ledger.World, task: TaskCommand, profileId: string, now: int)
      reads this, games
    {
      !Gated() && binding.Some? && CaptureGoAhead(w, task, profileId, now).0.Ok?
    }

    /** The common beginning of the capture commands: either an answer, or the go-ahead. */
    method GoAheadForCapture(task: TaskCommand, profileId: string, now: int)
      returns (attempt: Result<AttemptRef>, r: Result<Reply>)
      modifies attempts, attempts.root
      ensures var g := CaptureGoAhead(old(attempts.View()), task, profileId, now);
              attempt == g.0 && Ledger.Answer(attempts.Seen(old(attempts.Works())), r) == g.1
    {
      var held := attempts.RequireActive(task);
      if held.Err? {
        return Err(held.code), Err(held.code);
      }
      if held.value.contract.profileId != profileId {
        return Err(Reported("profile_mismatch")), Err(Reported("profile_mismatch"));
      }
      r := attempts.Prepare(task, Ledger.Business, now);
      attempt := if r == Ok(Proceed) then Ok(held.value.reference) else Err(LedgerConflict);
    }

    /** What is reported of a capture start, and of a frame on request. */
    static function StartReport(started: Result<()>): Completion {
      if started.Ok? then Completion.Capture(true, None) else Completion.Capture(false, Some(started.code))
    }

    static function FrameReport(captured: Result<nat>): Completion {
      if captured.Ok? then Completion.CaptureFrame(Some(captured.value), None)
      else Completion.CaptureFrame(None, Some(captured.code))
    }

    /** What comes of starting a capture once the one before it was stopped. */
    ghost function Starting(generation: nat, script: seq<DeviceAnswer>): Result<()>
      reads this
    {
      if generation == 0 || generation != targetGeneration then Err(GenerationStale)
      else FirstAnswer(AfterStopping(capture, script))
    }

    /** The start-capture command of a task. Only with the ledger's go-ahead is anything touched; the capture that
        ran before is stopped, and unless that fails the new one is started and the ledger told what came of it, on
        disk if `works`. */
    method ExecuteStartCapture(task: TaskCommand, sourceId: string, generation: nat, profileId: string, now: int)
      returns (r: Result<Reply>, ghost works: bool)
      requires Valid()
      modifies this`capture, this`frameSequences, this`counters, this`owners, platform`script, attempts, attempts.root
      ensures Valid() && (old(Covered()) ==> Covered())
      ensures Gated() ==> r == Err(TargetClosing) && attempts.View() == old(attempts.View())
      ensures !Gated() && binding.None? ==>
                r == Err(Reported("target.not_locked")) && attempts.View() == old(attempts.View())
      ensures old(!MayCapture(attempts.View(), task, profileId, now)) ==>
                && capture == old(capture) && frameSequences == old(frameSequences) && counters == old(counters)
                && platform.script == old(platform.script)
      ensures var go := CaptureGoAhead(old(attempts.View()), task, profileId, now);
              var stopped := Stopping(old(capture), old(platform.script));
              binding.Some? && !Gated() ==>
                if go.0.Err? then Ledger.Answer(attempts.Seen(old(attempts.Works())), r) == go.1
                else if stopped.Err? then
                  capture == None && Ledger.Answer(attempts.Seen(works), r)
                                     == Ledger.Answer(go.1.world.(writable := works), Err(stopped.code))
                else
                  var started := old(Starting(generation, platform.script));
                  && Ledger.Answer(attempts.Seen(works), r)
                     == Ledger.Complete(go.1.world.(writable := works), task, StartReport(started))
                  && (if started.Ok? then Captures(sourceId, Some(go.0.value), true) else capture == None)
    {
      hide Numbered, Ledger.Complete, Ledger.Prepare, CaptureGoAhead, FirstAnswer, Rest, Captures, Opened;
      works := attempts.Works();
      if Gated() {
        return Err(TargetClosing), works;
      }
      if binding.None? {
        return Err(Reported("target.not_locked")), works;
      }
      var attempt: Result<AttemptRef>;
      attempt, r := GoAheadForCapture(task, profileId, now);
      works := attempts.Works();
      if attempt.Err? {
        return;
      }
      var started := StartForTask(sourceId, attempt.value, generation);
      if started.Err? {
        return Err(started.code), works;
      }
      r := attempts.Complete(task, started.value);
    }

    /** The device part of it: the capture before is stopped, and what comes of the new one is to be reported. */
    method StartForTask(sourceId: string, attempt: AttemptRef, generation: nat) returns (c: Result<Completion>)
      requires Valid()
      modifies this`capture, this`frameSequences, this`counters, this`owners, platform`script
      ensures Valid() && (old(Covered()) ==> Covered())
      ensures var stopped := Stopping(old(capture), old(platform.script));
              var started := old(Starting(generation, platform.script));
              && c == (if stopped.Err? then Err(stopped.code) else Ok(StartReport(started)))
              && (if c.Ok? && started.Ok? then Captures(sourceId, Some(attempt), true) else capture == None)
    {
      hide Numbered, FirstAnswer, Rest, Captures, Opened;
      var stopped := StopCapture(None);
      if stopped.Err? {
        return Err(stopped.code);
      }
      var started := StartCapture(sourceId, Some(attempt), generation);
      return Ok(Completion.Capture(started.Ok?, if started.Err? then Some(started.code) else None));
    }

    /** The capture-frame command of a task, for the client area: nothing while a capture runs. */
    method ExecuteCaptureFrame(task: TaskCommand, generation: nat, profileId: string, now: int)
      returns (r: Result<Reply>, ghost works: bool)
      requires Valid()
      modifies this`frameSequences, this`counters, this`owners, this`published, platform`script, attempts,
               attempts.root
      ensures Valid() && (old(Covered()) ==> Covered())
      ensures Gated() ==> r == Err(TargetClosing) && attempts.View() == old(attempts.View())
      ensures !Gated() && binding.None? ==>
                r == Err(Reported("target.not_locked")) && attempts.View() == old(attempts.View())
      ensures capture.Some? || old(!MayCapture(attempts.View(), task, profileId, now)) ==>
                frameSequences == old(frameSequences) && counters == old(counters) && published == old(published)
      ensures var go := CaptureGoAhead(old(attempts.View()), task, profileId, now);
              binding.Some? && !Gated() ==>
                if go.0.Err? then Ledger.Answer(attempts.Seen(old(attempts.Works())), r) == go.1
                else
                  var captured := old(TaskFrame(go.0.value, generation, platform.script));
                  && Ledger.Answer(attempts.Seen(works), r)
                     == Ledger.Complete(go.1.world.(writable := works), task, FrameReport(captured))
                  && (captured.Ok? ==>
                        && Latest(ClientKey(go.0.value)) == Some(captured.value)
                        && published == old(published)
                                        + [Frame(frameSequences[ClientKey(go.0.value)], captured.value)])
    {
      hide Numbered, Ledger.Complete, Ledger.Prepare, CaptureGoAhead, FirstAnswer, Rest;
      works := attempts.Works();
      if Gated() {
        return Err(TargetClosing), works;
      }
      if binding.None? {
        return Err(Reported("target.not_locked")), works;
      }
      var attempt: Result<AttemptRef>;
      attempt, r := GoAheadForCapture(task, profileId, now);
      works := attempts.Works();
      if attempt.Err? {
        return;
      }
      var c := CaptureForTask(attempt.value, generation);
      r := attempts.Complete(task, c);
    }

    ghost function TaskFrame(attempt: AttemptRef, generation: nat, script: seq<DeviceAnswer>): Result<nat>
      requires Valid()
      reads this
    {
      if capture.Some? then Err(Reported("capture.already_started"))
      else NextFrame(ClientKey(attempt), generation, script)
    }

    /** The device part of it. A failure lets go of the input. */
    method CaptureForTask(attempt: AttemptRef, generation: nat) returns (c: Completion)
      requires Valid()
      modifies this`frameSequences, this`counters, this`owners, this`published, platform`script
      ensures Valid() && (old(Covered()) ==> Covered())
      ensures c == FrameReport(old(TaskFrame(attempt, generation, platform.script)))
      ensures old(TaskFrame(attempt, generation, platform.script)).Ok? ==>
                var n := old(TaskFrame(attempt, generation, platform.script)).value;
                && Latest(ClientKey(attempt)) == Some(n)
                && published == old(published) + [Frame(frameSequences[ClientKey(attempt)], n)]
      ensures capture.Some? ==>
                frameSequences == old(frameSequences) && counters == old(counters) && published == old(published)
    {
      if capture.Some? {
        return Completion.CaptureFrame(None, Some(Reported("capture.already_started")));
      }
      var captured := CaptureOnce(ClientKey(attempt), generation);
      if captured.Ok? {
        return Completion.CaptureFrame(Some(captured.value), None);
      }
      var _ := platform.Attempt();
      return Completion.CaptureFrame(None, Some(captured.code));
    }

    // ------------------------------------------------------- failed captures

    /** Capture goes on under the rediscovered target, which the attempt must own, on the counter of its source. */
    method RebuildCapture(worker: CaptureWorker, target: TargetBinding) returns (rebuilt: bool)
      requires Valid() && capture.None?
      modifies this`binding, this`targetGeneration, this`capture, this`frameSequences, this`counters, this`owners,
               platform`script, attempts, attempts.root
      ensures Valid() && (old(Covered()) ==> Covered())
      ensures if rebuilt then Captures(worker.sourceId, worker.attempt, false)
              else capture == None && owners == old(owners) && counters == old(counters)
      ensures if targetGeneration == old(targetGeneration)
              then frameSequences == old(frameSequences) || rebuilt
              else old(targetGeneration) < targetGeneration && (!rebuilt ==> frameSequences == map[])
      ensures old(platform.script) == [] ==> platform.script == []
      ensures old(platform.script == [] && targetGeneration < MAX_U64 && binding.Some?) && worker.attempt.None? ==>
                rebuilt
      ensures old(binding).None? || worker.attempt.None? ==> attempts.View() == old(attempts.View())
      ensures old(binding).Some? && worker.attempt.Some? ==>
                var refreshed := Ledger.RefreshTarget(old(attempts.View()), worker.attempt.value, target);
                attempts.Seen(old(attempts.Works())) == refreshed.world && (rebuilt ==> refreshed.reply.Ok?)
    {
      hide Numbered, Ledger.RefreshTarget;
      rebuilt := false;
      if binding.None? {
        return;
      }
      if worker.attempt.Some? {
        var refreshed := attempts.RefreshOwnedTarget(worker.attempt.value, target);
        if refreshed.Err? {
          return;
        }
      }
      var bound := SetBinding(Some(target));
      if bound.Ok? {
        var started := platform.Attempt();
        if started.Ok? {
          SpawnWorker(worker.sourceId, worker.attempt, false);
          rebuilt := true;
        }
      }
    }

    /** A failed capture is stopped and marked on the active attempt. If that was recorded, the capture is rebuilt on
        the rediscovered target (the answer is true), or its counter is given up (the answer is false); giving it
        up keeps the counters complete exactly when it was not in use or the generation changed. */
    method CaptureFailure(failure: ErrorCode, rediscovered: Option<TargetBinding>) returns (r: Result<bool>)
      requires Valid() && capture.Some?
      modifies this`binding, this`targetGeneration, this`capture, this`frameSequences, this`counters, this`owners,
               platform`script, attempts, attempts.root
      ensures Valid()
      ensures var mark := FailureMark(failure, FirstAnswer(old(platform.script)));
              var marked := Ledger.Impose(old(attempts.View()), mark);
              && (r.Err? <==> marked.reply.Err?)
              && (r.Err? ==> attempts.Seen(old(attempts.Works())) == marked.world)
      ensures r.Ok? && r.value ==>
                && rediscovered.Some? && old(capture).value.rediscoverable
                && Captures(old(capture).value.sourceId, old(capture).value.attempt, false)
                && (old(Covered()) ==> Covered())
      ensures r.Ok? && r.value ==>
                var first := FirstAnswer(old(platform.script));
                Rediscovers(if first.Err? then first.code else failure)
      ensures r.Ok? && rediscovered.Some? && Rediscovers(failure)
              && old(platform.script == [] && targetGeneration < MAX_U64 && binding.Some?
                     && capture.value.rediscoverable && capture.value.attempt.None?) ==>
                r.value
      ensures r.Ok? && !r.value ==> capture == None && old(capture).value.Key() !in frameSequences
      ensures r.Err? ==>
                && capture == None && frameSequences == old(frameSequences)
                && targetGeneration == old(targetGeneration) && (old(Covered()) ==> Covered())
      ensures r.Ok? && !r.value && targetGeneration == old(targetGeneration) ==>
                frameSequences == old(frameSequences) - {old(capture).value.Key()}
      ensures r.Err? || !r.value ==> owners == old(owners) && counters == old(counters)
      ensures r.Ok? && !r.value && old(Covered()) ==>
                (Covered() <==>
                 old(capture).value.Key() !in old(frameSequences) || targetGeneration != old(targetGeneration))
      ensures r.Ok? && rediscovered.None? ==> !r.value && targetGeneration == old(targetGeneration)
      ensures old(targetGeneration) <= targetGeneration
      ensures old(platform.script) == [] ==> platform.script == []
    {
      hide Numbered, Ledger.Impose, Rediscovers, Ledger.RefreshTarget, CaptureWorker.Key, Rest, FirstAnswer;
      QuietDevice();
      var worker := capture.value;
      capture := None;
      var release := platform.Attempt();
      var _ := platform.Attempt();
      var marked := MarkFailure(FailureMark(failure, release));
      if marked.Err? {
        return Err(marked.code);
      }
      var rebuilt := RecoverCapture(worker, if release.Err? then release.code else failure, rediscovered);
      return Ok(rebuilt);
    }

    /** After the mark: the capture is rebuilt, or its counter is given up. */
    method RecoverCapture(worker: CaptureWorker, failure: ErrorCode, rediscovered: Option<TargetBinding>)
      returns (rebuilt: bool)
      requires Valid() && capture.None?
      modifies this`binding, this`targetGeneration, this`capture, this`frameSequences, this`counters, this`owners,
               platform`script, attempts, attempts.root
      ensures Valid()
      ensures rebuilt ==>
                && rediscovered.Some? && worker.rediscoverable && Rediscovers(failure)
                && Captures(worker.sourceId, worker.attempt, false) && (old(Covered()) ==> Covered())
      ensures && rediscovered.Some? && Rediscovers(failure) && worker.rediscoverable && worker.attempt.None?
              && old(platform.script == [] && targetGeneration < MAX_U64 && binding.Some?)
              ==> rebuilt
      ensures !rebuilt ==>
                && capture == None && worker.Key() !in frameSequences
                && owners == old(owners) && counters == old(counters)
                && (targetGeneration == old(targetGeneration) ==>
                      frameSequences == old(frameSequences) - {worker.Key()})
                && (old(Covered()) ==>
                      (Covered() <==>
                       worker.Key() !in old(frameSequences) || targetGeneration != old(targetGeneration)))
      ensures rediscovered.None? ==> !rebuilt && targetGeneration == old(targetGeneration)
      ensures old(targetGeneration) <= targetGeneration
      ensures old(platform.script) == [] ==> platform.script == []
    {
      hide Numbered, Rediscovers, Ledger.RefreshTarget;
      rebuilt := false;
      if worker.rediscoverable && Rediscovers(failure) && rediscovered.Some? {
        rebuilt := RebuildCapture(worker, rediscovered.value);
        if rebuilt {
          return;
        }
      }
      DropCounter(worker.Key());
    }

    method MarkFailure(mark: Move) returns (r: Result<Reply>)
      requires mark.MarkUncertain? || mark.MarkReleased?
      modifies attempts, attempts.root
      ensures Ledger.Answer(attempts.Seen(old(attempts.Works())), r) == Ledger.Impose(old(attempts.View()), mark)
    {
      if mark.MarkUncertain? {
        r := attempts.MarkActiveSideEffectUncertain(mark.code, mark.inputReleased);
      } else {
        r := attempts.MarkInputReleased(mark.code);
      }
    }

    /** Gives up the counter of a source. */
    method DropCounter(key: FrameKey)
      requires Valid()
      modifies this`frameSequences
      ensures Valid() && frameSequences == old(frameSequences) - {key}
      ensures old(Covered()) ==> (Covered() <==> key !in old(frameSequences))
    {
      frameSequences := frameSequences - {key};
    }

    // ---------------------------------------------------------------- input

    /** The key of the frames an attempt's inputs are based on. */
    static function ClientKey(reference: AttemptRef): FrameKey {
      KeyOf("client", Some(reference))
    }

    /** The latest frame of a key, as the device will look it up. */
    function Latest(key: FrameKey): Option<nat>
      requires Valid()
      reads this
    {
      if key in frameSequences then Some(counters[frameSequences[key]]) else None
    }

    /** The world once the attempt of a source frame was looked up. */
    static ghost function HeldWorld(w: Ledger.World, task: TaskCommand, frame: InputFrame): Ledger.World {
      if frame.source.Some? then Ledger.RequireActive(w, task).world else w
    }

    /** The key of the frames an input is based on, when the frame it names is the latest of them. */
    ghost function SourceKey(held: Result<AttemptState>, frame: InputFrame): Result<Option<FrameKey>>
      requires Valid()
      reads this
    {
      if frame.source.None? then Ok(None)
      else if held.Err? then Err(held.code)
      else if Latest(ClientKey(held.value.reference)).None?
              || !IsCurrent(Latest(ClientKey(held.value.reference)), frame.source) then Err(SourceFrameStale)
      else Ok(Some(ClientKey(held.value.reference)))
    }

    /** Before the go-ahead: the source frame an input names must be the latest one of its attempt. */
    method CheckSource(task: TaskCommand, frame: InputFrame) returns (r: Result<Option<FrameKey>>)
      requires Valid()
      modifies attempts
      ensures Valid()
      ensures attempts.View() == HeldWorld(old(attempts.View()), task, frame)
      ensures r == SourceKey(Ledger.RequireActive(old(attempts.View()), task).state, frame)
      ensures r.Ok? && frame.source.Some? ==>
                && ValidateTask(task).Ok? && r.value == Some(ClientKey(ValidateTask(task).value.reference))
                && r.value.value in frameSequences
    {
      hide Numbered, Ledger.RequireActive;
      if frame.source.None? {
        return Ok(None);
      }
      HeldIsNamed(attempts.View(), task);
      var active := attempts.RequireActive(task);
      if active.Err? {
        return Err(active.code);
      }
      var key := ClientKey(active.value.reference);
      if key !in frameSequences {
        return Err(SourceFrameStale);
      }
      if frame.source.value == 0 || counters[frameSequences[key]] != frame.source.value {
        return Err(SourceFrameStale);
      }
      return Ok(Some(key));
    }

    /** What comes of an input frame after the go-ahead, and what reaches the device: nothing under another generation,
        with a movement its profile does not allow, or on a frame that is not the latest one. */
    static ghost predicate DeviceAnswered(
      target: TargetBinding, generation: nat, latest: Option<nat>, frame: InputFrame, answer: DeviceAnswer,
      before: seq<AppliedInput>, result: Result<bool>, after: seq<AppliedInput>)
    {
      var refusal := if frame.generation == 0 || frame.generation != generation then Some(GenerationStale)
                     else if frame.relative && !frame.relativeAllowed then Some(FrameInvalid)
                     else if frame.source.Some? && (frame.source == Some(0) || frame.source != latest)
                     then Some(SourceFrameStale)
                     else None;
      if refusal.Some? then result == Err(refusal.value) && after == before
      else match answer
        case Refuses(code) => result == Err(code) && after == before
        case Reaches(outcome) =>
          && result == outcome
          && after == before + [AppliedInput(target, generation, frame.source, latest, outcome)]
    }

    /** After the go-ahead: the capture worker may have gone on meanwhile, the generation is checked, and the
        device checks the source frame again. */
    method ReachDevice(target: TargetBinding, key: Option<FrameKey>, frame: InputFrame, meanwhile: nat)
      returns (r: Result<bool>)
      requires Valid() && key.Some? == frame.source.Some?
      requires key.Some? ==> key.value in frameSequences
      modifies this`counters, this`published, platform
      ensures Valid() && (old(Covered()) ==> Covered())
      ensures DeviceAnswered(target, targetGeneration, if key.Some? then Latest(key.value) else None, frame,
                             NextAnswerOf(old(platform.script)), old(platform.inputs), r, platform.inputs)
      ensures capture.None? || meanwhile == 0 ==> counters == old(counters)
    {
      if capture.Some? {
        for i := 0 to meanwhile
          invariant Valid() && (old(Covered()) ==> Covered())
          invariant platform.inputs == old(platform.inputs) && platform.script == old(platform.script)
          invariant i == 0 ==> counters == old(counters)
        {
          var _ := WorkerFrame();
        }
      }
      var current := RequireTargetGeneration(frame.generation);
      if current.Err? {
        return Err(current.code);
      }
      if frame.relative && !frame.relativeAllowed {
        return Err(FrameInvalid);
      }
      var latest := if key.Some? then Some(counters[frameSequences[key.value]]) else None;
      r := platform.ApplyInputFrame(target, targetGeneration, latest, frame.source);
    }

    /** The completion that tells what came of an input frame. Six failures mean that nothing was applied; any other
        leaves it open. */
    static function Report(frame: InputFrame, result: Result<bool>): Completion {
      match result
      case Ok(holds) => Completion.InputFrame(frame.source, CommandOutcome.Applied, holds, None)
      case Err(code) =>
        Completion.InputFrame(
          frame.source,
          if || code == GuardianUnavailable || code == LocalInputDetected || code == FrameInvalid
             || code == GenerationStale || code == DeadlineExpired || code == WorkerNotApplied
          then CommandOutcome.NotApplied else CommandOutcome.Uncertain,
          false, Some(code))
    }

    /** Nothing was known of the command, the ledger gave the go-ahead for a side effect, and what came of it was
        recorded right after, on disk if `works`. */
    static ghost predicate GoneThrough(
      before: Ledger.World, task: TaskCommand, frame: InputFrame, now: int, works: bool, after: Ledger.World,
      r: Result<Reply>, result: Result<bool>)
    {
      var known := Ledger.Replay(before, task);
      && known.reply == Ok(Proceed)
      && PreparedAndCompleted(known.world, task, frame, now, works, after, r, result)
    }

    static ghost predicate PreparedAndCompleted(
      known: Ledger.World, task: TaskCommand, frame: InputFrame, now: int, works: bool, after: Ledger.World,
      r: Result<Reply>, result: Result<bool>)
    {
      var go := Ledger.Prepare(HeldWorld(known, task, frame), task, Ledger.Effect, now);
      && go.reply == Ok(Proceed)
      && Ledger.Answer(after, r) == Ledger.Complete(go.world.(writable := works), task, Report(frame, result))
    }

    /** How an input frame is answered when it does not get the device's go-ahead. */
    ghost function Refusal(w: Ledger.World, task: TaskCommand, frame: InputFrame, now: int): Option<Ledger.Answer>
      requires Valid()
      reads this, games
    {
      var known := Ledger.Replay(w, task);
      if Gated() then Some(Ledger.Answer(w, Err(TargetClosing)))
      else if known.reply != Ok(Proceed) then Some(known)
      else NewRefusal(known.world, task, frame, now)
    }

    /** The same for a command that nothing is known of. */
    ghost function NewRefusal(w: Ledger.World, task: TaskCommand, frame: InputFrame, now: int): Option<Ledger.Answer>
      requires Valid()
      reads this
    {
      var key := SourceKey(Ledger.RequireActive(w, task).state, frame);
      var held := HeldWorld(w, task, frame);
      var go := Ledger.Prepare(held, task, Ledger.Effect, now);
      if frame.relative && frame.source.None? then Some(Ledger.Answer(w, Err(FrameInvalid)))
      else if key.Err? then Some(Ledger.Answer(held, Err(key.code)))
      else if go.reply != Ok(Proceed) then Some(go)
      else None
    }

    /** The latest frame an input of this task can be based on. */
    ghost function LatestFor(task: TaskCommand, frame: InputFrame): Option<nat>
      requires Valid()
      reads this
    {
      if frame.source.Some? && ValidateTask(task).Ok? then Latest(ClientKey(ValidateTask(task).value.reference))
      else None
    }

    /** `execute_v3_input_frame`. `profileKnown` says whether the attempt's profile is installed; `result` is what came
        of the input, if it was tried. An applied command, known before or not, counts as activity of the managed
        game. */
    method ExecuteInputFrame(
      task: TaskCommand, frame: InputFrame, profileKnown: bool, now: int, instant: int, meanwhile: nat)
      returns (r: Result<Reply>, ghost works: bool, ghost result: Option<Result<bool>>)
      requires Valid()
      modifies this`counters, this`published, platform, attempts, attempts.root, games, games.directory
      ensures Valid() && (old(Covered()) ==> Covered())
      ensures result.Some? <==>
                old(Refusal(attempts.View(), task, frame, now)).None? && profileKnown && binding.Some?
      ensures result.Some? ==>
                && DeviceAnswered(binding.value, targetGeneration, LatestFor(task, frame), frame,
                                  NextAnswerOf(old(platform.script)), old(platform.inputs), result.value,
                                  platform.inputs)
                && GoneThrough(old(attempts.View()), task, frame, now, works, attempts.Seen(works), r, result.value)
      ensures result.None? ==> platform.inputs == old(platform.inputs)
      ensures old(Refusal(attempts.View(), task, frame, now)).Some? ==>
                Ledger.Answer(attempts.Seen(old(attempts.Works())), r)
                == old(Refusal(attempts.View(), task, frame, now)).value
      ensures old(Refusal(attempts.View(), task, frame, now)).None? && result.None? ==>
                LeftInFlight(Ledger.Replay(old(attempts.View()), task).world, task, frame, profileKnown, now,
                             Ledger.Answer(attempts.Seen(old(attempts.Works())), r))
      ensures games.Seen(old(games.Works())) ==
              if OutcomeApplied(r) then Games.MarkActivity(old(games.View()), instant, now) else old(games.View())
    {
      hide Numbered, Ledger.Replay, Ledger.Prepare, NewRefusal, PreparedAndCompleted;
      hide Games.MarkActivity, LeftInFlight, DeviceAnswered, NextAnswerOf, LatestFor;
      works := attempts.Works();
      result := None;
      if Gated() {
        return Err(TargetClosing), works, None;
      }
      r := attempts.Replay(task);
      if r == Ok(Proceed) {
        r, works, result := ExecuteNewInput(task, frame, profileKnown, now, meanwhile);
      }
      if OutcomeApplied(r) {
        games.MarkActivity(instant, now);
      }
    }

    /** Without an installed profile or a target the intent stays recorded and nothing is completed. */
    static ghost predicate LeftInFlight(
      known: Ledger.World, task: TaskCommand, frame: InputFrame, profileKnown: bool, now: int, a: Ledger.Answer)
    {
      var go := Ledger.Prepare(HeldWorld(known, task, frame), task, Ledger.Effect, now);
      && go.reply == Ok(Proceed)
      && a == Ledger.Answer(go.world, Err(if profileKnown then TargetInvalid else Reported("profile.not_installed")))
    }

    /** An input frame that nothing is known of. */
    method ExecuteNewInput(task: TaskCommand, frame: InputFrame, profileKnown: bool, now: int, meanwhile: nat)
      returns (r: Result<Reply>, ghost works: bool, ghost result: Option<Result<bool>>)
      requires Valid()
      modifies this`counters, this`published, platform, attempts, attempts.root
      ensures Valid() && (old(Covered()) ==> Covered())
      ensures result.Some? <==>
                old(NewRefusal(attempts.View(), task, frame, now)).None? && profileKnown && binding.Some?
      ensures result.Some? ==>
                && DeviceAnswered(binding.value, targetGeneration, LatestFor(task, frame), frame,
                                  NextAnswerOf(old(platform.script)), old(platform.inputs), result.value,
                                  platform.inputs)
                && PreparedAndCompleted(old(attempts.View()), task, frame, now, works, attempts.Seen(works), r,
                                        result.value)
      ensures result.None? ==> platform.inputs == old(platform.inputs)
      ensures old(NewRefusal(attempts.View(), task, frame, now)).Some? ==>
                Ledger.Answer(attempts.Seen(old(attempts.Works())), r)
                == old(NewRefusal(attempts.View(), task, frame, now)).value
      ensures old(NewRefusal(attempts.View(), task, frame, now)).None? && result.None? ==>
                LeftInFlight(old(attempts.View()), task, frame, profileKnown, now,
                             Ledger.Answer(attempts.Seen(old(attempts.Works())), r))
    {
      hide Numbered, Ledger.Prepare, Ledger.Complete, Ledger.RequireActive, Report, DeviceAnswered, NextAnswerOf;
      works, result := attempts.Works(), None;
      if frame.relative && frame.source.None? {
        return Err(FrameInvalid), works, None;
      }
      var source := CheckSource(task, frame);
      if source.Err? {
        return Err(source.code), works, None;
      }
      ghost var held := attempts.View();
      r := attempts.Prepare(task, Ledger.Effect, now);
      if r != Ok(Proceed) {
        return;
      }
      ProceedingIsValid(held, task, now);
      works := attempts.Works();
      r, result := ApplyPrepared(task, source.value, frame, profileKnown, meanwhile);
    }

    /** The device and the completion, after the go-ahead. */
    method ApplyPrepared(
      task: TaskCommand, key: Option<FrameKey>, frame: InputFrame, profileKnown: bool, meanwhile: nat)
      returns (r: Result<Reply>, ghost result: Option<Result<bool>>)
      requires Valid() && key.Some? == frame.source.Some?
      requires key.Some? ==> key.value in frameSequences
      modifies this`counters, this`published, platform, attempts, attempts.root
      ensures Valid() && (old(Covered()) ==> Covered())
      ensures result.Some? <==> profileKnown && binding.Some?
      ensures result.Some? ==>
                && DeviceAnswered(binding.value, targetGeneration, if key.Some? then Latest(key.value) else None, frame,
                                  NextAnswerOf(old(platform.script)), old(platform.inputs), result.value,
                                  platform.inputs)
                && Ledger.Answer(attempts.Seen(old(attempts.Works())), r)
                   == Ledger.Complete(old(attempts.View()), task, Report(frame, result.value))
      ensures result.None? ==>
                && r == Err(if profileKnown then TargetInvalid else Reported("profile.not_installed"))
                && attempts.View() == old(attempts.View()) && platform.inputs == old(platform.inputs)
    {
      hide Numbered, Ledger.Complete, NextAnswerOf, DeviceAnswered;
      if !profileKnown {
        return Err(Reported("profile.not_installed")), None;
      }
      if binding.None? {
        return Err(TargetInvalid), None;
      }
      var applied := ReachDevice(binding.value, key, frame, meanwhile);
      var error := if applied.Err? then Some(applied.code) else None;
      var holds := applied.Ok? && applied.value;
      r := attempts.Complete(task, Completion.InputFrame(frame.source, InputFrameOutcome(error), holds, error));
      result := Some(applied);
    }

    // ---------------------------------------------------------------- reset

    /** The emergency finish of a reset. It says what was let go of, and names the first failure. */
    static function EmergencyFor(release: Result<()>, stopped: Result<()>, bound: bool): Move {
      Move.Emergency(release.Ok?, stopped.Ok?, bound,
                     if release.Err? then Some(release.code) else if stopped.Err? then Some(stopped.code) else None)
    }

    /** What a reset leaves of the ledger: the attempt that still held local resources is finished, if there is one. */
    static ghost function Finishing(w: Ledger.World, release: Result<()>, stopped: Result<()>, bound: bool)
      : Ledger.Answer
    {
      var active := Ledger.IsActive(w);
      if active.reply == Ok(Flag(true)) then Ledger.Impose(active.world, EmergencyFor(release, stopped, bound))
      else active
    }

    /** Finishes the attempt that still holds local resources, if there is one. */
    method FinishActive(release: Result<()>, stopped: Result<()>) returns (r: Result<()>)
      modifies attempts, attempts.root
      ensures var finished := Finishing(old(attempts.View()), release, stopped, binding.Some?);
              && attempts.Seen(old(attempts.Works())) == finished.world
              && r == if finished.reply.Err? then Err(finished.reply.code) else Ok(())
      ensures r.Ok? && release.Ok? && stopped.Ok? ==> Rests(attempts.View())
      ensures r.Ok? ==> KeepsUncertainty(Ledger.LoadActive(old(attempts.View())).world, attempts.View())
      ensures old(CanFinish(attempts.View())) ==> r.Ok?
    {
      ghost var w := attempts.View();
      LoadIsLoaded(w);
      var active := attempts.IsActive();
      if active.Err? {
        return Err(active.code);
      }
      if active == Ok(Flag(true)) {
        var error := OrElse(if release.Err? then Some(release.code) else None,
                            if stopped.Err? then Some(stopped.code) else None);
        var running := binding.Some?;
        EmergencyLetsGo(attempts.View(), release.Ok?, stopped.Ok?, running, error);
        var finished := attempts.EmergencyFinish(release.Ok?, stopped.Ok?, running, error);
        if finished.Err? {
          return Err(finished.code);
        }
      }
      return Ok(());
    }

    /** Lets go of input and capture, finishes the active attempt, and gives up the games' occupancy. The first of
        these that fails is the answer; the occupancy stays as it is then. */
    method ResetSession() returns (r: Result<()>)
      requires Valid()
      modifies this`capture, this`frameSequences, platform`script, attempts, attempts.root, games, games.directory
      ensures Valid() && capture == None && frameSequences == map[]
      ensures var release := FirstAnswer(old(platform.script));
              var stopped := Stopping(old(capture), Rest(old(platform.script)));
              var finished := Finishing(old(attempts.View()), release, stopped, binding.Some?);
              && attempts.Seen(old(attempts.Works())) == finished.world
              && (if finished.reply.Err? then r == Err(finished.reply.code) && games.View() == old(games.View())
                  else if release.Err? then r == release && games.View() == old(games.View())
                  else if stopped.Err? then r == stopped && games.View() == old(games.View())
                  else Games.Kept(games.Seen(old(games.Works())), r) == Games.ReleaseTaskOccupancy(old(games.View())))
      ensures r.Ok? ==> Rests(attempts.View()) && !Games.AnyOccupied(games.View().store.policies)
      ensures r.Ok? ==> KeepsUncertainty(Ledger.LoadActive(old(attempts.View())).world, attempts.View())
      ensures old(AllReach(platform.script) && CanFinish(attempts.View()) && CanVacate(games.View())) ==> r.Ok?
    {
      hide Numbered, Ledger.LoadActive, Games.ReleaseTaskOccupancy, Finishing, FirstAnswer, Rest;
      hide AllReach, KeepsUncertainty, CanFinish, CanVacate, CommandExecutor.Stopping, CommandExecutor.AfterStopping;
      ReachedAnswers(platform.script, capture);
      var release := platform.Attempt();
      var stopped := StopCapture(None);
      var _ := platform.Attempt();
      frameSequences := map[];
      r := FinishActive(release, stopped);
      if r.Err? {
        return;
      }
      if release.Err? {
        return release;
      }
      if stopped.Err? {
        return stopped;
      }
      VacatingVacates(games.View());
      r := games.ReleaseTaskOccupancy();
    }

    method RuntimeStateNow() returns (r: Result<RuntimeState>)
      modifies attempts
      ensures Ledger.IsActive(old(attempts.View())).world == attempts.View()
      ensures r == match Ledger.IsActive(old(attempts.View())).reply
                   case Err(code) => Err(code)
                   case Ok(reply) =>
                     if reply == Flag(true) then Ok(if attempts.recoveredActive then RecoveryBlocked else Executing)
                     else Ok(if profileUpdateBlocked then RuntimeState.ProfileUpdateBlocked else ConnectedIdle)
    {
      var active := attempts.IsActive();
      if active.Err? {
        return Err(active.code);
      }
      if active == Ok(Flag(true)) {
        return Ok(if attempts.recoveredActive then RecoveryBlocked else Executing);
      }
      return Ok(if profileUpdateBlocked then RuntimeState.ProfileUpdateBlocked else ConnectedIdle);
    }
  }

  lemma ProceedingIsValid(w: Ledger.World, task: TaskCommand, now: int)
    ensures Ledger.Prepare(w, task, Ledger.Effect, now).reply == Ok(Proceed) ==> ValidateTask(task).Ok?
  {
  }

  lemma QuietDevice()
    ensures FirstAnswer([]) == Ok(()) && Rest([]) == []
  {
  }

  lemma HeldIsNamed(w: Ledger.World, task: TaskCommand)
    ensures var held := Ledger.RequireActive(w, task).state;
            held.Ok? ==> ValidateTask(task).Ok? && held.value.reference == ValidateTask(task).value.reference
  {
  }

  lemma ReachedAnswers(script: seq<DeviceAnswer>, running: Option<CaptureWorker>)
    ensures AllReach(script) ==>
              FirstAnswer(script).Ok? && CommandExecutor.Stopping(running, Rest(script)).Ok?
  {
  }

  /** The ledger has been read and no attempt holds local resources. */
  predicate Rests(w: Ledger.World) {
    w.loaded && (w.active.None? || w.active.value.resources.LocallyReleased())
  }

  /** The same attempt, if any, with its side effect as unresolved as it was. */
  predicate KeepsUncertainty(before: Ledger.World, after: Ledger.World) {
    if before.active.None? then after.active.None?
    else after.active.Some?
         && after.active.value.reference == before.active.value.reference
         && after.active.value.resources.Unresolved() == before.active.value.resources.Unresolved()
  }

  /** The ledger can be read and appended to. */
  predicate CanFinish(w: Ledger.World) {
    Ledger.LoadActive(w).result.Ok? && (w.durable ==> w.writable)
  }

  /** The policy file can be written. */
  predicate CanVacate(g: Games.Game) {
    g.path.Some? ==> g.writable
  }

  lemma VacatingVacates(g: Games.Game)
    ensures var kept := Games.ReleaseTaskOccupancy(g);
            && (kept.result.Ok? ==> !Games.AnyOccupied(kept.game.store.policies))
            && (CanVacate(g) ==> kept.result.Ok?)
  {
  }

  lemma LoadIsLoaded(w: Ledger.World)
    ensures var a := Ledger.LoadActive(w);
            && a.world.durable == w.durable && a.world.writable == w.writable
            && (a.result.Ok? ==>
                  && a.world.loaded
                  && Ledger.LoadActive(a.world).world == a.world && Ledger.LoadActive(a.world).result.Ok?)
  {
    if !w.loaded && w.durable {
      ScanFrame(w, w.listing);
    }
  }

  /** An emergency finish lets go of everything the device let go of and settles nothing. */
  lemma EmergencyLetsGo(w: Ledger.World, released: bool, stopped: bool, running: bool, error: Option<ErrorCode>)
    requires w.loaded && w.active.Some?
    ensures var a := Ledger.Impose(w, Move.Emergency(released, stopped, running, error));
            && (a.reply.Ok? <==> !w.durable || w.writable)
            && (a.reply.Ok? ==> KeepsUncertainty(w, a.world) && a.world.loaded)
            && (a.reply.Ok? && released && stopped ==> Rests(a.world))
  {
  }

  // ------------------------------------------------------------- main results

  ghost function OwnerOf(e: CommandExecutor, f: Frame): Owner
    requires e.Valid() && f.counter < |e.owners|
    reads e
  {
    e.owners[f.counter]
  }

  /** The frame an accepted input names was published for its attempt under the current generation. While every
      counter of this generation is in use it is the newest such frame, and no other frame ever published has the
      same attempt, generation and number. */
  lemma AcceptedFrameIsNewest(e: CommandExecutor, key: FrameKey, n: nat)
    requires e.Valid() && IsCurrent(e.Latest(key), Some(n))
    ensures key in e.frameSequences
    ensures var f := Frame(e.frameSequences[key], n);
            f in e.published && OwnerOf(e, f) == Owner(key, e.targetGeneration)
    ensures e.Covered() ==>
              forall g :: g in e.published && OwnerOf(e, g) == Owner(key, e.targetGeneration) ==>
                g.sequence < n || g == Frame(e.frameSequences[key], n)
  {
  }

  /** A frame published before the last change of the binding names another generation, which no input frame that
      reaches the device does. */
  lemma EarlierFramesAreStale(e: CommandExecutor, f: Frame, generation: nat)
    requires e.Valid() && f in e.published && OwnerOf(e, f).generation == generation
    requires generation < e.targetGeneration
    ensures forall key, n :: IsCurrent(e.Latest(key), Some(n)) ==> Frame(e.frameSequences[key], n) != f
  {
  }

  /** Some frame number of this source and generation was given to two frames. */
  ghost predicate Ambiguous(e: CommandExecutor, owner: Owner)
    requires e.Valid()
    reads e
  {
    exists f, g :: f in e.published && g in e.published && f != g && f.sequence == g.sequence
                   && OwnerOf(e, f) == owner && OwnerOf(e, g) == owner
  }

  /** Two counters made for this source and generation have both published. */
  ghost predicate TwoCounters(e: CommandExecutor, owner: Owner)
    requires e.Valid()
    reads e
  {
    exists c, d :: 0 <= c < d < |e.owners| && e.owners[c] == owner && e.owners[d] == owner
                   && e.counters[c] > 0 && e.counters[d] > 0
  }

  /** A frame number means two frames exactly when two counters of its source and generation have published; this
      does not happen in the current generation while every counter is in use. */
  lemma NumbersAreAmbiguousExactly(e: CommandExecutor, owner: Owner)
    requires e.Valid()
    ensures Ambiguous(e, owner) <==> TwoCounters(e, owner)
    ensures e.Covered() && owner.generation == e.targetGeneration ==> !Ambiguous(e, owner)
  {
    if TwoCounters(e, owner) {
      var c, d :| 0 <= c < d < |e.owners| && e.owners[c] == owner && e.owners[d] == owner
                  && e.counters[c] > 0 && e.counters[d] > 0;
      assert Frame(c, 1) in e.published && Frame(d, 1) in e.published;
      assert OwnerOf(e, Frame(c, 1)) == owner && OwnerOf(e, Frame(d, 1)) == owner;
    }
    if Ambiguous(e, owner) {
      var f, g :| f in e.published && g in e.published && f != g && f.sequence == g.sequence
                  && OwnerOf(e, f) == owner && OwnerOf(e, g) == owner;
      assert f.counter != g.counter;
      var c, d := if f.counter < g.counter then f.counter else g.counter,
                  if f.counter < g.counter then g.counter else f.counter;
      assert e.owners[c] == owner && e.owners[d] == owner && e.counters[c] > 0 && e.counters[d] > 0;
    }
  }

  /** After a failed capture the next frame on request repeats a number of the same source and generation exactly
      when the capture was not rebuilt, its counter was given up and the generation did not change. */
  method FailedCaptureRepeatsExactly(e: CommandExecutor, failure: ErrorCode, rediscovered: Option<TargetBinding>)
    returns (given: Result<bool>, n: Result<nat>)
    requires e.Valid() && e.Covered() && e.capture.Some? && e.capture.value.generation == e.targetGeneration
    requires e.counters[e.capture.value.counter] > 0
    modifies e, e.platform`script, e.attempts, e.attempts.root
    ensures e.Valid()
    ensures n.Ok? ==>
              (Ambiguous(e, Owner(old(e.capture).value.Key(), e.targetGeneration)) <==>
               given.Ok? && !given.value && e.targetGeneration == old(e.targetGeneration))
    ensures n.Ok? && given.Ok? && !given.value ==> n == Ok(1)
  {
    ghost var key, c := e.capture.value.Key(), e.capture.value.counter;
    var source := e.capture.value.Key();
    given := e.CaptureFailure(failure, rediscovered);
    n := e.CaptureOnce(source, e.targetGeneration);
    NumbersAreAmbiguousExactly(e, Owner(key, e.targetGeneration));
    if n.Ok? && given.Ok? && !given.value && e.targetGeneration == old(e.targetGeneration) {
      ghost var d := e.frameSequences[key];
      assert c < d && e.owners[c] == e.owners[d] == Owner(key, e.targetGeneration);
      assert e.counters[c] > 0 && e.counters[d] > 0;
    }
  }

  /** A new executor over a working device, without files, bound to a target. */
  method BoundExecutor(target: TargetBinding) returns (e: CommandExecutor)
    ensures fresh(e) && fresh(e.platform) && fresh(e.attempts) && e.attempts.root == null
    ensures e.Valid() && e.Covered() && e.targetGeneration == 1 && e.platform.script == [] && e.capture == None
    ensures e.frameSequences == map[] && e.counters == [] && e.owners == [] && e.published == []
    ensures e.attempts.loaded && e.attempts.active.None?
  {
    var platform := new Platform([]);
    var attempts := new TaskAttemptRuntime.Memory();
    var games := new ManagedGameLifecycle.Memory();
    e := new CommandExecutor(platform, attempts, games);
    var _ := e.SetBinding(Some(target));
  }

  /** It captures the client area and has published one frame. */
  method CapturingExecutor(target: TargetBinding) returns (e: CommandExecutor)
    ensures fresh(e) && fresh(e.platform) && fresh(e.attempts) && e.attempts.root == null
    ensures e.Valid() && e.Covered() && e.targetGeneration == 1 && e.platform.script == []
    ensures e.capture == Some(CaptureWorker("client", None, 0, 1, true))
    ensures e.frameSequences == map[ForSource("client") := 0] && e.counters == [1]
    ensures e.owners == [Owner(ForSource("client"), 1)] && e.published == [Frame(0, 1)]
    ensures e.attempts.loaded && e.attempts.active.None?
  {
    e := BoundExecutor(target);
    var started := e.StartCapture("client", None, 1);
    assert started.Ok? && KeyOf("client", None) == ForSource("client");
    assert e.frameSequences == map[ForSource("client") := 0] && e.counters == [0];
    assert e.owners == [Owner(ForSource("client"), 1)];
    assert e.capture == Some(CaptureWorker("client", None, 0, 1, true));
    var _ := e.WorkerFrame();
  }

  /** From a new executor: the first frame after a failed capture has the source, generation and number of the first
      frame before it, and an input may name it. */
  method LostCounterRepeatsNumbers(target: TargetBinding) returns (e: CommandExecutor)
    ensures fresh(e) && e.Valid() && e.targetGeneration == 1
    ensures e.published == [Frame(0, 1), Frame(1, 1)]
    ensures e.owners == [Owner(ForSource("client"), 1), Owner(ForSource("client"), 1)]
    ensures Ambiguous(e, Owner(ForSource("client"), 1)) && IsCurrent(e.Latest(ForSource("client")), Some(1))
  {
    hide Numbered, FailureMark;
    e := CapturingExecutor(target);
    var given := e.CaptureFailure(Reported("capture.no_frame_timeout"), None);
    assert given.Ok? && !given.value;
    var n := e.CaptureOnce(ForSource("client"), 1);
    NumbersAreAmbiguousExactly(e, Owner(ForSource("client"), 1));
    assert e.owners[0] == e.owners[1];
  }

  /** A session reset that succeeds leaves the runtime idle, or waiting for a profile update. */
  method ResetsToIdle(e: CommandExecutor) returns (r: Result<RuntimeState>)
    requires e.Valid()
    modifies e, e.platform`script, e.attempts, e.attempts.root, e.games, e.games.directory
    ensures old(AllReach(e.platform.script) && CanFinish(e.attempts.View()) && CanVacate(e.games.View())) ==>
              && r == Ok(if e.profileUpdateBlocked then RuntimeState.ProfileUpdateBlocked else ConnectedIdle)
              && e.capture == None && e.frameSequences == map[] && Rests(e.attempts.View())
              && !Games.AnyOccupied(e.games.View().store.policies)
  {
    var reset := e.ResetSession();
    if reset.Err? {
      return Err(reset.code);
    }
    r := e.RuntimeStateNow();
  }

  /** Each counter published the frames 1 to its value, once each and in order. */
  ghost predicate Numbered(counters: seq<nat>, published: seq<Frame>) {
    && (forall i :: 0 <= i < |published| ==>
          published[i].counter < |counters| && 1 <= published[i].sequence <= counters[published[i].counter])
    && (forall c, n :: 0 <= c < |counters| && 1 <= n <= counters[c] ==> Frame(c, n) in published)
    && (forall i, j :: 0 <= i < j < |published| && published[i].counter == published[j].counter ==>
          published[i].sequence < published[j].sequence)
  }
}
