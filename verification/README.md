# A verified model of the agent's attempt ledger and its neighbours

This project models, in Dafny, the parts of the desktop agent that must stay right across crashes, retries and
lost connections, and proves what they promise.

* **The attempt ledger** is a crash-safe journal of task commands. Each command is recorded as an intent, appended to
  the attempt's ledger, carried out by the device layer, and recorded again with its outcome. Every line carries the
  current snapshot without its command index; reading folds the index back together. `AttemptRecord` holds the
  snapshot and the changes ("moves") that can be made to it, `AttemptLedger` the API as functions of the whole world
  (directory, memory, whether the next append works), `TaskAttemptRuntime` the object with its fields and loops, proved
  equal to those functions. `LedgerMoves`, `LedgerWorlds`, `LedgerRuns` and `LedgerTheorems` build from one move over
  one call to whole runs with restarts; `LedgerReplay`, `LedgerChanges`, `LedgerValidity` and `LedgerCapacity` add
  replay, readability and capacity; `LedgerAnswers` says what every call answers and records in the words of its
  caller, `LedgerOrigins` where everything a ledger says comes from, `LedgerLosses` what failed appends can cost, and
  `LedgerExamples` shows concrete runs.
* **The executor** (`Execution`, `ExecutorRuns`) owns the target generation and the frame counters, and decides whether
  an input may reach the device. It works on the ledger and lifecycle objects, and its use of the ledger is shown to be
  a legal piece of a ledger run.
* **The managed-game lifecycle** (`ManagedGame`, `ManagedGameLifecycle`, `ManagedGameAnswers`, `ManagedGameRuns`) is a
  persisted policy per game with a closing gate, an idle deadline and a close receipt that is replayed until
  acknowledged.
* **The profile catalog** (`ProfileCatalog`, `ProfileCatalogLaws`, `ProfileCatalogChecks`, `ProfileCatalogStore`,
  `ProfileCatalogRuns`) stages a signed catalog in a generation directory and activates it by renaming a new
  `current.json` over the old one. The directory records each state it went through, so a crash between any two
  accesses, or in the middle of one, is one of those states.
* **The guardian** (`Guardian`, `GuardianMonitor`, `GuardianRuns`), **the rotating log** (`RotatingLog`) and **the
  coordinate arithmetic** (`Coordinates`) are smaller cores.

A run of the ledger is any sequence of calls under one lock, with appends that may fail, commands abandoned after their
go-ahead, and restarts in any listing order. The executor's discipline is part of a run: it completes only the command
it was just given the go-ahead for, with a completion that fits it. It goes on after a failed append, on what memory
holds. That the ledger catches up before it matters is an assumption, `LedgerRuns.KeepsUp`, and nothing in the code
ensures it: no other command is recorded over a result that is in memory only, and no attempt is claimed over one
whose release is in memory only. `LedgerMoves.ResultIsLostExactly`, `LedgerLosses.LostResultIsGrantedAgain` and
`LedgerLosses.ClaimOverUnreleasedExactly` say exactly what happens without it.

## Where the code does less than its documentation or callers might expect

Each of these is proved, with the exact condition or a concrete run.

* After a failed append the next command may lose the result for good, and its side effect is granted again after a
  restart (`LedgerMoves.ResultIsLostExactly`, `LedgerLosses.LostResultIsGrantedAgain`,
  `LedgerExamples.LostAppendGrantsTwice`); a claim over an attempt whose release was not appended stops the runtime at
  the next restart (`LedgerLosses.ClaimOverUnreleasedExactly`).
* Releasing input on an attempt that is otherwise cleaned up (a late `complete_release` or `mark_input_released`) writes
  a line that cannot be read back; after the next restart the runtime answers nothing
  (`LedgerValidity.ValidExactlyWhenAgreed`, `LedgerExamples.LateReleaseStopsTheRuntime`).
* A version-3 contract in the version-1 message is claimed but cannot be read back (`LedgerValidity.ClaimValidExactly`).
* An inspection of a command in flight with another payload digest is no conflict: the other payload is recorded as
  applied (`LedgerReplay.InspectionInFlight`, `LedgerReplay.InspectionAnswersForAnother`). `begin` with another digest
  marks the attempt only in one case of four (`LedgerReplay.BeginMarksExactly`).
* `begin` on a terminal attempt refuses even a command it has an answer for (`LedgerReplay.BeginReplays`).
* A runtime without a directory claims old attempt ids again (`LedgerExamples.MemoryClaimsAgain`).
* An input frame that is overtaken between its go-ahead and the device is completed as uncertain, although it never
  reached the device, and blocks its attempt for good (`ExecutorRuns.UncertainInputBlocksForEver`); so does one for
  which no target or profile is found after the go-ahead (`LedgerAnswers.LostSideEffectBlocksForEver`).
* A failed capture may give its frame counter up without a new generation, so frame numbers come back
  (`Execution.FailedCaptureRepeatsExactly`, `Execution.LostCounterRepeatsNumbers`).
* A policy that could not be persisted leaves the stored policy ahead of the active one, and is gone after a restart
  (`ManagedGameRuns.UnpersistedPolicyBreaksTheGate`, `ManagedGameRuns.PolicyGoesBackExactly`).
* A policy delivered for a profile that is not bound ends the watch of the active game
  (`ManagedGameAnswers.OtherDeliveryEndsTheWatch`).
* A successful close clears the closing of whichever game was in the gate (`ManagedGameRuns.ClosingIsLostExactly`,
  `ManagedGameRuns.ClosingAnotherGameOpensTheGate`).
* `close_receipt` does not say whether the receipt was written (`ManagedGameRuns.NotedReceiptSurvivesExactly`).
* A catalog store that could not read its active catalog, for which one failed access is enough, accepts an older one
  (`ProfileCatalogRuns.DowngradeExactly`, `ProfileCatalogRuns.OneFaultAllowsADowngrade`).
* After a heartbeat deadline was used up, holds committed without a new heartbeat have no deadline
  (`GuardianRuns.NoDeadlineNoRelease`).

`dfyconfig.toml` lists the whole project for the verifier.

## Model

| member | source | states |
|---|---|---|
| `AttemptRecord.ValidationIsExact` | bins/fairypam-agent/src/task_attempt.rs:1626-1648 | A task command is accepted exactly when it carries session, id, payload digest and a reference with well-formed run and attempt ids, a known contract version and a contract digest; nothing of it is lost or swapped. |
| `TaskAttempts.AttemptDirectory.AppendLine` | bins/fairypam-agent/src/task_attempt.rs:1053-1084 | An append adds exactly one line to the named ledger, making the file when it does not exist, or fails and changes nothing. |
| `TaskAttempts.LoadLast` | bins/fairypam-agent/src/task_attempt.rs:1702-1737 | The loop over all lines rebuilds the same command index as the fold, and accepts the last snapshot exactly when it is valid with that index. |
| `TaskAttempts.TaskAttemptRuntime.LoadActive` | bins/fairypam-agent/src/task_attempt.rs:1014-1051 | Reading the directory in listing order adopts the attempt that still holds local resources and stops at an unreadable ledger or a second such attempt. |
| `TaskAttempts.TaskAttemptRuntime.LoadNamed` | bins/fairypam-agent/src/task_attempt.rs:234-244 | One ledger by name: absent, readable or invalid. |
| `TaskAttempts.TaskAttemptRuntime.Begin` | bins/fairypam-agent/src/task_attempt.rs:68-162 | The checks, the claim and every refusal of `begin` and `begin_v2`, as a function of the world before. |
| `TaskAttempts.TaskAttemptRuntime.Claim` | bins/fairypam-agent/src/task_attempt.rs:78-111 | A terminal id is refused, an attempt in progress is answered from what is known, anything else is claimed anew. |
| `TaskAttempts.TaskAttemptRuntime.Inspect` | bins/fairypam-agent/src/task_attempt.rs:164-232 | A first inspection is recorded as a command, a repeated one is answered from the index, and an attempt only the ledger remembers is inspected without making it active. |
| `TaskAttempts.TaskAttemptRuntime.InspectNamed` | bins/fairypam-agent/src/task_attempt.rs:167-196 | An inspection when no attempt is active: absent, another contract, answered, in conflict, or recorded. |
| `TaskAttempts.TaskAttemptRuntime.Replay` | bins/fairypam-agent/src/task_attempt.rs:333-358 | Looks a command up without recording it; a command found in flight is settled as interrupted. |
| `TaskAttempts.TaskAttemptRuntime.InterruptLast` | bins/fairypam-agent/src/task_attempt.rs:545-575 | A command found in flight is settled as interrupted and never gets the go-ahead again; how it is settled is spelled out in `LedgerAnswers.InterruptedIsAnsweredExactly`. |
| `TaskAttempts.TaskAttemptRuntime.PayloadDigestConflict` | bins/fairypam-agent/src/task_attempt.rs:360-419 | A known id with another digest marks the attempt uncertain and says so in the reply; anything else is declined. |
| `TaskAttempts.TaskAttemptRuntime.Reject` | bins/fairypam-agent/src/task_attempt.rs:421-476 | A refused command is stored, even when it is the one in flight; as what is spelled out in `LedgerAnswers.RefusedIsAnsweredExactly`. |
| `TaskAttempts.TaskAttemptRuntime.Prepare` | bins/fairypam-agent/src/task_attempt.rs:478-505 | The go-ahead for a business, side-effecting, recovery or finishing command, each with its own capacity. |
| `TaskAttempts.TaskAttemptRuntime.PrepareInner` | bins/fairypam-agent/src/task_attempt.rs:507-623 | The cascade from stored result over conflict, mismatch, interruption, terminal, expired and uncertain attempts to the recorded intent; its answers are spelled out in `LedgerAnswers.NewIsPreparedExactly` and `InterruptedIsAnsweredExactly`. |
| `TaskAttempts.TaskAttemptRuntime.Complete` | bins/fairypam-agent/src/task_attempt.rs:625-861 | All eight completions; what each records and answers is spelled out in `LedgerAnswers.CompletionIsAnswered`. |
| `TaskAttempts.TaskAttemptRuntime.CompleteActive` | bins/fairypam-agent/src/task_attempt.rs:970-1012 | A completion must name the last command with its digest; it is stored, appended and reported, and the snapshot stays in memory when the append fails. |
| `TaskAttempts.TaskAttemptRuntime.RefreshOwnedTarget` | bins/fairypam-agent/src/task_attempt.rs:292-331 | Only the window handle of an owned target may change. |
| `TaskAttempts.TaskAttemptRuntime.EmergencyFinish` | bins/fairypam-agent/src/task_attempt.rs:863-905 | Makes the active attempt terminal without a command, on a copy that is kept only if it could be persisted. |
| `LedgerMoves.MoveKeepsSettled` | bins/fairypam-agent/src/task_attempt.rs:1354-1480 | Every change of a snapshot keeps index and last command in agreement, and stores at most one new result, under a new id and with room reserved for it. |
| `LedgerMoves.UnresolvedIsSticky` | bins/fairypam-agent/src/task_attempt.rs:907-951 | No change but the completion of a side effect resolves an unresolved one. |
| `LedgerMoves.AppendKeepsMirror` | bins/fairypam-agent/src/task_attempt.rs:1053-1084 | Appending the changed snapshot makes the folded ledger equal memory up to receipt halves, though every line is written without an index and an earlier append may have failed. |
| `LedgerMoves.ResultIsLostExactly` | bins/fairypam-agent/src/task_attempt.rs:970-1012 | A result whose append failed is on disk after the next line exactly when that line does not record another command. |
| `LedgerMoves.FoldIsTheSnapshot` | bins/fairypam-agent/src/task_attempt.rs:1702-1737 | What is read back has the snapshot's fields, the same command ids and per id the same outcome half. |
| `LedgerMoves.MoveFollows` | bins/fairypam-agent/src/task_attempt.rs:507-623 | After any change, earlier results keep their outcome, a terminal attempt stays terminal and an unresolved side effect stays so unless a side effect was just completed. |
| `LedgerWorlds.LoadKeeps` | bins/fairypam-agent/src/task_attempt.rs:1014-1051 | Reading the ledgers finds the one busy attempt or fails because one of them is unreadable; it changes memory only. |
| `LedgerWorlds.ScanSucceeds` | bins/fairypam-agent/src/task_attempt.rs:1014-1051 | A scan that succeeds read every listed ledger and adopted the only one that is not idle. |
| `LedgerWorlds.ScanConflicts` | bins/fairypam-agent/src/task_attempt.rs:1037-1046 | A conflict means two busy ledgers, or an attempt left over from a scan that failed before. |
| `LedgerWorlds.ClaimStartsALedger` | bins/fairypam-agent/src/task_attempt.rs:254-268 | A claim that passes the reuse check finds no ledger of that name and no busy ledger at all. |
| `LedgerWorlds.ExecuteKeeps` | bins/fairypam-agent/src/task_attempt.rs:970-1012 | A decision carried out on the active attempt keeps every ledger in order and memory at most one unsaved result ahead of it, as long as no other command is recorded over such a result. |
| `LedgerAnswers.NewIsPreparedExactly` | bins/fairypam-agent/src/task_attempt.rs:507-623 | A new command gets the go-ahead exactly when the attempt is live, its contract not expired, nothing unresolved, the journal below the limit of its kind and its sequence number new for its session; otherwise the first of these answers and nothing changes. The go-ahead records it in flight, a side effect with its intent. |
| `LedgerAnswers.InterruptedIsAnsweredExactly` | bins/fairypam-agent/src/task_attempt.rs:540-575 | A command in flight under the same payload is settled by a look-up or a limited `prepare` as uncertain exactly when a side effect is asked for and its intent is recorded, otherwise as not applied; a recovery or a finish goes on with it. |
| `LedgerAnswers.CrashedSideEffectIsUncertain` | bins/fairypam-agent/src/task_attempt.rs:333-358 | After the process died between the go-ahead for a side effect and its completion, the command that comes again is answered as uncertain, never as applied. |
| `LedgerAnswers.LostSideEffectBlocksForEver` | bins/fairypam-agent/src/task_attempt.rs:591-602 | A granted side effect that nobody completes, by a crash or by giving up, blocks its attempt through every later run. |
| `LedgerAnswers.CompletionIsAnswered` | bins/fairypam-agent/src/task_attempt.rs:625-861 | A completed command is stored and answered with the outcome, source frame and error the device layer reported, per kind of completion, and the input, capture, target, phase, side-effect and clean-up states that follow from the report. |
| `LedgerAnswers.UnresolvedExactlyWhenReported` | bins/fairypam-agent/src/task_attempt.rs:970-1012 | After a side effect was completed its attempt is unresolved exactly when the device layer reported it as uncertain. |
| `LedgerAnswers.UncertainReportBlocksForEver` | bins/fairypam-agent/src/task_attempt.rs:970-1012 | A side effect reported as uncertain blocks its attempt through every later run, whether or not the report could be appended. |
| `LedgerAnswers.RefusedIsAnsweredExactly` | bins/fairypam-agent/src/task_attempt.rs:421-476 | A refused command, new or in flight, is stored and answered as not applied with the reason, unless the journal is full or its sequence number used up. |
| `LedgerAnswers.InspectionIsAnsweredExactly` | bins/fairypam-agent/src/task_attempt.rs:199-231 | An inspection under a new id is stored as applied and shows the attempt as it is, unless the journal is full or its sequence number used up. |
| `LedgerAnswers.RememberedIsInspectedExactly` | bins/fairypam-agent/src/task_attempt.rs:164-196 | An inspection while no attempt is active: nothing known, unreadable, another attempt, known, known with another payload, or recorded without making the attempt active. |
| `LedgerAnswers.ConflictIsAnsweredExactly` | bins/fairypam-agent/src/task_attempt.rs:360-419 | A conflict report marks the attempt exactly when the command is known under another payload; it answers uncertain for the new payload and names the known one. |
| `LedgerAnswers.BeginAgainIsAnsweredExactly` | bins/fairypam-agent/src/task_attempt.rs:78-111 | `begin` on a live attempt: a known command is answered, another payload is a conflict, another command comes too late. |
| `LedgerAnswers.ClaimIsAnswered` | bins/fairypam-agent/src/task_attempt.rs:68-162 | What a claim accepts, and the attempt it starts, field by field; a version-1 message loses the terms of version 3. |
| `LedgerAnswers.NothingIsClaimedTwice` | bins/fairypam-agent/src/task_attempt.rs:78-162 | Under another reference than its contract nothing is claimed, nor an attempt that is terminal in memory or in its ledger. |
| `LedgerAnswers.MalformedIsRefused` | bins/fairypam-agent/src/task_attempt.rs:1626-1648 | A command that is not well formed is refused by every call before anything is read. |
| `LedgerAnswers.NothingActiveIsAnswered` | bins/fairypam-agent/src/task_attempt.rs:270-530 | While no attempt is active every call about one says so, and marks and emergency finish have nothing to do. |
| `LedgerAnswers.FailedReadIsAnswered` | bins/fairypam-agent/src/task_attempt.rs:1014-1051 | As long as the ledgers cannot be read every call that needs them answers what the reading answered. |
| `LedgerAnswers.ActivityIsAnswered` | bins/fairypam-agent/src/task_attempt.rs:246-252 | An attempt is active until it is terminal with input released, capture quiet and target known; a command names it by its whole reference. |
| `LedgerAnswers.StrangeCompletionIsRefused` | bins/fairypam-agent/src/task_attempt.rs:970-986 | Only the last command can be completed, under its own payload; a finish must name its own attempt. |
| `LedgerAnswers.BusyRefusesOthers` | bins/fairypam-agent/src/task_attempt.rs:78-111 | While an attempt holds local resources no other one is claimed. |
| `LedgerAnswers.LedgerIsReadExactly` | bins/fairypam-agent/src/task_attempt.rs:1482-1553 | What the reader demands of the last line with its rebuilt index, field by field; nothing is demanded of any other line. |
| `LedgerAnswers.MarksAreAnswered` | bins/fairypam-agent/src/task_attempt.rs:907-951 | The two marks change side effect, input, clean-up and error as they say, and neither the last command nor the index. |
| `LedgerAnswers.EmergencyIsAnswered` | bins/fairypam-agent/src/task_attempt.rs:863-905 | What an emergency finish leaves, and which error it names; nothing of it stays when it cannot be appended. |
| `LedgerAnswers.RefreshIsAnswered` | bins/fairypam-agent/src/task_attempt.rs:292-331 | A target is refreshed exactly when the attempt owns the same process, whose window alone may be another one. |
| `LedgerOrigins.EveryOutcomeHasItsCause` | bins/fairypam-agent/src/task_attempt.rs:1354-1480 | In any run every stored outcome, on disk and in memory, is what one earlier call for that very command and payload reported: a claim, an inspection, a refusal, an interruption or a completion. |
| `LedgerOrigins.AppliedMeansReported` | bins/fairypam-agent/src/task_attempt.rs:970-1012 | Nothing is ever stored as applied unless the command claimed or inspected the attempt or the device layer reported its success. |
| `LedgerOrigins.RunningMeansReported` | bins/fairypam-agent/src/task_attempt.rs:657-772 | In any run a capture counts as running only after a reported start, and input as active only after a reported lease or an applied frame that holds something. |
| `LedgerReplay.ReplayIsStable` | bins/fairypam-agent/src/task_attempt.rs:514-528 | Once an id has a stored result, replay, every kind of prepare, reject and inspect with the same digest give that outcome back and change neither memory nor ledger. |
| `LedgerReplay.BeginReplays` | bins/fairypam-agent/src/task_attempt.rs:78-111 | `begin` gives the stored receipt back exactly when the attempt is not terminal and its ledger is readable; on a terminal attempt it is refused. |
| `LedgerReplay.ChangedDigestMarks` | bins/fairypam-agent/src/task_attempt.rs:360-419 | A stored id, or the one in flight, with another digest makes the attempt uncertain with incomplete clean-up, in memory and on disk, through replay, prepare, reject and a conflict report. |
| `LedgerReplay.InspectMarksExactly` | bins/fairypam-agent/src/task_attempt.rs:199-231 | An inspection under another digest makes the attempt uncertain exactly when the id has a stored result. |
| `LedgerReplay.InspectionInFlight` | bins/fairypam-agent/src/task_attempt.rs:210-231 | While the id is in flight such an inspection is recorded as applied under its own digest, and nothing else about the attempt changes. |
| `LedgerReplay.InspectionAnswersForAnother` | bins/fairypam-agent/src/task_attempt.rs:210-231 | From then on the payload that was never carried out is answered as applied, and completing the command that was is refused. |
| `LedgerReplay.BeginMarksExactly` | bins/fairypam-agent/src/task_attempt.rs:78-111 | `begin` under another digest marks the attempt exactly when the id is stored, the attempt not terminal and its ledger readable; otherwise it is refused and changes nothing. |
| `LedgerReplay.OtherReferenceIsRefused` | bins/fairypam-agent/src/task_attempt.rs:507-528 | Under another reference replay, inspect and conflict reports are refused, while prepare and reject still answer from the index, which they consult first. |
| `LedgerRuns.ProceedMeans` | bins/fairypam-agent/src/task_attempt.rs:507-623 | A go-ahead means the command is recorded and in flight; a business or side-effecting one was new, the attempt was not terminal and nothing was unresolved. |
| `LedgerRuns.ClaimsAreNew` | bins/fairypam-agent/src/task_attempt.rs:68-162 | A claim never appends to a ledger that was there before. |
| `LedgerRuns.CompletedIsOnRecord` | bins/fairypam-agent/src/task_attempt.rs:970-1012 | A completed side effect is stored under its id; if the append fails the recorded intent stays in the ledger instead. |
| `LedgerRuns.StepKeeps` | bins/fairypam-agent/src/task_attempt.rs:68-1084 | Every step of a run (a call with or without its append failing, an abandoned command, a restart) keeps the invariant and every attempt's progress. |
| `LedgerTheorems.RunKeeps` | bins/fairypam-agent/src/task_attempt.rs:1702-1737 | Over any run no outcome on disk is lost or changed and no terminal attempt comes back to life. |
| `LedgerTheorems.SideEffectsAreGrantedAtMostOnce` | bins/fairypam-agent/src/task_attempt.rs:507-623 | Over any run with crashes and failed appends that lose no result, no side effect of an attempt gets the go-ahead twice, and each granted one stays stored or shadowed by an unresolved state, in memory and on disk. |
| `LedgerTheorems.AttemptsAreClaimedAtMostOnce` | bins/fairypam-agent/src/task_attempt.rs:254-268 | Over any run with a ledger directory no attempt id is claimed twice, in this process or a later one. |
| `LedgerTheorems.LiveWorkIsUnique` | bins/fairypam-agent/src/task_attempt.rs:1014-1051 | At most one ledger still holds local resources, and a runtime that has read them has it as its active attempt. |
| `LedgerTheorems.NoConflictAfterRestart` | bins/fairypam-agent/src/task_attempt.rs:1037-1046 | The first read after a restart never reports a ledger conflict on ledgers this code wrote. |
| `LedgerTheorems.RecoveryRefinesMemory` | bins/fairypam-agent/src/task_attempt.rs:1053-1084 | Unless the last append failed, the ledger of the active attempt folds to memory: same scalars, same ids, same outcome halves. |
| `LedgerTheorems.RecoveryTrailsMemory` | bins/fairypam-agent/src/task_attempt.rs:970-1012 | After a failed append too, memory follows what the ledger folds to, which lacks at most the result of the last command. |
| `LedgerTheorems.RestartRecoversMemory` | bins/fairypam-agent/src/task_attempt.rs:1014-1051 | A restart over readable ledgers, listed in any order, brings back the busy attempt as memory had it, or none when all are idle. |
| `LedgerTheorems.ReplayAcrossRestart` | bins/fairypam-agent/src/task_attempt.rs:333-358 | A command answered before a crash is answered with the same outcome after it. |
| `LedgerTheorems.UnresolvedSideEffectsAreSticky` | bins/fairypam-agent/src/task_attempt.rs:591-602 | Once a side effect is unresolved and not in hand, no later run resolves it or gets a business or side-effecting go-ahead on that attempt. |
| `LedgerTheorems.UnresolvedIsNeverCleanedUp` | bins/fairypam-agent/src/task_attempt.rs:810-905 | Once a side effect was left unresolved, no finish and no emergency finish of that attempt reports complete clean-up, after any later run and restart. |
| `LedgerTheorems.ChangedDigestBlocksForEver` | bins/fairypam-agent/src/task_attempt.rs:360-419 | A digest conflict on disk, through whichever call that compares digests, leaves the attempt uncertain through every later run, and only recovery commands are granted. |
| `LedgerTheorems.CallMarksExactly` | bins/fairypam-agent/src/task_attempt.rs:78-476 | Of all calls that name a command, exactly those that compare digests mark a conflict: `begin` and inspections not always, the others always. |
| `LedgerLosses.LostResultIsGrantedAgain` | bins/fairypam-agent/src/task_attempt.rs:507-623 | When another command was recorded over a result in memory only, the same side effect gets the go-ahead again after a restart exactly when that line left the attempt resolved and not terminal and the journal has room. |
| `LedgerLosses.UnknownIsGrantedExactly` | bins/fairypam-agent/src/task_attempt.rs:507-623 | A command that is not on record gets the go-ahead for its side effect exactly when the attempt is resolved, not terminal and has room. |
| `LedgerLosses.ClaimOverUnreleasedExactly` | bins/fairypam-agent/src/task_attempt.rs:254-268 | After a new attempt was claimed over a released one, the next restart finds a single attempt exactly when the release is on disk, and otherwise answers nothing. |
| `LedgerLosses.RestartIsAnsweredExactly` | bins/fairypam-agent/src/task_attempt.rs:1014-1051 | What a restart finds: a conflict exactly when two attempts hold local resources, if every ledger can be read; an invalid ledger, if one cannot be read and no two attempts hold anything. |
| `LedgerLosses.TwoBusyLedgersStopTheRuntime` | bins/fairypam-agent/src/task_attempt.rs:1037-1046 | Two ledgers that hold local resources make every read fail. |
| `LedgerChanges.CallMakes` | bins/fairypam-agent/src/task_attempt.rs:1053-1084 | Every call appends at most one line, to one ledger, and only a line its own kind of call can write. |
| `LedgerValidity.ValidExactlyWhenAgreed` | bins/fairypam-agent/src/task_attempt.rs:1482-1553 | A change of a valid snapshot gives a valid one exactly when a condition on the snapshot before holds: no input change on an attempt that is otherwise cleaned up, and an adopted target of the contract's profile. |
| `LedgerValidity.ClaimValidExactly` | bins/fairypam-agent/src/task_attempt.rs:1174-1194 | A claim can be read back exactly when a version-3 contract did not come in the version-1 message. |
| `LedgerValidity.MoveIsReadableExactly` | bins/fairypam-agent/src/task_attempt.rs:1702-1737 | One more line keeps a ledger readable exactly under that condition. |
| `LedgerValidity.CallIsReadableExactly` | bins/fairypam-agent/src/task_attempt.rs:1053-1084 | A call leaves every ledger readable exactly when the change it makes agrees. |
| `LedgerValidity.CarefulExactly` | bins/fairypam-agent/src/task_attempt.rs:784-951 | The condition can be checked before the call: on the contract for `begin`, on the active attempt for a completion or a mark. |
| `LedgerValidity.CarefulRunsReload` | bins/fairypam-agent/src/task_attempt.rs:1014-1051 | After any run of checked calls every ledger can be read back, in any listing order, without an error. |
| `LedgerValidity.UnreadableLedgerStopsEverything` | bins/fairypam-agent/src/task_attempt.rs:1014-1051 | One unreadable ledger makes every call fail from the next restart on, for every attempt, through any run and any further restart. |
| `LedgerCapacity.MoveKeepsReserve` | bins/fairypam-agent/src/task_attempt.rs:1354-1398 | Every change keeps each command kind, together with the kinds before it, within its limit. |
| `LedgerCapacity.RefusedOnlyWhenReserveIsUsed` | bins/fairypam-agent/src/task_attempt.rs:19-25 | A journal is full for a kind only when the places reserved for it and the later kinds are used up. |
| `LedgerCapacity.CapacityIsReserved` | bins/fairypam-agent/src/task_attempt.rs:1471-1479 | After any run, on disk and in memory: business results within their limit, each further kind within its own, the journal within the total. |
| `LedgerCapacity.NeverFullBelowTheLimit` | bins/fairypam-agent/src/task_attempt.rs:478-505 | `prepare` never answers that the journal is full below the limit of the command's kind. |
| `LedgerCapacity.ReserveIsGranted` | bins/fairypam-agent/src/task_attempt.rs:1354-1372 | After any run a finish is not refused for capacity while fewer than four finishes are stored, nor a release while fewer than four releases and finishes are. |
| `LedgerExamples.MarkBringsDown` | bins/fairypam-agent/src/task_attempt.rs:933-951 | Marking the input released on an attempt that is otherwise cleaned up, then restarting, leaves a runtime that answers nothing. |
| `LedgerExamples.LateReleaseStopsTheRuntime` | bins/fairypam-agent/src/task_attempt.rs:933-951 | A concrete run from the empty directory that does so: begin, finish, lease expiry, restart. |
| `LedgerExamples.LostAppendGrantsTwice` | bins/fairypam-agent/src/task_attempt.rs:1053-1084 | A concrete run on which the assumption about failed appends fails: a pulse whose result was not appended, another command, a restart, and the pulse is granted again. |
| `LedgerExamples.ReceiptsMayBeNewerAfterRestart` | bins/fairypam-agent/src/task_attempt.rs:907-931 | A mark after a settled command makes the receipt read back newer than the one in memory, with the same outcome. |
| `LedgerExamples.MemoryClaimsAgain` | bins/fairypam-agent/src/task_attempt.rs:49-56 | Without a directory every id but the active one can be claimed, claimed before or not. |
| `Execution.CommandExecutor.SetBinding` | bins/fairypam-agent/src/execution.rs:714-723 | A new binding raises the generation by one, drops every frame counter and leaves all earlier frames with a lower generation; the same binding changes nothing; an exhausted generation is an error. |
| `Execution.CommandExecutor.RequireTargetGeneration` | bins/fairypam-agent/src/execution.rs:725-734 | Only the current generation, and never zero, is accepted. |
| `Execution.CommandExecutor.PublishFrame` | bins/fairypam-agent/src/execution.rs:162-174 | Frames of a counter are numbered one by one until the counter is exhausted. |
| `Execution.CommandExecutor.OpenCounter` | bins/fairypam-agent/src/execution.rs:1942-1948 | A source keeps its counter, or gets a new one that starts at zero. |
| `Execution.CommandExecutor.StopCapture` | bins/fairypam-agent/src/execution.rs:2278-2291 | Capture is gone whether or not its worker stops cleanly, unless another source was named. |
| `Execution.CommandExecutor.StartCapture` | bins/fairypam-agent/src/execution.rs:1803-1860 | The device part of a capture start: the capture before it stopped, the current generation, the device; the first of these that fails is the answer. It runs on the counter of its source. |
| `Execution.CommandExecutor.ExecuteStartCapture` | bins/fairypam-agent/src/execution.rs:1765-1868 | A capture of a task starts only with the ledger's go-ahead and not while its game is closing; unless the capture before it cannot be stopped, the ledger is told just what came of it. |
| `Execution.CommandExecutor.WorkerFrame` | bins/fairypam-agent/src/execution.rs:2664-2675 | A worker numbers its frames on the counter it was started with. |
| `Execution.CommandExecutor.CaptureOnce` | bins/fairypam-agent/src/execution.rs:1904-1955 | The device part of a frame on request: the next number of its source, or the first of generation, device and used-up counter that stands in the way. |
| `Execution.CommandExecutor.ExecuteCaptureFrame` | bins/fairypam-agent/src/execution.rs:1871-2025 | A frame on request is captured only with the ledger's go-ahead and while no capture runs; the ledger is told its number, the newest of its attempt, or what stood in the way. |
| `Execution.CommandExecutor.CaptureFailure` | bins/fairypam-agent/src/execution.rs:2293-2357 | A failed capture is stopped and marked on the active attempt as the failure demands; then, for failures and captures that allow it, it is rebuilt, or its counter is given up. That keeps the counters complete exactly when it was not in use or the generation changed. |
| `Execution.CommandExecutor.RecoverCapture` | bins/fairypam-agent/src/execution.rs:2328-2348 | After the mark the capture is rebuilt exactly for failures and workers that allow it, if the rebuild works; otherwise its counter is given up. |
| `Execution.RediscoversExactly` | bins/fairypam-agent/src/execution.rs:2328-2334 | The three failures after which the target is looked for again. |
| `Execution.CommandExecutor.RebuildCapture` | bins/fairypam-agent/src/execution.rs:2398-2436 | Capture goes on under the rediscovered target, which the attempt must own, with a new generation if it differs, on the counter of its source. |
| `Execution.Platform.ApplyInputFrame` | bins/fairypam-agent/src/execution.rs:79-89 | The device refuses an input whose frame is not the latest; what it did with any other is recorded. |
| `Execution.CommandExecutor.CheckSource` | bins/fairypam-agent/src/execution.rs:1110-1127 | Before the go-ahead a named source frame must be the latest of the attempt. |
| `Execution.CommandExecutor.ReachDevice` | bins/fairypam-agent/src/execution.rs:1148-1170 | Whatever the capture worker published meanwhile, an input reaches the device exactly under the current generation, with an allowed movement and on the frame that is the latest then; otherwise the failed check is the result. |
| `Execution.CommandExecutor.ApplyPrepared` | bins/fairypam-agent/src/execution.rs:1131-1179 | After the go-ahead the completion reports just what came of the input: applied and held if it worked, not applied for six failures, uncertain for any other. |
| `Execution.CommandExecutor.ExecuteInputFrame` | bins/fairypam-agent/src/execution.rs:1087-1192 | An input reaches the device at most once per call, on the current target, generation and frame, only after the ledger's go-ahead. What came of it, at the device or in the checks before it, is what the completion reports, on disk or, if that append fails, in memory. A known command is answered without the device, the closing gate refuses everything, without a target or profile the intent stays recorded, and an applied command counts as activity of the game. |
| `Execution.CommandExecutor.ResetSession` | bins/fairypam-agent/src/execution.rs:2524-2544 | A reset leaves no capture and no counter, finishes an attempt that still held resources with what was let go of, and answers with the first failure; when it succeeds no attempt holds resources, no policy is occupied and recorded uncertainty is unchanged; it succeeds whenever device, ledger and policy file work. |
| `Execution.CommandExecutor.RuntimeStateNow` | bins/fairypam-agent/src/execution.rs:1340-1351 | The runtime state follows from the active attempt, its recovery and the update block. |
| `Execution.AcceptedFrameIsNewest` | bins/fairypam-agent/src/execution.rs:79-89 | The frame an accepted input names was published for that attempt under the current generation, and is the newest and only one of its number while every counter is in use. |
| `Execution.EarlierFramesAreStale` | bins/fairypam-agent/src/execution.rs:714-734 | No frame of an earlier generation is the one an accepted input stands on. |
| `Execution.NumbersAreAmbiguousExactly` | bins/fairypam-agent/src/execution.rs:162-174 | A frame number of a source and generation means two frames exactly when two of its counters have published; never in the current generation while every counter is in use. |
| `Execution.FailedCaptureRepeatsExactly` | bins/fairypam-agent/src/execution.rs:2293-2357 | After a failed capture the next frame on request repeats a number of the same source and generation exactly when its counter was given up, capture was not rebuilt and the generation did not change. |
| `Execution.LostCounterRepeatsNumbers` | bins/fairypam-agent/src/execution.rs:2348 | From a new executor: bind a target, start a capture, publish, fail; the next frame is number one again. |
| `Execution.EmergencyLetsGo` | bins/fairypam-agent/src/task_attempt.rs:863-905 | An emergency finish lets go of what the device let go of, settles nothing, and fails only with the append. |
| `Execution.ResetsToIdle` | bins/fairypam-agent/src/execution.rs:1340-1351 | After a reset with working device, ledger and policy file the runtime is idle, or waiting for a profile update. |
| `ExecutorRuns.InputIsOneGrant` | bins/fairypam-agent/src/execution.rs:1087-1192 | An input that reached the device is a legal piece of a ledger run in which exactly this side effect was granted, for the first time, whether or not the append of its completion works. |
| `ExecutorRuns.InputIsReported` | bins/fairypam-agent/src/execution.rs:1171-1179 | What the caller is told of an input and what the attempt knows of it is what came of it: applied exactly if it worked, held exactly if it holds, not applied exactly for six failures, unresolved for any other. |
| `ExecutorRuns.UncertainInputBlocksForEver` | bins/fairypam-agent/src/execution.rs:2573-2586 | An input with any other failure blocks its attempt for good, a frame overtaken between go-ahead and device included. |
| `ExecutorRuns.FailureIsMarkedExactly` | bins/fairypam-agent/src/execution.rs:2310-2325 | A failed capture leaves its attempt uncertain exactly when the worker failed or input could not be let go of. |
| `ManagedGames.PolicyDirectory.Replace` | bins/fairypam-agent/src/managed_game.rs:506-524 | The file of one agent is replaced as a whole or not at all. |
| `ManagedGames.ManagedGameLifecycle.Persistent` | bins/fairypam-agent/src/managed_game.rs:112-130 | Each agent has a file of its own; a file written for another agent, or unreadable, counts as absent; a pending receipt is offered again. |
| `ManagedGames.ManagedGameLifecycle.VacatePolicies` | bins/fairypam-agent/src/managed_game.rs:154-156 | The loop over the stored policies makes every one of them vacant and changes nothing else. |
| `ManagedGames.ManagedGameLifecycle.ReleaseTaskOccupancy` | bins/fairypam-agent/src/managed_game.rs:145-167 | Every policy becomes vacant and is persisted, or nothing changes. |
| `ManagedGames.ManagedGameLifecycle.BindTarget` | bins/fairypam-agent/src/managed_game.rs:169-191 | The policy of the profile becomes active when exactly one game has it. |
| `ManagedGames.ManagedGameLifecycle.Configure` | bins/fairypam-agent/src/managed_game.rs:193-256 | Every refusal and effect of a delivered policy, in order; spelled out in `ManagedGameAnswers.PolicyIsAnsweredExactly`. |
| `ManagedGameRuns.StepWritesExactly` | bins/fairypam-agent/src/managed_game.rs:145-524 | Which steps write: the whole store of their own agent, exactly when there is something to write and the write works. |
| `ManagedGameRuns.FileAfter` | bins/fairypam-agent/src/managed_game.rs:506-524 | What a restart as an agent would find after a step: all that this agent knows, or what was there. |
| `ManagedGameRuns.StartsAreSane` | bins/fairypam-agent/src/managed_game.rs:99-130 | A lifecycle without a file, and one that opens an empty directory, start with the gate in order. |
| `ManagedGameRuns.GateHolds` | bins/fairypam-agent/src/managed_game.rs:169-256 | In every run whose policies reach the disk the active policy is the stored one and its flags are those of the stored closing, through restarts and whatever else fails. |
| `ManagedGameRuns.UnpersistedPolicyBreaksTheGate` | bins/fairypam-agent/src/managed_game.rs:237-240 | A policy that could not be persisted breaks this exactly when it is for the active game. |
| `ManagedGameRuns.GateRefusesOthers` | bins/fairypam-agent/src/managed_game.rs:201-209 | While a closing is stored no other identity is configured and nothing changes. |
| `ManagedGameRuns.ClosingIsClearedByClose` | bins/fairypam-agent/src/managed_game.rs:321-430 | Within a process the stored closing goes exactly with a successful close of the active game. |
| `ManagedGameRuns.ClosingIsLostExactly` | bins/fairypam-agent/src/managed_game.rs:491-500 | A successful close opens the gate of a game that is still stored exactly when another one than the closed game was in the gate; with distinct identities, exactly when the active game was not. |
| `ManagedGameRuns.ClosingAnotherGameOpensTheGate` | bins/fairypam-agent/src/managed_game.rs:321-430 | A concrete run from the empty directory that does so: two games, the first closing, a restart, the second bound and closed. |
| `ManagedGameRuns.BeginCloseShuts` | bins/fairypam-agent/src/managed_game.rs:365-381 | A close that was begun shuts the gate, in memory and on disk. |
| `ManagedGameRuns.ClosingStays` | bins/fairypam-agent/src/managed_game.rs:365-381 | As long as the agent closes no game, a closing on disk stays there and in memory through any run, whatever writes fail, over restarts and other agents, and the lifecycle does not count as released. |
| `ManagedGameRuns.ActivityStartsAFullPeriod` | bins/fairypam-agent/src/managed_game.rs:258-280 | After activity the game is due exactly one full period later; an occupied or closing game never is. |
| `ManagedGameRuns.PoliciesOnlyAdvance` | bins/fairypam-agent/src/managed_game.rs:193-256 | While a game is not closed its policy stays, its version never goes down, and at one version only occupancy changes, to vacant; in every run whose delivered policies reach the disk, whatever else fails. |
| `ManagedGameRuns.PolicyGoesBackExactly` | bins/fairypam-agent/src/managed_game.rs:234-255 | A delivered policy goes back to the stored one at the next restart exactly when its write failed. |
| `ManagedGameRuns.SequenceNeverDecreases` | bins/fairypam-agent/src/managed_game.rs:502-504 | The status sequence on disk never goes back and memory is never behind it, whatever writes fail. |
| `ManagedGameRuns.ReceiptGoesOnlyByAck` | bins/fairypam-agent/src/managed_game.rs:432-476 | Within a process a pending receipt goes exactly by its acknowledgement or a newer close. |
| `ManagedGameRuns.ReceiptSurvives` | bins/fairypam-agent/src/managed_game.rs:432-476 | A receipt on disk that is neither acknowledged nor replaced survives any run, whatever writes fail, and is offered again after each reconnection and restart. |
| `ManagedGameRuns.NotedReceiptSurvivesExactly` | bins/fairypam-agent/src/managed_game.rs:321-363 | A newly noted receipt survives the next restart exactly when its own write or a later one of the process worked. |
| `ManagedGameRuns.ReceiptIsOfferedOnce` | bins/fairypam-agent/src/managed_game.rs:432-448 | A receipt is offered once per connection, whatever else happens on it, and again on the next one. |
| `ManagedGameRuns.UnpersistedAckComesBack` | bins/fairypam-agent/src/managed_game.rs:450-476 | A receipt whose acknowledgement could not be persisted comes back after a restart. |
| `ManagedGameRuns.OccupancyIsReleased` | bins/fairypam-agent/src/managed_game.rs:145-167 | After success nothing is occupied in memory or on disk and the close evidence is untouched; after failure nothing changed and a retry can succeed. |
| `ManagedGameRuns.EventIdsAreExact` | bins/fairypam-agent/src/managed_game.rs:527-537 | For one game session and version an event id stands for exactly one trigger, result, time and error text. |
| `ManagedGameAnswers.StartsAreAnswered` | bins/fairypam-agent/src/managed_game.rs:99-130 | What a lifecycle knows when it starts: nothing without a file, what was written for its own agent with one. |
| `ManagedGameAnswers.PolicyIsAnsweredExactly` | bins/fairypam-agent/src/managed_game.rs:193-256 | A delivered policy is refused for the first reason that applies (identity, timeout, closing, stale, conflict) and changes nothing; a known one at most watches its game again; any other is stored and, once written, watched exactly when its profile is bound. |
| `ManagedGameAnswers.NewPolicyIsStoredExactly` | bins/fairypam-agent/src/managed_game.rs:539-565 | With no closing stored, a policy of a new game is stored exactly when its three ids are not empty, its version is positive, and its timeout is 300000 to 86400000 if enabled and 0 if not. |
| `ManagedGameAnswers.DeliveryStartsAFullPeriod` | bins/fairypam-agent/src/managed_game.rs:234-255 | A written policy for the bound profile is the watched one, due exactly one full timeout later if enabled, vacant and not in the gate. |
| `ManagedGameAnswers.OtherDeliveryEndsTheWatch` | bins/fairypam-agent/src/managed_game.rs:238-255 | A new policy for a profile that is not bound ends the watch of the active game as soon as it is written. |
| `ManagedGameAnswers.DueExactly` | bins/fairypam-agent/src/managed_game.rs:271-280 | A game is due exactly when it is enabled, vacant, neither closing nor failed to close, and its timeout has passed since its last activity. |
| `ManagedGameAnswers.NoGameIsClosedEarly` | bins/fairypam-agent/src/managed_game.rs:539-565 | In every run without a file or from an empty directory no game is due before five minutes of inactivity. |
| `ManagedGameAnswers.TimeoutsStayInRange` | bins/fairypam-agent/src/managed_game.rs:539-565 | In every run every policy, stored, active or on disk, stays complete and its timeout in range. |
| `ManagedGameAnswers.CloseIsAnswered` | bins/fairypam-agent/src/managed_game.rs:321-363 | What a close notes, reports and leaves: a failed one a shut gate, any other no policy, no binding and no closing; without an active game nothing. |
| `ManagedGameAnswers.ManualClosesAreAnswered` | bins/fairypam-agent/src/managed_game.rs:383-430 | The same for the two closes by hand, which leave a pending receipt as it was. |
| `ManagedGameAnswers.BeginIsAnswered` | bins/fairypam-agent/src/managed_game.rs:365-381 | A close that begins shuts the gate and says whether that was written. |
| `ManagedGameAnswers.AcknowledgedExactly` | bins/fairypam-agent/src/managed_game.rs:450-476 | A receipt is acknowledged by its own event id, session and version and by nothing else. |
| `ManagedGameAnswers.EventIdIsSpelledOut` | bins/fairypam-agent/src/managed_game.rs:527-537 | How an event id is spelled. |
| `ManagedGameAnswers.ReleasedExactly` | bins/fairypam-agent/src/managed_game.rs:132-143 | The lifecycle is released exactly when nothing of a game is left, in a file that could be read. |
| `ManagedGameAnswers.BindingWatchesExactly` | bins/fairypam-agent/src/managed_game.rs:169-191 | Binding a target watches the game of its profile exactly when there is one and no second one. |
| `ProfileCatalogs.ProfileCatalogStore.ValidateCatalog` | bins/fairypam-agent/src/profile_catalog.rs:208-341 | The loops over profiles and files find the same first error, or the same candidate, as the checks stated one by one; what passes them is spelled out in `ProfileCatalogChecks.CatalogIsAcceptedExactly`. |
| `ProfileCatalogs.ProfileCatalogStore.CheckDelivered` | bins/fairypam-agent/src/profile_catalog.rs:239-285 | One delivered profile: size, signature, identity and files. |
| `ProfileCatalogs.ProfileCatalogStore.CheckSuppliedFiles` | bins/fairypam-agent/src/profile_catalog.rs:263-279 | The files of one profile, each against its declaration, within the size of the whole catalog; accepted as `ProfileCatalogChecks.FilesAreAcceptedExactly` spells out. |
| `ProfileCatalogs.ProfileCatalogStore.CheckAllDelivered` | bins/fairypam-agent/src/profile_catalog.rs:228-292 | The loop over the delivered profiles stops at the first error or collects every file and every verified profile. |
| `ProfileCatalogs.ProfileCatalogStore.CheckVersions` | bins/fairypam-agent/src/profile_catalog.rs:302-319 | Every entry against the active catalog. |
| `ProfileCatalogs.ProfileCatalogStore.Open` | bins/fairypam-agent/src/profile_catalog.rs:66-78 | An unreadable catalog counts as absent; cleaning up afterwards never disturbs the one that was read. |
| `ProfileCatalogs.ProfileCatalogStore.CleanupInactive` | bins/fairypam-agent/src/profile_catalog.rs:179-205 | Only the active generation is left; without an active catalog nothing is removed while there is a `current.json`; at every moment that file still loads the active catalog. |
| `ProfileCatalogs.ProfileCatalogStore.RemoveTemps` | bins/fairypam-agent/src/profile_catalog.rs:187-193 | Left-over temporary files go, one after the other, and nothing else changes. |
| `ProfileCatalogs.ProfileCatalogStore.RemoveGenerations` | bins/fairypam-agent/src/profile_catalog.rs:197-203 | Every generation but the active one goes, one after the other. |
| `ProfileCatalogs.ProfileCatalogStore.EmptyGeneration` | bins/fairypam-agent/src/profile_catalog.rs:112-118 | What an earlier attempt left under the name is removed first. |
| `ProfileCatalogs.ProfileCatalogStore.WriteGeneration` | bins/fairypam-agent/src/profile_catalog.rs:119-132 | On success the generation holds every file and the manifest; each access touches this generation only. |
| `ProfileCatalogs.ProfileCatalogStore.StageCandidate` | bins/fairypam-agent/src/profile_catalog.rs:112-141 | A candidate becomes pending exactly as it was validated; without faults exactly when its files do not collide and its manifest fits. |
| `ProfileCatalogs.ProfileCatalogStore.Stage` | bins/fairypam-agent/src/profile_catalog.rs:93-142 | Every answer of `stage`; through every intermediate state, failures and left-overs included, `current.json` still loads the active catalog and a pending catalog stays complete. |
| `ProfileCatalogs.ProfileCatalogStore.Activate` | bins/fairypam-agent/src/profile_catalog.rs:144-177 | Through every intermediate state `current.json` loads the old catalog or the new one, complete; on failure nothing is activated. |
| `ProfileCatalogs.ProfileCatalogStore.SwitchToPending` | bins/fairypam-agent/src/profile_catalog.rs:151-166 | The switch is one rename: before it `current.json` loads the old catalog, after it the new one. |
| `ProfileCatalogLaws.StagedLoadsBack` | bins/fairypam-agent/src/profile_catalog.rs:369-419 | A staged generation loads back exactly the validated manifest, profiles and files, unless its manifest is too long to be read. |
| `ProfileCatalogLaws.ValidatedUpgrades` | bins/fairypam-agent/src/profile_catalog.rs:293-320 | A newer catalog that passes validation loses no profile, lowers no version and changes no content at an equal version. |
| `ProfileCatalogLaws.ProfilesAreDelivered` | bins/fairypam-agent/src/profile_catalog.rs:239-292 | The profile map holds, for each delivered id and no other, the profile verified from what was delivered under it. |
| `ProfileCatalogLaws.OrderedIsDistinct` | bins/fairypam-agent/src/profile_catalog.rs:232-238 | Profiles in strictly ascending order are distinct. |
| `ProfileCatalogLaws.NamesAreInjective` | bins/fairypam-agent/src/profile_catalog.rs:428-430 | Version and digest can be read off a generation name. |
| `ProfileCatalogLaws.LoadActiveReadsOneGeneration` | bins/fairypam-agent/src/profile_catalog.rs:344-367 | Loading follows `current.json` and reads that one generation. |
| `ProfileCatalogs.CurrentLoadsPending` | bins/fairypam-agent/src/profile_catalog.rs:144-177 | Once `current.json` names the pending generation it loads the pending catalog. |
| `ProfileCatalogRuns.CatalogOnlyAdvances` | bins/fairypam-agent/src/profile_catalog.rs:93-205 | Over any run of stagings, activations and restarts from any intermediate state, the active catalog stays or is upgraded. |
| `ProfileCatalogRuns.VersionsIdentifyCatalogs` | bins/fairypam-agent/src/profile_catalog.rs:216-223 | In a run the catalog version identifies the active catalog. |
| `ProfileCatalogRuns.DowngradeExactly` | bins/fairypam-agent/src/profile_catalog.rs:93-177 | With nothing pending, staging and activating a valid older catalog goes through exactly in a store that could not read the active one; any other store refuses it and leaves the directory alone. |
| `ProfileCatalogRuns.OneFaultAllowsADowngrade` | bins/fairypam-agent/src/profile_catalog.rs:66-78 | One access that breaks while the store is opened is enough: an older catalog then replaces the newer one exactly when it broke. |
| `ProfileCatalogRuns.ReopenAfterCrash` | bins/fairypam-agent/src/profile_catalog.rs:66-78 | Opening any state a crash may leave gives a good store again. |
| `ProfileCatalogChecks.CatalogIsAcceptedExactly` | bins/fairypam-agent/src/profile_catalog.rs:208-341 | A catalog is accepted exactly when it is well formed, not older, in order, everything in it signed, delivered under its own name, with just the declared files and content of the declared hashes, not too large, named by its digest, and no active profile lost or going back; and it is recorded as it is. |
| `ProfileCatalogChecks.RefusedCatalogIsToldWhy` | bins/fairypam-agent/src/profile_catalog.rs:208-341 | Which refusal answers: schema, version, order, a lost profile, the digest. |
| `ProfileCatalogChecks.FilesAreAcceptedExactly` | bins/fairypam-agent/src/profile_catalog.rs:263-279 | The files of a profile pass exactly when each has the declared path and hash, content of that hash, and its size, and all fit together. |
| `ProfileCatalogChecks.ProfileIsAcceptedExactly` | bins/fairypam-agent/src/profile_catalog.rs:239-285 | A profile passes exactly when its signature holds, it is delivered under its own id, version and digest, and its files are those it declares. |
| `ProfileCatalogChecks.ActiveFilesAreGenuine` | bins/fairypam-agent/src/profile_catalog.rs:344-419 | Whatever is loaded as active has, for every profile, the signed document and every declared file with content of the declared hash. |
| `ProfileCatalogChecks.RunFilesAreGenuine` | bins/fairypam-agent/src/profile_catalog.rs:93-205 | So it is at every point of a run of stagings, activations and restarts. |
| `GuardianMonitors.GuardianMonitor.RegisterIntent` | bins/fairypam-agent-guardian/src/monitor.rs:65-82 | An intent needs a registered agent, a new sequence number and distinct actions, and waits for no other. |
| `GuardianMonitors.GuardianMonitor.CommitHolds` | bins/fairypam-agent-guardian/src/monitor.rs:84-95 | The pending holds replace the committed ones under their own sequence number only. |
| `GuardianMonitors.GuardianMonitor.CollectHolds` | bins/fairypam-agent-guardian/src/monitor.rs:135-148 | The two loops collect exactly the committed and the pending holds, the pending ones winning. |
| `GuardianMonitors.GuardianMonitor.ReleaseAll` | bins/fairypam-agent-guardian/src/monitor.rs:126-133 | The driver is asked for exactly those holds; they are forgotten only when it succeeds. |
| `GuardianMonitors.GuardianMonitor.Tick` | bins/fairypam-agent-guardian/src/monitor.rs:108-124 | The driver is asked exactly when the agent is gone or the deadline has passed; a failure changes nothing. |
| `GuardianRuns.CountingFindsDuplicates` | bins/fairypam-agent-guardian/src/monitor.rs:76-79 | Comparing the number of distinct action ids with the number of holds finds duplicates exactly. |
| `GuardianRuns.ReleasesExactlyTheHolds` | bins/fairypam-agent-guardian/src/monitor.rs:135-148 | A hold is in the list to release exactly when it is pending, or committed and not replaced. |
| `GuardianRuns.StepAccountsForHolds` | bins/fairypam-agent-guardian/src/monitor.rs:65-133 | What every step takes up and lets go of. |
| `GuardianRuns.HoldsAreNeverForgotten` | bins/fairypam-agent-guardian/src/monitor.rs:65-148 | A hold stays in the list through any run until a release works or a commit leaves it out. |
| `GuardianRuns.CommitsAreInOrder` | bins/fairypam-agent-guardian/src/monitor.rs:84-95 | Every accepted commit raises the last sequence number. |
| `GuardianRuns.FailedReleasesAreRetried` | bins/fairypam-agent-guardian/src/monitor.rs:108-133 | While the driver fails nothing changes, so the first tick that works releases everything. |
| `GuardianRuns.NoDeadlineNoRelease` | bins/fairypam-agent-guardian/src/monitor.rs:97-124 | Once the deadline has been used up, ticks release nothing for a living agent until its next heartbeat. |
| `GuardianRuns.HeartbeatHoldsOffExactly` | bins/fairypam-agent-guardian/src/monitor.rs:97-124 | A heartbeat that is not behind the last commit holds the release off for one timeout and not longer, whatever is registered or committed meanwhile; one that is behind changes nothing. |
| `GuardianRuns.StartsValid` | bins/fairypam-agent-guardian/src/monitor.rs:27-39 | A new monitor starts the runs of these results, and every run keeps its sequence numbers in order. |
| `GuardianRuns.TickIsAnsweredExactly` | bins/fairypam-agent-guardian/src/monitor.rs:108-133 | A tick with a dead agent lets everything go and deregisters it; one after the deadline lets everything go and drops the deadline; any other, and one whose driver fails, changes nothing. |
| `GuardianRuns.RegistrationIsAnsweredExactly` | bins/fairypam-agent-guardian/src/monitor.rs:41-63 | Who can register, and the first deadline. |
| `GuardianRuns.RequestsAreAnsweredExactly` | bins/fairypam-agent-guardian/src/monitor.rs:65-106 | What an intent, a commit and a heartbeat are answered, for the first reason that applies. |
| `GuardianRuns.DeadAgentMakesRoom` | bins/fairypam-agent-guardian/src/monitor.rs:108-124 | After a dead agent was let go the next one can register, holds nothing, and has one timeout until its first heartbeat. |
| `GuardianRuns.NextAgentContinuesTheSequence` | bins/fairypam-agent-guardian/src/monitor.rs:65-82 | An agent registered after another one exited is held to the sequence numbers of the first. |
| `RotatingLog.FixedLog.RotateIfNeeded` | bins/fairypam-agent/src/observability.rs:173-195 | Wherever rotation breaks off, what is left is still the end of the history within the limits; it succeeds when file operations do. |
| `RotatingLog.FixedLog.MoveBack` | bins/fairypam-agent/src/observability.rs:186-192 | One file moved one place back keeps the end of the history, whether removal and renaming work or not. |
| `RotatingLog.FixedLog.Append` | bins/fairypam-agent/src/observability.rs:49-74 | The three files, oldest to newest, are always the end of everything logged, each within the limit for lines that fit; a line is logged or its failure reported. |
| `RotatingLog.FixedLog.ReadRecords` | bins/fairypam-agent/src/observability.rs:76-118 | All parsable records, oldest file first. |
| `RotatingLog.FixedLog.Tail` | bins/fairypam-agent/src/observability.rs:76-120 | The newest records of the requested level, newest first: no more than were asked for and only logged ones; a beginning of the tail of the whole history, and equal to it when it is as long as was asked for. |
| `RotatingLog.TakeNewest` | bins/fairypam-agent/src/observability.rs:273-287 | Going back over the records finds the newest wanted ones in reverse order. |
| `RotatingLog.TailRefinesHistory` | bins/fairypam-agent/src/observability.rs:273-287 | The tail of an end of the history is a beginning of the tail of the history. |
| `RotatingLog.LimitsAreExact` | bins/fairypam-agent/src/observability.rs:173-195 | The limits are those of three files of 256 kilobytes, read oldest first. |
| `RotatingLog.LevelsAreNested` | bins/fairypam-agent/src/observability.rs:535-545 | Errors are in every tail, warnings in those of warnings and information, information in its own. |
| `RotatingLog.NewestIsComplete` | bins/fairypam-agent/src/observability.rs:273-287 | Unless more was logged than asked for, every record of the level or above is in the tail. |
| `Coordinates.PpmCoordinate` | bins/fairypam-win32-worker/src/generic_controller.rs:116-125 | An accepted ratio gives a pixel of the client area; it is accepted exactly when it is at most one, the area is not empty and the pixel fits the result type. |
| `Coordinates.Scaled` | bins/fairypam-win32-worker/src/generic_controller.rs:123 | The 64-bit intermediate value never overflows. |
| `Coordinates.EndsAreExact` | bins/fairypam-win32-worker/src/generic_controller.rs:116-125 | Ratio zero is the first pixel of every area; ratio one is accepted exactly when the last pixel fits the result type, and is that pixel. |
| `Coordinates.SmallExtentsAreAccepted` | bins/fairypam-win32-worker/src/generic_controller.rs:116-125 | Every ratio up to one is accepted on every area whose pixels fit the result type. |
| `Coordinates.CoordinatesAreMonotone` | bins/fairypam-win32-worker/src/generic_controller.rs:116-125 | A larger ratio never gives a smaller pixel. |
| `Coordinates.WithinHalfAPixel` | bins/fairypam-win32-worker/src/generic_controller.rs:116-125 | The pixel is within half a pixel of the true ratio, and the exact half goes up. |
| `Coordinates.EveryPixelIsReachable` | bins/fairypam-win32-worker/src/generic_controller.rs:116-125 | In an area of up to a million pixels every pixel has a ratio that selects it. |
| `Coordinates.BindOptionalClientPoint` | bins/fairypam-win32-worker/src/generic_controller.rs:90-114 | A point needs both ratios and a source frame, and lies in the client area; nothing at all is accepted as no point. |
| `Coordinates.PointIsBoundExactly` | bins/fairypam-win32-worker/src/generic_controller.rs:90-114 | A point is bound exactly when both ratios and a captured frame are given and valid, and each coordinate is the pixel nearest to its own ratio of its own extent. |
| `Coordinates.NotchesAddUp` | bins/fairypam-win32-worker/src/generic_controller.rs:127-132 | The wheel notches add up to the delta exactly for multiples of one notch, and to it without its remainder otherwise. |

## Left out

- SideEffectsAreGrantedAtMostOnce: for the runs that meet `LedgerRuns.KeepsUp`, as are the other results on whole runs; without it the property is false of the code, by the condition of `LedgerLosses.LostResultIsGrantedAgain`.
- Torn or partial appends to a ledger, read faults while loading one, and the bound on the length of one record: an append happens as a whole or fails.
- JSON, protobuf, SHA-256 and signatures: contracts carry a flag `sealed` for the checks on text fixed at signing, file contents are documents, and the catalog's `Format` holds the verifier, hashes, version order and manifest size as parameters. Enum values out of range cannot be written down.
- `AttemptState` is a value here: the source takes it out of `active`, changes it and puts it back, so nothing else refers to it meanwhile.
- `begin` and `begin_v2` are one method with a flag; the eight `complete_*` methods are one method over a datatype of completions.
- Capture threads: a worker's frames arrive at the one point in `ReachDevice` where the lock discipline lets them matter, between go-ahead and device check; starting the thread never fails; packets, regions, encodings, back-pressure and the shared-memory ring are not modelled.
- Frame counters are shared by reference; here they are positions in one sequence of counters.
- The executor's other commands (pulse, lease, launch, realtime programs, local commands, stopping a capture, closing a target) and the activity marks after them: they follow the same order of replay, go-ahead, device and completion. Captures without a task have no ledger calls.
- The name of an agent's policy file is a SHA-256 of the agent id; two agents are taken to have two files.
- `SourceFrameMap`, `SourceFrameWindow`, the log's `snapshot` and the idle status message: bounded queues and pure formatting.
- Wall-clock time and `Instant`: integers passed in.
- Error message texts, log wording and redaction; codes are kept where they decide what happens next.
- The order in which the guardian lists holds: a map by action stands for the sorted list.
- Directories between a profile's folder and its files, and two files of one profile of which one is a folder of the other; a profile's file is keyed by profile id and path components.
- The guardian's health messages and status reply, and process handles beyond being non-zero.
- Win32, WinHTTP and named-pipe calls, installers, enrollment, tray and registry scans, sessions, telemetry and timers.
