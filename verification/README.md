# TokenFuzz orchestration: a verified model

TokenFuzz runs several audit agents beside one another and lets small protocols
decide when their results may be judged, which slot launches again, who may
rebuild a shared tree, and what a benchmark run counts.  This project models
those protocols and proves what they guarantee, over every run and every
interleaving.  `dafny verify dfyconfig.toml` checks all of it.

Where the source updates an object step by step, the model has a class with the
same fields and methods, each proved against a function on values; what the
source promises is then proved of those functions and of transition systems
built from them.

## The parts

**Sealed gate.**  Slots run chains of sessions that write findings and crash
bundles; a worker judges an artifact only once it is sealed.  `GateRules` holds
the worker's records (clock, chain ticks, first-seen ticks, touches), its
operations and the seal rule; `SealedGate` is the worker itself, with its sweep
and its wake; `GateHold` is the batch hold over many sweeps.  `GateProtocol` puts
the gate among sessions that write, end and are collected, the tree, and a copy
of the gate's records kept in real time; its theorems say what a seal means for
who may still be writing.  `GateReopening` is about crash bundles reopened between
looks, and `GateHearsay` about the gate without one of its hypotheses.
`SealedLook` says of the lists the worker returns what the protocol says of seals.

**Schedulers.**  `PoolRules`, `PoolRuns`, `PoolTermination` and `AgentPool` are
the cohort pool: its coupling with the gate, its allowances, and a bound on its
rounds.  `ContinuousRules` and `ContinuousLoop` are the loop without a barrier.
`SchedulerRuns` ties both to the gate protocol: every run of either, with the
sessions writing and ending and the gate's thread looking at any moment in
between, is a run of `GateProtocol`, so what holds in every reached state of the
protocol holds at every moment of either scheduler.

**Expansion lane.**  `ClusterLane` is the single-worker hand-off queue among the
threads that hand over, run and call back; `ClusterExpansion` is one pass over
the crashes on disk and all passes of one process.

**Build lease and source pins.**  `LeaseRules` has many processes over the
kernel's lock table, with death at any moment; `BuildLease` is the lease code of
one process, with its polling loop.  `PinRules` is the claim of a checkout as a
system of processes, down to single file operations inside the registry lock;
`PinAgreement` says when claims agree and when a claim goes through;
`SourcePins` is the scan and publication as code, and `PinClaims` shows that code
to be the process's own steps in the system.

**Readers and scanners.**  `LogPolling` reads a growing log by offsets;
`VoteScanner` finds a vote object in prose; `SymbolDecoder` decodes
length-prefixed identifiers.

**Benchmark oracle and ledger.**  `GroundTruth`, `ManifestCheck` and `Scoring`
are the manifest, its validator, attribution and the score; `Ledger` is the
one-section-per-run text file.

**Log trees.**  `LogTree` clears a directory tree under partial failure.

`Common` and `Whitespace` hold shared vocabulary.

## Hypotheses

- An artifact name is never reused once it has left the tree, and file reads of
  the gate succeed.
- A finding is written only by the chain that filed it, its sessions' transcripts
  name it, and no other session names it before the session that filed it ended.
  `GateHearsay` says exactly what happens without the last: the gate records
  touches only when a session ends.
- A log only grows between polls; what one line is worth depends on that line.
- Pins can be read and written by every process that claims, pid files name live
  processes apart, and signatures hold no carriage return.

## Where the code and its words part

The model follows the code.  Each of these is stated with the condition under
which the promise does hold.

- A bundle held again is meant never to re-seal on the older tick.  Reopened and
  completed again between two looks of the gate it keeps its first tick
  (`GateReopening.UnseenReopeningReseals`); a tick goes exactly when a look finds
  the bundle open, and a sealed crash was last completed before its owner's chain
  exactly when it was complete as the chain began and nothing reopened it since
  (`GateReopening.SealAndLatestCompletion`).
- The lane's hand-off is meant to lose nothing; a queued crash marked by someone else
  leaves without joining a batch (`ClusterLane.MissingExactlyWhenDropped`), and
  a completion whose report raises leaves the batch that follows it unwatched
  (`ClusterLane.FollowerIsLostExactly`, `ClusterLane.AFollowerIsLost`).
- `hold_shared` says no code path can drop its lease early; taken inside a scoped
  lease on the same tree it is dropped with that scope
  (`LeaseRules.HeldForLifeExactlyWhenNoScopeOwnsIt`).
- Live pins are meant to agree; the guard turns away only the empty signature,
  and a signature of blanks disputes nothing (`PinAgreement.LivePinsAgreeUnlessBlank`).
- The manifest validator treats bugs pinned to different files as distinct, while
  the matcher never looks at the file, and a crash site can carry two names
  (`GroundTruth.PinnedBugsAreConfused`, `GroundTruth.TwoNamesAreConfused`); it also
  strips what it reads, and scorer and matcher do not
  (`Scoring.DenominatorIsWholeExactlyWhenKindsAreBare`,
  `Scoring.DetectableExactlyWhenSpeltBare`, `Scoring.TrapFiresExactlyWhenSpeltBare`,
  and `Scoring.SymbolSpelledWithABlank` and its neighbours for manifests).
- Replacing a ledger section leaves the others unchanged but for blank lines at
  the end of the last of them (`Ledger.OthersUnchangedExactly`).
- A scan that rejects an object passes over every vote inside it
  (`VoteScanner.NestedVoteIsMissed`).
- A directory that cannot be listed hides the `.gitkeep` inside it from the
  reported flag (`LogTree.FlagIsTrueExactlyWhenInSight`), and an entry that
  vanishes first is neither removed nor left (`LogTree.ClearingConserves` counts it).
  A directory that vanishes before it is listed counts as one that cannot be
  listed: the residue still shows its entries, though they may be gone already.

## Model

| member | source | states |
|---|---|---|
| SealedGate.SealedGateWorker.Attribute | lib/audit_runner.py:3767-3775 | Every artifact the transcript names gets the slot's touch at the current tick, and no other record of the worker changes |
| SealedGate.SealedGateWorker.StampAll | lib/audit_runner.py:3777-3790 | A complete artifact keeps its first tick, a new one gets the clock, an unfinished one loses its tick |
| SealedGate.SealedGateWorker.Observe | lib/audit_runner.py:3792-3797 | One look at the tree stamps it and changes nothing else |
| SealedGate.SealedGateWorker.Launch | lib/audit_runner.py:3799-3803 | A fresh chain takes a fresh tick; a continuation of a chain in flight keeps its start |
| SealedGate.SealedGateWorker.Retire | lib/audit_runner.py:3805-3807 | Only the slot's chain is forgotten |
| SealedGate.SealedGateWorker.Sealed | lib/audit_runner.py:3873-3932 | The findings and crashes returned, in listing order, are exactly the complete ones the seal rule covers, crashes quiet for 300 seconds besides; the totals count the whole listing; the quiet clock is the shortest wait of an open complete crash |
| SealedGate.Threshold | lib/audit_runner.py:3879 | The threshold is the oldest tick in flight, or one past the clock |
| SealedGate.AllTouchersDone | lib/audit_runner.py:3886-3891 | True exactly when every recorded touch is by a slot without a chain or with a younger one |
| SealedGate.Verdict | lib/audit_runner.py:3912-3928 | The per-artifact decision agrees with the seal rule, with quiet as an extra route for crashes only |
| SealedGate.Judge | lib/audit_runner.py:3902-3932 | The loop over a snapshot computes the four results of `sealed` for the whole listing |
| SealedGate.SealedGateWorker.NoteAll | lib/audit_runner.py:3951-3952 | Each waiting finding keeps the time it was first noted |
| SealedGate.SealedGateWorker.HoldUnreviewed | lib/audit_runner.py:3934-3961 | Holds all unreviewed findings or none, under the three release conditions, and arms the hold clock with the oldest of them |
| SealedGate.SealedGateWorker.Sweep | lib/audit_runner.py:3963-3977 | What goes to the gates and what is held; nothing when nothing is sealed or the wall has passed; every held finding expires no later than its own hold |
| SealedGate.SealedGateWorker.NextWake | lib/audit_runner.py:3849-3854 | The wake is the earliest of the hold clock, the quiet clock and one quiet span |
| SealedGate.SweepThenSleep | lib/audit_runner.py:3841-3857 | After a sweep that holds, the worker wakes no later than any held finding's release, and no later than any open crash turns quiet |
| SealedLook.SealedInAReachedState | lib/audit_runner.py:3873-3932 | In every state the scheduler and its sessions can reach, no finding that `sealed` returns can be written by a session in flight, and a crash it returns is quiet or was first complete, since a look last found it open, before its owner's chain |
| SealedLook.SealedWhenDrained | lib/audit_runner.py:3879-3932 | With no chain in flight the lists returned are exactly the complete artifacts of the listing, in order |
| GateRules.EveryRunIsWellTicked | lib/audit_runner.py:3767-3807 | Over every sequence of operations chain ticks stay distinct, and stamps and touches never run ahead of the clock |
| GateRules.SealIsStable | lib/audit_runner.py:3767-3807 | Once sealed by chains and touches, an artifact stays sealed through any launches, continuations, retirements and looks, unless it is named or found unfinished |
| GateRules.NamingUnsealsExactly | lib/audit_runner.py:3767-3775 | After a naming the artifact is sealed if and only if the namer has no chain, no earlier touch is live, and a crash still predates its owner's chain |
| GateRules.DrainedGateSealsTheComplete | lib/audit_runner.py:3879-3930 | With no chain in flight a look seals exactly the complete artifacts |
| GateRules.ObservedCrashOutlivesItsOwnersRelaunch | lib/audit_runner.py:4149-4168 | After observe and a fresh relaunch of its owner, a complete crash is sealed if and only if no other chain in flight has a recorded touch |
| GateRules.ContinuationKeepsTheSealClosed | lib/audit_runner.py:3799-3803 | After a continuation of its owner a crash is sealed if and only if it predates the continued chain and no touch is live |
| GateRules.OperationsKeepOrder | lib/audit_runner.py:3767-3807 | The logical clock and real time decide every comparison the same way, step by step |
| GateRules.SameOrderSealsTheSame | lib/audit_runner.py:3879-3930 | The seal depends only on the order of events |
| GateRules.NextQuietIsTheLeast | lib/audit_runner.py:3893-3901 | The next quiet wait is the least over all open complete crashes, and there is one exactly when such a crash is listed |
| GateRules.ThresholdDecides | lib/audit_runner.py:3879-3921 | Comparing with the threshold is comparing with every chain in flight |
| GateRules.HandedOverExactly | lib/audit_runner.py:3902-3932 | What a look hands over, artifact by artifact: complete and covered by the seal rule, or for a crash unwritten for 300 seconds |
| GateHold.NotedIsFirstWait | lib/audit_runner.py:3951-3952 | Over any run of passes the recorded time is that of the first pass in which the finding waited |
| GateHold.HeldExactly | lib/audit_runner.py:3942-3961 | A finding waits if and only if it is unreviewed, fewer than four are, none of them was noted 180 seconds ago, and the wall is further off than that |
| GateHold.HoldIsBounded | lib/audit_runner.py:3953-3961 | What a pass holds is smaller than one trigger batch, was first seen waiting less than the hold ago, and lies further than the hold from the wall |
| GateHold.ReleasedByAgeStaysReleased | lib/audit_runner.py:3955-3957 | A finding released by age empties every later hold while it waits |
| GateProtocol.EveryRunKeepsInv | lib/audit_runner.py:3767-3932 | The protocol invariant holds over every interleaving of writing, ending, collecting, naming, looking, launching and retiring |
| GateProtocol.ChainsAreTheSlotsInFlight | lib/audit_runner.py:4117-4164 | In every reachable state the gate's chains are the slots in flight with distinct ticks, and no stamp exceeds the clock |
| GateProtocol.ClockIsExact | lib/audit_runner.py:3799-3803 | The gate seals exactly what it would seal had it recorded the real time of every event |
| GateProtocol.SealedCrashPredatesItsOwnersChain | lib/audit_runner.py:3922-3928 | A crash sealed by chains was first complete, since a look last found it open, before its owner's chain in flight began; one without an owner, before every chain |
| GateProtocol.FoundOpenStaysOpenForTheChain | lib/audit_runner.py:3781-3786 | A crash a look found unfinished during its owner's chain is not sealed by that route while the chain lasts |
| GateProtocol.SealedFindingIsBehindEveryChain | lib/audit_runner.py:3911-3921 | A sealed finding nobody named was complete before every chain in flight; a named one has no chain in flight holding an ended namer |
| GateProtocol.LiveAuthorKeepsAFindingOpen | lib/audit_runner.py:3911-3921 | While the chain that filed a finding is in flight the finding is not sealed |
| GateProtocol.SealedFindingHasNoLiveWriter | lib/audit_runner.py:3660-3690 | A sealed finding's filing chain is over and no session in flight can write it |
| GateReopening.TickSurvivesExactlyUnlessFoundOpen | lib/audit_runner.py:3777-3790 | Over every run a first-seen tick survives if and only if no look in it finds the artifact unfinished |
| GateReopening.CompletionSurvivesExactlyUnlessReopened | lib/audit_runner.py:3782-3784 | Over every run an artifact stands complete throughout if and only if no step reopens it, seen or unseen |
| GateReopening.SealAndLatestCompletion | lib/audit_runner.py:3777-3928 | In every reached state a complete crash is sealed if and only if it was stamped before its owner's chain began, no look since found it unfinished and no touch is live; its latest completion is older than the chain if and only if it was complete as the chain began and nothing reopened it since |
| GateReopening.SealOfAnUnownedCrash | lib/audit_runner.py:3921-3926 | A crash that names no owner is sealed if and only if no touch is live and, for every chain in flight, it was stamped before the chain began and not found unfinished since |
| GateReopening.CompletedExactly | lib/audit_runner.py:3777-3790 | Against any chain in flight the latest completion is older if and only if the artifact was complete as the chain began and nothing reopened it since |
| GateReopening.UnseenReopeningReseals | lib/audit_runner.py:3782-3784 | The run in which a bundle reopened and completed again between two looks seals on the old tick under its running owner |
| GateHearsay.LiveFindingSealsExactlyOnHearsay | lib/audit_runner.py:3767-3775 | Without the naming hypothesis a finding seals under its author if and only if an ended session named it and every chain on record as naming it is over |
| GateHearsay.AReaderThatEndsFirstSealsALiveFinding | lib/audit_runner.py:3767-3775 | Such a run: a reader that ends and retires first seals a finding its author, still running, may write |
| AgentPool.Pooler.LaunchCohort | lib/audit_runner.py:4117-4130 | One initial session per agent, each with a fresh chain |
| AgentPool.Pooler.RefillFinishedSlots | lib/audit_runner.py:4172-4265 | The loop over finished slots spends allowances and launches exactly as the refill rule says, reading what is in flight once |
| AgentPool.Pooler.RefillSlot | lib/audit_runner.py:4186-4265 | One finished slot spends an allowance and launches exactly as the refill rule says |
| AgentPool.Pooler.Round | lib/audit_runner.py:4131-4168 | One turn of the loop is the round of the rules, and keeps the gate coupled with the futures |
| AgentPool.Pooler.PopDone | lib/audit_runner.py:4137-4148 | The done futures leave, and a halting report from any of them stops the pool |
| AgentPool.Pooler.NameWriters | lib/audit_runner.py:4152-4153 | Every finished session's names are recorded, in order |
| AgentPool.Pooler.RetireFinished | lib/audit_runner.py:4162-4164 | Exactly the finished slots that did not launch again retire |
| PoolRuns.CohortStartsCoupled | lib/audit_runner.py:4117-4130 | Launching any cohort couples chains and futures, one session per slot |
| PoolRuns.RoundKeepsCoupled | lib/audit_runner.py:4131-4168 | At every loop head the gate's chains are exactly the slots with a session in flight, one each |
| PoolRuns.EveryRunIsCoupled | lib/audit_runner.py:4131-4168 | The same over every run of rounds |
| PoolRuns.EveryRunIsAccounted | lib/audit_runner.py:4172-4265 | Over every run each allowance spent is one logged launch, and nothing launches once halted |
| PoolRuns.ReuseOfASlot | lib/audit_runner.py:3413-3425 | A capped session goes on in its chain, a clean one with work left is followed by a fresh chain, any other exit but that of the time limit is retried once in the same chain, and nothing else launches |
| PoolRuns.WhenARoundRefills | lib/audit_runner.py:4131-4168 | A round refills nothing at the barrier, after a halt or with refills off; otherwise every finished slot is decided on what was in flight as it began |
| PoolRuns.WhoHaltsTheProvider | lib/audit_runner.py:4142-4148 | Capacity, transient and rejection reports stop the provider, and no others do |
| PoolRuns.DrainedCohortLaunchesEachSlotOnce | lib/audit_runner.py:4187-4203 | Once no initial session is in flight each slot launches at most once more, and under cohort-era only beside a cohort-era session |
| PoolRuns.FailedSlotsAreRetriedOnce | lib/audit_runner.py:4234-4251 | Over a run no slot has two launches behind an uncapped exit whose code is neither 0 nor 124 |
| PoolRuns.HaltStopsLaunches | lib/audit_runner.py:4142-4161 | From the round that reports a provider halt on, nothing launches |
| PoolRuns.EveryPoolRun | lib/audit_runner.py:4117-4168 | From the launch of any cohort every run is coupled and accounted for |
| PoolTermination.RoundLosesWeight | lib/audit_runner.py:4131-4168 | Every round lowers a measure of epoch left and sessions older than now, whatever sessions report |
| PoolTermination.RunIsBounded | lib/audit_runner.py:4131-4168 | No run of the pool is longer than its epoch times one more than its slots, plus its slots |
| ContinuousLoop.Looper.WantsLaunch | lib/audit_runner.py:4454-4499 | The decision is the relaunch rule, and an allowance is spent exactly when it is used |
| ContinuousLoop.Looper.Finish | lib/audit_runner.py:4566-4574 | Each finished slot relaunches or idles as the rule says, in order |
| ContinuousLoop.Looper.AskIdle | lib/audit_runner.py:4562-4565 | The idle slots are asked in order and leave the idle set exactly when they launch |
| ContinuousLoop.Looper.Steer | lib/audit_runner.py:4537-4565 | A due tick resets the clean counts, and either stalls or looks again and asks the idle slots |
| ContinuousLoop.Looper.Turn | lib/audit_runner.py:4509-4579 | One turn of the loop is the turn of the rules; it keeps the coupling and conserves the slots |
| ContinuousRules.TurnKeepsSteady | lib/audit_runner.py:4509-4577 | Chains are the slots in flight, idle slots are not among them, and the slots in flight or idle stay the same set for ever |
| ContinuousRules.ReuseOfAFinishedSlot | lib/audit_runner.py:4454-4499 | What becomes of each finished slot from its return code, cap and work: the same chain, a fresh one at most twice between ticks, one retry, or idle |
| ContinuousRules.ReuseOfAnIdleSlot | lib/audit_runner.py:4454-4478 | An idle slot with work launches a fresh chain unless a halt, a stall or the ceiling forbids it, and nothing else changes |
| ContinuousRules.WhatATickDoes | lib/audit_runner.py:4537-4565 | A due tick does nothing after a halt or at the ceiling; otherwise it resets the clean counts and either stalls or looks and launches exactly the idle slots with work |
| ContinuousRules.TurnRetriesOnceAndHonoursHalts | lib/audit_runner.py:4458-4478 | A failed slot is retried once per run; a halt or a stall stops every later launch |
| ContinuousRules.EveryRunIsSteady | lib/audit_runner.py:4509-4577 | The same over every run of turns |
| ContinuousRules.LoopStartsSteady | lib/audit_runner.py:4501-4508 | The loop is entered with one session for each slot that wanted one, coupled with its gate, and no slot idle |
| SchedulerRuns.FittingOpsRun | lib/audit_runner.py:4149-4164 | Operations in attribute, look, launch, retire order run in the protocol under every weaving with writing and ending sessions and with looks of the gate thread |
| SchedulerRuns.RoundFits | lib/audit_runner.py:4149-4164 | A round of the cohort scheduler is such a sequence and does to the gate exactly what the round says |
| SchedulerRuns.TurnFits | lib/audit_runner.py:4529-4577 | So is a turn of the continuous scheduler, idle launches included |
| SchedulerRuns.CohortStartsAProtocolRun | lib/audit_runner.py:4117-4130 | Launching a cohort over a fresh tree, sessions and gate thread at work meanwhile, is a protocol run that leaves the world ready for the first round |
| SchedulerRuns.EveryPoolRunIsAProtocolRun | lib/audit_runner.py:4131-4168 | Every run of the cohort scheduler, woven with its sessions and the gate thread's looks in any way, is a run of the protocol and keeps its invariant; clock, chains and touches are the scheduler's |
| SchedulerRuns.EveryLoopRunIsAProtocolRun | lib/audit_runner.py:4509-4577 | The same for every run of the continuous scheduler from any state between turns |
| SchedulerRuns.EveryPoolMomentIsReached | lib/audit_runner.py:4129-4168 | Every moment of every run of the pool, from its first launch on, is a state the protocol reaches, so each theorem on reached states holds of it |
| SchedulerRuns.EveryLoopMomentIsReached | lib/audit_runner.py:4501-4579 | And every moment of every run of the continuous scheduler, from the launches that precede its loop |
| ClusterLane.ClusterExpansionLane.Schedule | lib/audit_runner.py:3505-3529 | The hand-off queues what is new and unmarked, starts at most one batch and answers the word for what it did |
| ClusterLane.ClusterExpansionLane.StartLocked | lib/audit_runner.py:3531-3544 | The unmarked backlog becomes the batch and the backlog is emptied |
| ClusterLane.ClusterExpansionLane.Done | lib/audit_runner.py:3551-3590 | A completion retires its own batch and, in time, starts the next in the same step |
| ClusterLane.EveryRunKeepsInv | lib/audit_runner.py:3505-3590 | The lane invariant holds over every interleaving of hand-offs, registrations, markers, runs and callbacks |
| ClusterLane.OneExpansionAtATime | lib/audit_runner.py:3523-3544 | At most one batch is not retired; backlog and batch are disjoint and free of repeats |
| ClusterLane.HandOffsAreKept | lib/audit_runner.py:3514-3519 | Every crash handed over unmarked is queued, running, in a finished batch, or marked; MissingExactlyWhenDropped says when it is only marked |
| ClusterLane.MissingExactlyWhenDropped | lib/audit_runner.py:3531-3544 | Over every run a crash handed over unmarked is in no batch and not queued if and only if some start of a batch met it queued and marked before it had been in any |
| ClusterLane.AQueuedCrashIsLost | lib/audit_runner.py:3531-3537 | The run that loses one: queued behind a running batch, marked, and left out by the next start |
| ClusterLane.DrainMissesNothing | lib/audit_runner.py:3592-3604 | If no batch runs and the last completion was in time, nothing is queued and everything handed over ran or is marked |
| ClusterLane.RunningBatchCanRetire | lib/audit_runner.py:3546-3590 | Unless a report raised, a running batch can always move on to its retirement |
| ClusterLane.FollowerIsLostExactly | lib/audit_runner.py:3559-3590 | A follower goes unwatched if and only if the report raises, in time, with an unmarked crash queued |
| ClusterLane.LostFollowerWedgesTheLane | lib/audit_runner.py:3588-3604 | After that the lane stays busy for ever and a drain does not return |
| ClusterLane.AFollowerIsLost | lib/audit_runner.py:3559-3590 | The run that loses a follower, after which the lane stays busy over every continuation |
| ClusterLane.StartingDropsExactlyTheMarked | lib/audit_runner.py:3532-3539 | Of the queued crashes exactly the ones marked meanwhile leave without joining a batch |
| ClusterExpansion.Expander.Group | lib/audit_runner.py:2506-2527 | Leaders stand for themselves in listing order, siblings ride on the leader of their state, and exactly the crashes of expanded states are marked |
| ClusterExpansion.Expander.Place | lib/audit_runner.py:2509-2526 | One candidate is passed over, rides on the crash that stands for its state, or stands for itself |
| ClusterExpansion.Expander.Settle | lib/audit_runner.py:2556-2579 | Exactly the crashes whose decision returned, and their riders, are marked; each decision is counted as returned or not |
| ClusterExpansion.Expander.Expand | lib/audit_runner.py:2484-2580 | What one pass sends, which crashes end up marked, in both directions, and its counts: the leaders decided in it, and the others |
| ClusterExpansion.LeadersStandAlone | lib/audit_runner.py:2506-2527 | No two leaders share a known state and none is listed twice |
| ClusterExpansion.PassSendsEachStateOnce | lib/audit_runner.py:2484-2544 | A pass sends at most one crash of each known state, none of a state already expanded, none marked and none sent before |
| ClusterExpansion.EveryCandidateIsAccountedFor | lib/audit_runner.py:2506-2544 | Every candidate is sent, was sent before, has an expanded state, or rides on a candidate that is one of these |
| ClusterExpansion.MarkExplained | lib/audit_runner.py:2506-2579 | A crash gets its marker if and only if a marked bundle of the listing shares its state, or its own decision or that of a crash of its state returned in this pass |
| ClusterExpansion.NoCrashIsPassedOver | lib/audit_runner.py:2484-2544 | Every unmarked crash of the batch is sent or was sent before, or shares its state with a marked bundle or with a crash that is |
| ClusterExpansion.NoCrashIsSentTwice | lib/audit_runner.py:2528-2544 | Over any number of passes of one process no crash is sent twice |
| BuildLease.Leases.Acquire | lib/build_lease.py:120-142 | The wait ends at the first poll that finds the lock free or, after a refusal, a clock at the deadline; it always asks at least once |
| BuildLease.GrantedExactlyWhenFreeInTime | lib/build_lease.py:134-142 | The lock is granted if and only if some poll finds it free before any clock reading reached the deadline |
| BuildLease.Leases.Enter | lib/build_lease.py:145-204 | A holder is answered True at once, with one more on its count and nothing else changed, if and only if it holds the lease exclusively or asks for it shared; otherwise True comes with a kernel grant and False with none |
| BuildLease.Leases.Leave | lib/build_lease.py:154-204 | The innermost scope gives back exactly what it took |
| BuildLease.Leases.HoldShared | lib/build_lease.py:310-351 | A lease already held is answered True and left as it is; otherwise a grant is kept, or nothing changes |
| LeaseRules.EveryRunKeepsInv | lib/build_lease.py:145-204 | The lease invariant holds over every run of any number of processes, deaths included |
| LeaseRules.EntryExactlyWhenLocked | lib/build_lease.py:154-204 | A process has an entry if and only if the kernel grants it the lock, in the same mode, and its count is one more than its open nested scopes |
| LeaseRules.ExclusiveBodyIsAlone | lib/build_lease.py:207-226 | A body given the exclusive lease overlaps no other process's body given the lease in either mode |
| LeaseRules.ExclusiveBodyExcludesKeptLeases | lib/build_lease.py:218-226 | Nor a lease another process holds for life |
| LeaseRules.UpgradeIsAlwaysRefused | lib/build_lease.py:154-204 | A holder of the shared lease that asks for it exclusively is always answered False |
| LeaseRules.HolderIsAnswered | lib/build_lease.py:154-163 | In every reachable state a request on a lease the process holds nests, the kernel not asked and the count one higher, if and only if it is held exclusively or asked for shared, and is refused otherwise |
| LeaseRules.GrantedExactlyWhenHoldersShare | lib/build_lease.py:134-137 | In every reachable state a lease the process does not hold can be granted if and only if no process holds it, or all holders and the request are shared |
| LeaseRules.OwnLockIsInTheWay | lib/build_lease.py:154-155 | A second request by a holder that does not nest finds its own lock in the way |
| LeaseRules.ScopeUndoesItself | lib/build_lease.py:145-204 | Entering a scope and leaving it, granted, nested or refused, restores process and kernel exactly |
| LeaseRules.LeavingNestedIsSound | lib/build_lease.py:156-163 | Leaving a nested scope never releases the lease |
| LeaseRules.OwnerEndsLast | lib/build_lease.py:193-200 | When the owning scope ends no nested scope is open on its lease |
| LeaseRules.HeldForLifeExactlyWhenNoScopeOwnsIt | lib/build_lease.py:310-351 | A held lease lasts until the process dies if and only if no open scope owns it |
| LeaseRules.HoldSharedLastsForLife | lib/build_lease.py:310-351 | A whole-process lease taken with no owning scope open is never dropped before death |
| LeaseRules.HoldSharedInsideAScopeIsDropped | lib/build_lease.py:332-333 | Taken inside a scoped lease it answers True and is dropped with the scope |
| PinRules.EveryRunKeepsInv | lib/build_lease.py:233-307 | The pin invariant holds over every interleaving of claims, births and deaths, over any debris of dead runs |
| PinRules.LivePinsAreNeverReaped | lib/build_lease.py:261-272 | A scan never removes a live process's pin, and the branch for a refused lock after publishing is never taken |
| PinRules.ClaimsAreBacked | lib/build_lease.py:298-307 | A published claim is backed by a locked pin that records it, from its publication until death, but for the moment of rewriting |
| PinRules.RefusalHasAReason | lib/build_lease.py:265-295 | A claim is refused only over a pin that records another, non-blank signature |
| PinAgreement.LivePinsAgreeUnlessBlank | lib/build_lease.py:276-307 | In any checkout, over any debris of dead runs and every interleaving, all live claims name one source state if and only if blank signatures are not mixed with others |
| PinAgreement.BlankClaimDisputesNothing | lib/build_lease.py:267-291 | A signature of blanks only lets any other claim stand beside it |
| PinAgreement.UndisputedClaimGoesThrough | lib/build_lease.py:276-307 | A claim no live pin disputes can always be completed by the process's own steps, touching no other live pin |
| PinAgreement.PublishedClaimIsUndisputed | lib/build_lease.py:292-307 | Whoever is about to publish has found no live pin with another signature, blanks aside |
| PinRules.TextReadsBack | lib/build_lease.py:262-305 | What is written into a pin reads back as the signature without the blanks at its ends |
| SourcePins.Claimant.Probe | lib/build_lease.py:261-273 | One pin is reaped exactly when nobody holds its lock, and counts as a conflict exactly when a holder records another signature |
| SourcePins.Claimant.DisagreeingPins | lib/build_lease.py:247-273 | The conflicts are exactly the locked pins of others that record another signature, in listing order; a pin is left if and only if it is locked or the process's own, with its inode, text and lock |
| SourcePins.Claimant.ClaimSourcePin | lib/build_lease.py:276-307 | An empty signature does nothing; a refused claim only reaps; an accepted one writes and locks its own pin, or leaves it when somebody holds it exclusively; every other pin stays if and only if it is locked, text and all |
| SourcePins.Claimant.Publish | lib/build_lease.py:292-307 | The pin is created if missing, then locked and written, or left as it is when its lock is refused |
| PinClaims.ClaimInAReachedState | lib/build_lease.py:276-307 | Called at any reachable moment the registry is free, a claim names exactly the live pins of others with another signature, keeps every live pin with its lock and text, and leaves the directory the process's own steps lead to |
| PinClaims.OwnClaim | lib/build_lease.py:247-307 | From such a moment a process can scan and then publish or refuse by its own steps, and what they come to is what the scan and the publication compute |
| SourcePins.ConflictsAreDisputes | lib/build_lease.py:261-273 | The scan and the process system see the same obstacles |
| LogPolling.ToolCallDelta | lib/audit_helpers.py:1738-1785 | The count and the next offset of one poll, unreadable and shrunken logs included |
| LogPolling.ContextTokensDelta | lib/audit_helpers.py:972-1010 | The largest context, the in-flight change and the next offset of one poll |
| LogPolling.PollTakes | lib/audit_helpers.py:1750-1773 | A poll takes the lines from its offset, or from the start of a log that has become shorter, up to the last line feed; one that cannot read takes none and keeps its offset |
| LogPolling.OneLine | lib/audit_helpers.py:1773-1783 | A line adds what it is worth, and an empty one nothing |
| LogPolling.LargestIsTheGreatest | lib/audit_helpers.py:997-1010 | The maximum bounds every line, and unless it is 0 some line reaches it |
| LogPolling.LineEnds | lib/audit_helpers.py:1000 | A line feed, a carriage return or the two together end one line |
| LogPolling.PollingEqualsOnePass | lib/audit_helpers.py:1738-1785 | For any growth and any polls, sums add and maxima join to one pass over the complete lines, and the offset ends just past the last line feed |
| LogPolling.LinesOfConcat | lib/audit_helpers.py:1000 | Lines can be taken from a text cut anywhere after a line feed, carriage returns included |
| LogPolling.CompleteGrows | lib/audit_helpers.py:995-1010 | The complete part of a grown log is the old complete part and the complete part of the rest |
| VoteScanner.FindBalance | lib/audit_helpers.py:2111-2137 | The first closing brace outside strings that balances the opening one, or that there is none |
| VoteScanner.StringsHideBraces | lib/audit_helpers.py:2116-2125 | From a quote to the next quote no backslash escapes nothing counts, braces, escaped quotes and escaped backslashes included |
| VoteScanner.BraceInAStringClosesNothing | lib/audit_helpers.py:2116-2130 | A closing brace inside a string ends no span |
| VoteScanner.DepthCountsBraces | lib/audit_helpers.py:2123-2130 | Outside strings the depth is the braces opened less the braces closed |
| VoteScanner.ExtractVote | lib/audit_helpers.py:2102-2138 | The scan ends on every text; what it emits is the leftmost accepted span tried, and without an answer no tried span is accepted |
| VoteScanner.OneAnswer | lib/audit_helpers.py:2102-2138 | There is at most one such answer |
| VoteScanner.VoteIsFound | lib/audit_helpers.py:2107-2138 | An accepted object behind brace-free text and whole rejected objects is found, whatever follows |
| VoteScanner.NestedVoteIsMissed | lib/audit_helpers.py:2130-2137 | A vote inside any rejected object stands in the text and is never tried; behind text without votes the scan finds nothing |
| VoteScanner.VoteInsideBracesIsMissed | lib/audit_helpers.py:2130-2137 | Such a text: one vote in the braces of another object |
| ManifestCheck.ManifestErrors | lib/benchmark.py:2796-3001 | No faults are reported if and only if the manifest is accepted: flags typed, both lists and the runtime keys in order, and no findings-only bug sharing a function and classes with a clean trap |
| ManifestCheck.AcceptedExactly | lib/benchmark.py:2796-3001 | What acceptance asks: the manifest flag typed, both lists in order, ids distinct across them, alternates spelt well, no two signatures one key, and no bug clashing with a trap |
| ManifestCheck.CheckList | lib/benchmark.py:2826-2903 | One list passes if and only if every entry is, ids are new and distinct, and no two entries share a key and possibly a site |
| ManifestCheck.CheckEntry | lib/benchmark.py:2831-2903 | What one entry has to meet, its labels included, given the ids and keys before it |
| ManifestCheck.EntryOkExactly | lib/benchmark.py:2831-2903 | What an entry has to spell: id, symbol, primitive or outcome not blank, its kind, no blank pin, flags typed, a strategy from S1 to S8, classes listed and not blank |
| ManifestCheck.EntriesClashExactly | lib/benchmark.py:2890-2903 | Two entries of a list clash if and only if, stripped, their symbols and their primitives or outcomes agree and they may be pinned to one file |
| ManifestCheck.CheckAlternates | lib/benchmark.py:2960-2985 | Alternate signatures need a primitive, a symbol and a known access |
| ManifestCheck.CheckKeys | lib/benchmark.py:2986-3000 | A bug's keys overlap an earlier key exactly when a fault is reported |
| ManifestCheck.CheckRuntimeKeys | lib/benchmark.py:2941-3001 | No two runtime keys of the manifest clash if and only if no fault is reported |
| ManifestCheck.ApartExactly | lib/benchmark.py:2941-3001 | The keys of a manifest are apart if and only if no two signatures, of one bug or of two that may share a file, agree once stripped in primitive and symbol with accesses that can be one |
| ManifestCheck.CheckTrapClashes | lib/benchmark.py:2909-2939 | A fault is reported if and only if some findings-only bug and clean trap may share a site, a function and a class |
| ManifestCheck.ClashesExactly | lib/benchmark.py:2909-2939 | A bug and a trap clash if and only if the bug is findings-only by its own flag or the manifest's, the trap expects nothing, a name of each ends in one function, their classes can meet and so can their files |
| GroundTruth.MatchReal | lib/benchmark.py:3484-3511 | The nested search returns the first bug with a satisfied signature |
| GroundTruth.MatchesExactly | lib/benchmark.py:3487-3511 | A crash matches through a bug's own primitive and symbol, or an alternate's and its access; what is left empty is not asked for, but not both of primitive and symbol |
| GroundTruth.FirstMatchIsFirst | lib/benchmark.py:3488-3511 | The answer is the bug no earlier one of which matches |
| GroundTruth.ConfusedExactlyWhenOverlapping | lib/benchmark.py:3491-3511 | Two bugs can be confused at one function if and only if two of their signatures overlap as spelled |
| GroundTruth.ConfusedAtASite | lib/benchmark.py:3491-3511 | The same for a site of any names |
| GroundTruth.ConfusionNeedsTwoFiles | lib/benchmark.py:2941-3001 | Two bugs of an accepted manifest can be confused at one function only if they pin files that cannot be the same |
| GroundTruth.AcceptedIsUnambiguous | lib/benchmark.py:2796-3001 | In an accepted manifest that pins no file at most one bug matches a crash at one function |
| GroundTruth.AttributionIgnoresOrder | lib/benchmark.py:3484-3511 | Then attribution does not depend on the order of the bugs |
| GroundTruth.PinnedBugsAreConfused | lib/benchmark.py:3048-3058 | With pinned files an accepted manifest attributes by order |
| GroundTruth.TwoNamesAreConfused | lib/benchmark.py:3500-3511 | So it does when the crash site carries two names |
| Scoring.MatchTrap | lib/benchmark.py:3514-3530 | The search returns the first trap the evidence fires |
| Scoring.FiresExactly | lib/benchmark.py:3520-3530 | A trap fires on the primitive its outcome names, an abort as ABRT, at a site its symbol allows, and never when it expects nothing |
| Scoring.FileCrash | lib/benchmark.py:3601-3614 | One crash goes into the one class it is judged to be in |
| Scoring.JudgedInOrder | lib/benchmark.py:3601-3614 | A crash is the first matching bug's, else the first firing trap's, else unexpected; without evidence it is unattributed |
| Scoring.RealBugsExactly | lib/benchmark.py:3566-3574 | The scored bugs are, in order, those whose kind is real or absent, that are not findings-only by their own flag or else the manifest's, and are not quarantined |
| Scoring.AddingKeepsPlaces | lib/benchmark.py:3608-3612 | Filing keeps every group in its place, and a new id goes last |
| Scoring.ScoreSubset | lib/benchmark.py:3596-3654 | Each class lists exactly the crashes judged to be in it, true and false positives add up to the total, detected and missed to the bugs |
| Scoring.AddingIsExact | lib/benchmark.py:3608-3612 | Filing a name under an id changes that id's list only, and the size by one |
| Scoring.DetectedAreBugs | lib/benchmark.py:3606-3608 | Every detected id is a scored bug's |
| Scoring.DetectedBugsAreTheGroups | lib/benchmark.py:3615-3616 | With distinct ids the recall numerator counts each detected bug once |
| Scoring.AcceptedIdsAreDistinct | lib/benchmark.py:2837-2843 | An accepted manifest gives the scorer distinct ids |
| Scoring.VerdictIgnoresOrder | lib/benchmark.py:3596-3614 | A verdict at one function does not depend on the order of an accepted, unpinned manifest |
| Scoring.DenominatorIsWholeExactlyWhenKindsAreBare | lib/benchmark.py:3566-3574 | In an accepted manifest the recall denominator holds every bug a crash can show if and only if none of them spells its kind with a blank at an end |
| Scoring.DetectableExactlyWhenSpeltBare | lib/benchmark.py:3484-3511 | A bug of an accepted manifest can be detected at all if and only if one of its signatures is spelled without blanks at the ends |
| Scoring.TrapFiresExactlyWhenSpeltBare | lib/benchmark.py:3514-3530 | A trap of an accepted manifest can fire if and only if its outcome is not clean and outcome and symbol are spelled without blanks at the ends |
| Scoring.BlankInKindDropsABug | lib/benchmark.py:3567-3574 | Such a manifest, for any bug whose kind carries a blank |
| Scoring.KindSpelledWithABlank | lib/benchmark.py:3566-3574 | An accepted manifest whose one bug a crash can show is not in the denominator |
| Scoring.SymbolSpelledWithABlank | lib/benchmark.py:3484-3511 | An accepted manifest whose bug no blank-free evidence matches |
| Scoring.OutcomeSpelledWithABlank | lib/benchmark.py:3514-3530 | An accepted manifest whose trap no blank-free evidence fires |
| Ledger.LedgerFile.SectionRunId | lib/benchmark.py:7810-7816 | The run of the first line that heads one |
| Ledger.RunOfExactly | lib/benchmark.py:7810-7816 | A line names a run if and only if, stripped, it is the heading of that run, or the bare prefix for the empty one |
| Ledger.LedgerFile.DropRunSection | lib/benchmark.py:7819-7828 | The lines left when the sections of a run are skipped, the unended last line included |
| Ledger.LedgerFile.Append | lib/benchmark.py:7831-7850 | The file after an append: pruned and closed only if something was pruned, then the section on a new line |
| Ledger.DroppingFiltersSections | lib/benchmark.py:7819-7828 | Skipping lines removes exactly the sections of that run, in order |
| Ledger.KeptExactly | lib/benchmark.py:7819-7828 | A line is kept, in its place, if and only if the last heading up to it is not the run's; lines before the first heading always are |
| Ledger.PrunesExactly | lib/benchmark.py:7843-7846 | Something is taken out if and only if some line heads the run |
| Ledger.ClosingTrimsTheLast | lib/benchmark.py:7846 | Stripping the newlines at the end trims the blank lines of the last section and changes no other |
| Ledger.ClosedText | lib/benchmark.py:7846 | The closed form is the text stripped of its trailing newlines and ended with one |
| Ledger.AppendedText | lib/benchmark.py:7847-7850 | The appended form is the text, a newline and the section |
| Ledger.AppendReplacesTheRun | lib/benchmark.py:7831-7850 | Parsed, the new ledger is the old one without that run, in order, the last of the others trimmed if something was taken out and longer by one blank line if the text before the section ends in a newline, then the new section |
| Ledger.OthersUnchangedExactly | lib/benchmark.py:7831-7850 | The other sections are unchanged if and only if none is left, or nothing was taken out of a text not ended by a newline, or the last one left ends in exactly one blank line |
| Ledger.AnotherRunLengthensTheLast | lib/benchmark.py:7847-7850 | A ledger of one section ended by a newline gains a blank line in it from another run's report |
| Ledger.ReportingAgainReplaces | lib/benchmark.py:7831-7850 | Reports of one run leave one section of it, the latest, and from the second on the other sections no longer change |
| Ledger.AppendKeepsOnePerRun | lib/benchmark.py:7831-7850 | A ledger with one section per run keeps one section per run |
| SymbolDecoder.MangledComponents | lib/benchmark.py:3343-3357 | The scan computes the decoding of the whole symbol |
| SymbolDecoder.ReadFront | lib/benchmark.py:3346-3356 | One turn takes one component, or skips what cannot start one |
| SymbolDecoder.DecodingUndoesEncoding | lib/benchmark.py:3343-3357 | Identifiers printed with their lengths, with any digit-free text around them, come back as they were |
| SymbolDecoder.CountInFront | lib/benchmark.py:3346-3356 | A run of digits takes as many characters behind it as it counts, if there are so many, at least one, and all letters, digits or underscores; otherwise the scan goes on right behind the digits |
| SymbolDecoder.OnlyIdentifiers | lib/benchmark.py:3352-3353 | Whatever the symbol, only identifiers come out |
| LogTree.CountRemovableLogs | lib/cleanup.py:99-116 | The dry-run count and flag of a tree |
| LogTree.ClearLogTree | lib/cleanup.py:119-168 | The removal with every listing, look and deletion free to fail or find nothing |
| LogTree.ClearEntry | lib/cleanup.py:135-167 | One turn of the loop: what one entry adds to the result |
| LogTree.ClearingConserves | lib/cleanup.py:119-168 | Removed, vanished and still countable entries add up to the dry-run count, the residue is protected exactly when the tree was, and a directory cleared with success and unprotected is empty |
| LogTree.SuccessAgreesWithTheDryRun | lib/cleanup.py:99-168 | With success the removal matches the dry run and leaves the .gitkeep entries and the directories above them |
| LogTree.SecondClearRemovesNothing | lib/cleanup.py:119-168 | A second clear removes nothing, whatever fails |
| LogTree.FlagSaysWhatShows | lib/cleanup.py:119-168 | However removals end, the reported flag says whether a .gitkeep can be reached through directories that can be listed and looked at |
| LogTree.FlagIsTrueExactlyWhenInSight | lib/cleanup.py:119-168 | The flag is the tree's if and only if a protected tree has a .gitkeep in sight |
| LogTree.UnlistedDirectoryHidesItsFlag | lib/cleanup.py:130-134 | A directory that cannot be listed makes a protected tree report unprotected, with failure |

## Left out

- Subprocesses, model calls, signals, phase records and log messages: what a session reports, how a decision ends and what a clock reads are inputs.
- Whether a bundle is unfinished, a finding reviewed, a slot to be skipped, or two crashes in one state: readings passed in.
- The quiet seal's file times: a sweep takes the seconds since each artifact was written; the seal theorems speak of the other route.
- Exceptions out of a collected session: `run_agent_guarded` turns them into results, and a pool that raises is gone.
- The steward's scoring and the session's own time limit in the continuous loop; slots that found no work at its start never join, as in the source.
- Judging itself, and the rest of a sweep after its artifacts are chosen, but for the hand-over to the lane.
- The one-time migration before an expansion pass, and the hypotheses a decision mints.
- The pending-writer marker of the lease: it delays the first request for the lock and decides nothing about who gets it.
- Two threads of one process entering the lease at once, and descriptors inherited by a forked child: the source guards neither.
- Locks and pins on file systems where `flock` is not kept by the kernel, and input or output errors while a pin is written.
- JSON parsing, the escape repair and the event classifiers: functions of one candidate or one line.
- ManifestCheck.ManifestErrors: lists, entries and alternates of the wrong JSON type, and unknown fields of an alternate, because the model's entries are typed; wrongly typed flags, strategies and classes are modelled.
- How class names are made canonical and a qualified symbol is cut to its last name: a `Lexicon` passed in.
- Reading a path into a directory and a name, and the crash-site parser: `FileRef` and `Evidence` are their results.
- Per-primitive and per-condition breakdowns, rounding and rendering of scores.
- Line separators other than the newline in the ledger, and digits outside ASCII in symbols.
- GroundTruth.AcceptedIsUnambiguous: asks for a crash site with one name and no pinned file, because the claim is false without either; ConfusedAtASite and ConfusionNeedsTwoFiles give the exact conditions.
- GateProtocol.SealedFindingHasNoLiveWriter: stands under the naming hypothesis above, because the gate learns of a writer only when its session ends.
- ClusterLane.RunningBatchCanRetire: asks that no report raised, because FollowerIsLostExactly shows what happens otherwise.
- GateProtocol.SealedCrashPredatesItsOwnersChain: speaks of the first completion since a look found the crash open, because no look rules out a reopening it did not meet; GateReopening.SealAndLatestCompletion is exact about the latest one.
- ClusterLane.HandOffsAreKept: counts a marked crash as kept, because a start leaves it out; MissingExactlyWhenDropped is exact about batches.
