# Active-message airing, file removal and worker evidence: a Dafny model

This project models the parts of IsadoraAir that put urgent and public-address messages on air and that
look after what they leave behind, and proves what those parts promise. Everything is stated over all
inputs, all runs or all reachable states.

**The airing protocol.** Producers and operators prepare, activate, clear and limit messages; a worker
turns the active set into one rendered aggregate; the playback engine splices it into its log, asks for
deck-open authority, plays it and reports. Each service call and each playout transaction is one atomic
step under the policy lock. `Composition` is the canonical order, the limits and the digest of an active
set. `Services` gives, for every transaction, the tables it leaves and its reply; `ActiveMessages.Store`
runs the transactions row by row and is shown to leave exactly those tables. `DomainInvariants` is the
invariant of the committed domain: the table constraints, "same generation means same content", "what the
domain owns is current and within the limits", anchored due times, and the event history. `Playout` adds
publications, insertions, LogItems, PlayEvents, decks, commands and engine processes as a state machine
whose environment may lose, repeat and delay commands, delete LogItems, Tracks and files, fail a playback
claim after it committed, and restart the engine at any moment; `Engine.Airings` runs its transactions.
`Runs`, `Airings`, `StartUp`, `Guarantees`, `ExactlyOnce` and `Attempts` state what holds over every run;
`FirstAiring` is one such run.

What each operation does is stated a second time, on the tables alone and without the functions that compute it:
`ServiceEffects` for the calls that change messages, limits and executions, `AiringEffects` for what fits and for
activation, `CreatedAirings` for the three calls that create an airing, `PlayoutEffects` and `EvidenceEffects` for every
step of the worker and the engine. `RunEffects` draws from them what holds ever after: a cleared message is never played
again, and every airing that comes into being is the aggregate of what is ACTIVE.

**Identity-preserving removal.** `Disk` is one shared name, the private quarantine beside it and the
objects behind them, with link counts and reusable inode numbers; any other process may create, replace,
rename, link or unlink at any moment. `Quarantine.Cleanup` performs the system calls of the source in
their order, with such acts, a failure or a crash before each one; `Custody` is the record it leaves. The
object removed is proven to be the very object the manifest was made of although inode numbers are
reused, because the number is read while the object is held open and the move happens before it is
closed. `TrackGuard` is the interplay with Track writes, `OwnershipScan` the two reference scans.

**Worker evidence.** `Heartbeat` is the document contract and the verdict, in real time; `Recorder` the
writer and the loop that drives it; `Diagnostics` what monitoring writes from it and the independent
reader. `Verdicts` is the verdict as a table on the document and the clock, carried through what monitoring
writes, and shows that the reader trusts exactly the entries monitoring can write.

**Two smaller pieces.** `EngineCommands` shows that the command directory is a bounded FIFO under any
number of writers, crashes and clock steps. `Schedule` gives the exact bound within which three calendar
anchors equal the search over all days.

Where the code and its documentation differ, the code is followed:

* a Track write is admitted without the destination lock when it only updates the publication's own Track; it runs later
  than it is judged, and if the Track is retired and another created under its id meanwhile, it gives that one a path
  the cleanup may have removed (`TrackGuard.RemovalIsFinalExactly`, `TrackGuard.RecreatedTrackDangles`);
* the batched reference scan promises each location what the single scan gives; a location listed twice
  gets every reference twice (`OwnershipScan.BatchedIsSingleExactly`, `OwnershipScan.ListedTwiceDiffers`);
* nothing new is to be removed while an operation is unresolved; operations past the ten-thousandth entry of the
  quarantine are not listed and so not waited for (`Quarantine.WaitsForAllExactly`, `Quarantine.RemovedBesideHeld`);
* the three-anchor search is complete only within a bound on the allowances (`Schedule.ThreeAnchorsExactly`).

Two things that a single operation allows do not happen in the runs the code makes. A command whose sequence needed more
than twenty digits would be published under a name no scan matches (`EngineCommands.PublishedExactly`), but with the
64-bit clock no run of fewer than 10^20 - 2^63 enqueues gets there (`EngineCommands.WhatIsPublishedIsDelivered`). A stop
recorded while the very first pass renders would not
validate (`Recorder.Recorder.RecordStop`, `Recorder.StopWhileFirstRendering`), but the loop records a stop only between
passes, and `Recorder.RunForever` shows that none of its saves is ever refused.

Assumptions taken from the code around these parts: random tokens, process identities and keys are new
when taken (but a Track may be created under any id no Track has now); hashes are injective; production media rows never change; one engine process runs at a time
and a restart ends the old one's audio; nobody else writes inside the private quarantine directory.

Run `dafny verify dfyconfig.toml` in this directory to check the project.

## Model

| member | source | states |
|---|---|---|
| `Ordering.AnyReadingSortsAlike` | active_messages/composition.py:53-54 | sorting any reading of a table's rows gives the one sorted listing of the set, as the key tells the rows apart |
| `Composition.BuildIgnoresReadingOrder` | active_messages/composition.py:72-111 | the snapshot is a function of the set of active rows: every permutation of the messages builds the same one |
| `Composition.DigestIdentifiesAggregate` | active_messages/composition.py:114-125 | two compositions have equal digests if and only if they hold the same messages with the same audio and the same stinger pin |
| `Composition.EligibleMeansWithinLimits` | active_messages/services.py:418-440 | a set is eligible exactly when it fits the count, every message fits its limit and the accounted airtime fits the aggregate limit |
| `Composition.EligibilityIgnoresReadingOrder` | active_messages/services.py:418-440 | the verdict and the message it reports do not depend on the order the rows were read in |
| `Composition.SubsetOfEligibleIsEligible` | active_messages/services.py:418-440 | for a fixed stinger duration, clearing or expiring messages never makes an eligible set ineligible |
| `Composition.ProvenAggregateIsUnique` | active_messages/rendering.py:58-94 | a rendition proves at most one audible aggregate: two frozen snapshots it proves have one digest |
| `DomainInvariants.SuppressStaleSettles` | active_messages/services.py:310-327 | after suppression nothing the domain owns is stale, and every row constraint still holds |
| `DomainInvariants.NewGenerationSettles` | active_messages/services.py:305-327 | under a new generation the messages and policy may change freely: the sweep that follows restores the whole invariant |
| `DomainInvariants.GenerationIsPositive` | active_messages/models.py:410 | a nonempty active set implies an earlier generation change, so an execution's generation is at least 1 |
| `DomainInvariants.ExpireKeeps` | active_messages/services.py:336-354 | the expiry sweep keeps every constraint and invariant and leaves no message due to expire |
| `DomainInvariants.PrepareKeeps` | active_messages/services.py:453-479 | preparing a message keeps every constraint and invariant |
| `DomainInvariants.BindMediaKeeps` | active_messages/services.py:501-548 | binding media to a draft keeps every constraint and invariant |
| `DomainInvariants.SetExpiryKeeps` | active_messages/services.py:551-588 | changing an expiry keeps every constraint and invariant, and the composition |
| `DomainInvariants.ActivateKeeps` | active_messages/services.py:608-677 | activation keeps one ACTIVE message per producer and type, and every other invariant |
| `DomainInvariants.ClearKeeps` | active_messages/services.py:696-738 | a recall, clear or discard keeps every constraint and invariant |
| `DomainInvariants.MaterializeKeeps` | active_messages/services.py:850-898 | materialization keeps one unfinished execution, current and within the limits |
| `DomainInvariants.ReconcileKeeps` | active_messages/services.py:915-985 | reconciliation keeps one record per failed occurrence and one successor per record |
| `DomainInvariants.ReplayKeeps` | active_messages/services.py:1000-1043 | Replay Now keeps every constraint and invariant on all its outcomes |
| `DomainInvariants.BindMixKeeps` | active_messages/services.py:1113-1176 | a bound mix is proven, measured and within the aggregate limit in force |
| `DomainInvariants.FailKeeps` | active_messages/services.py:1179-1199 | a render failure leaves a coded, closed row and every invariant |
| `DomainInvariants.AirStartedKeeps` | active_messages/services.py:1256-1282 | recording an air start keeps the dated evidence of every state |
| `DomainInvariants.CadenceMoves` | active_messages/services.py:1231-1244 | applying an airing makes every ACTIVE participant due exactly one frozen interval past its end and leaves every other message as it was, so all due times stay anchored |
| `DomainInvariants.AirCompletedKeeps` | active_messages/services.py:1285-1307 | a completed airing keeps ordered air times and anchored due times |
| `DomainInvariants.AirInterruptedKeeps` | active_messages/services.py:1310-1332 | an interrupted airing keeps ordered air times and anchored due times |
| `DomainInvariants.SetLimitsKeeps` | active_messages/services.py:1398-1434 | lowering a limit leaves nothing the domain owns outside it |
| `DomainInvariants.ServeKeeps` | active_messages/services.py:3-9 | every service call keeps the whole domain invariant |
| `ServiceSteps.ServeIsOrdinary` | active_messages/services.py:310-327 | no service call rewrites recorded history, resurrects a message, moves the due time of a message that stays ACTIVE, or touches a row the engine holds |
| `ServiceEffects.PrepareDoes` | active_messages/services.py:453-479 | a draft is made exactly for who may draft a usable type with a future expiry, with nothing bound and no date but its expiry; refused, nothing changes |
| `ServiceEffects.BindMediaDoes` | active_messages/services.py:501-548 | audio is bound exactly to an own draft (or by control) of its usable type, and only audio that may be bound, measured and within the message limit; only that row changes, and binding the same audio again changes nothing |
| `ServiceEffects.SetExpiryDoes` | active_messages/services.py:551-588 | an expiry changes exactly for whom and in which states it may, to the future or none; only that column changes |
| `ServiceEffects.ClearDoes` | active_messages/services.py:696-738 | done exactly for control, the producer of a draft, or the producer of a recallable ACTIVE message, in the expected state; then the message is CLEARED with its end dated and no due time, and if it was ACTIVE the generation rose by one and no PENDING_RENDER or READY execution is left; refused, nothing changes |
| `ServiceEffects.ExpireDoes` | active_messages/services.py:336-354 | exactly the ACTIVE messages whose expiry has come are EXPIRED, under one new generation, or nothing changes when there are none |
| `ServiceEffects.ProvenIsAssembled` | active_messages/rendering.py:58-94 | a rendition is proven exactly when the executor assembled it from the alert, if one leads, and the audio of each message in order |
| `ServiceEffects.BindExecutionMixDoes` | active_messages/services.py:1113-1176 | an execution becomes READY exactly with bindable audio assembled from its own frozen composition, measured and within the aggregate limit; otherwise nothing changes |
| `ServiceEffects.FailPendingDoes` | active_messages/services.py:1179-1199 | exactly a PENDING_RENDER execution is failed and closed with a render code; any other row keeps its state |
| `ServiceEffects.SetLimitsDoes` | active_messages/services.py:1398-1434 | done exactly for control within the ceilings and with the message limit within the aggregate one; then the limits asked for are in force and the others stay, under one new generation or none when nothing changed |
| `ServiceEffects.SetStingerDoes` | active_messages/services.py:1372-1389 | the alert key changes exactly for control to none or a usable key, and starts a new composition |
| `ServiceEffects.SetAiringDoes` | active_messages/services.py:1437-1455 | the gate opens exactly for control where airing is available, closes for control, and moving it starts a new composition |
| `ServiceEffects.SetIntervalDoes` | active_messages/services.py:1353-1369 | the default interval changes exactly for control within its bounds, and no generation |
| `AiringEffects.EligibilityIsFitting` | active_messages/services.py:418-440 | the verdict on any set of rows is whether their number, each duration, and their summed airtime with a leading alert are within the limits |
| `AiringEffects.WhyItDoesNotFit` | active_messages/services.py:418-440 | a set that does not fit is refused for its number first, then for its lowest-numbered message that is too long, else for its length |
| `AiringEffects.AlertIsTheStinger` | active_messages/services.py:790-797 | the alert counts exactly when some message is urgent, the policy has a key, and the key is usable with a positive duration |
| `AiringEffects.ActivateDoes` | active_messages/services.py:608-677 | done exactly for who may publish a complete, unexpired draft whose set would fit, or one already ACTIVE; then it is due at once with the type's interval or else the policy's, replaces the producer's ACTIVE message of the type, and starts a new composition; refused, nothing changes |
| `CreatedAirings.SnapshotOfActive` | active_messages/composition.py:72-111 | the snapshot holds each message once, urgent first and oldest first, the alert's pin exactly when it leads, and the summed airtime with it |
| `CreatedAirings.OneOrder` | active_messages/composition.py:49-54 | there is one such order of a set of messages |
| `CreatedAirings.MaterializeDoes` | active_messages/services.py:850-898 | after the sweep: an unfinished airing is joined; nothing due, nothing made; a set that does not fit is refused with its reason, one that just failed with its code; otherwise everything ACTIVE is aired, due when the first message became due |
| `CreatedAirings.ReconcileDoes` | active_messages/services.py:915-985 | a stinger-failed occurrence gets one recorded answer, repeated ever after: none when the composition moved on or nothing is ACTIVE, the open airing, or one new airing of everything ACTIVE due now |
| `CreatedAirings.ReplayDoes` | active_messages/services.py:1000-1043 | a known request repeats its answer to its own actor only; an open airing of this composition is joined, one of an older composition is in the way; otherwise everything ACTIVE is aired, due now, and the request remembers it |
| `RunEffects.EveryAiringIsOfTheActiveSet` | active_messages/services.py:807-833 | only the three creating calls make an execution, and it airs everything ACTIVE after the sweep: with the alert's pin if and only if one of those messages is urgent, the policy has a key and the key is usable with a positive duration, and accounted with that duration only then |
| `ActiveMessages.Store.SuppressStaleRows` | active_messages/services.py:310-327 | row by row, exactly the stale domain-owned executions are suppressed |
| `ActiveMessages.Store.ExpireDue` | active_messages/services.py:336-354 | one generation step for the whole sweep, none when nothing is due |
| `ActiveMessages.Store.Assess` | active_messages/services.py:790-797 | from one reading of the rows: the alert counts exactly when an ACTIVE message is urgent, the policy has a key and it is usable with a positive duration; and the verdict is that of the set |
| `ActiveMessages.Store.FindNewest` | active_messages/services.py:836-847 | the loop finds the newest execution by creation time and id |
| `ActiveMessages.Store.EarliestDue` | active_messages/services.py:872-885 | the loop finds the earliest due time, and nothing exactly when nothing is due |
| `ActiveMessages.Store.MaterializeDueExecution` | active_messages/services.py:850-898 | the transaction leaves exactly the specified tables and reply, keeping the sweep when the set is refused and undoing it on an error; what those are on the rows is `CreatedAirings.MaterializeDoes` |
| `ActiveMessages.Store.ReconcileStingerFailure` | active_messages/services.py:915-985 | the transaction leaves exactly the specified tables and reply |
| `ActiveMessages.Store.RequestManualReplay` | active_messages/services.py:1000-1043 | the transaction leaves exactly the specified tables and reply |
| `ActiveMessages.Store.ActivateMessage` | active_messages/services.py:608-677 | the transaction supersedes, activates and suppresses exactly as specified, or refuses having written nothing |
| `ActiveMessages.Store.ClearMessage` | active_messages/services.py:696-738 | the transaction leaves exactly the specified tables and reply; what those are on the rows is `ServiceEffects.ClearDoes` |
| `ActiveMessages.Store.ApplyLimits` | active_messages/services.py:1398-1434 | one generation step however many limits change, none when none does |
| `ActiveMessages.Store.BindExecutionMix` | active_messages/services.py:1113-1176 | binds a proven mix, or suppresses a stale execution and then refuses |
| `ActiveMessages.Store.ApplyCadenceRows` | active_messages/services.py:1231-1244 | component by component, each still-active participant is re-dated once |
| `ActiveMessages.Store.RecordAirCompleted` | active_messages/services.py:1285-1307 | idempotent; completes the current attempt's airing and applies it to the cadence |
| `ActiveMessages.Store.RecordAirInterrupted` | active_messages/services.py:1310-1332 | idempotent; ends the current attempt's airing at its last evidence |
| `PlayoutInvariants.CurrentIsUnique` | active_messages/models.py:596 | an execution has at most one LogItem of its current attempt |
| `PlayoutSteps.QuietUnlessClaimed` | active_messages/playout.py:759-765 | an attempt never claimed has no PlayEvent, no deck of the running process and not the engine's attention |
| `PlayoutSteps.QuietWithoutInsertion` | active_messages/playout.py:907-915 | an attempt whose command was never accepted has nothing that could air |
| `PlayoutSteps.QuietReported` | active_messages/playout.py:728-757 | a claimed item whose playback claim never committed in this process has nothing that could air |
| `PlayoutSteps.QuietAtBoot` | active_messages/playout.py:851-879 | at start-up, once evidence is projected, what an earlier process held has nothing that could air |
| `PlayoutSteps.RedispatchKeeps` | active_messages/playout.py:492-519 | rotating or failing an attempt that nothing can air keeps the station's invariant |
| `PlayoutSteps.DispatchKeeps` | active_messages/playout.py:522-540 | a dispatch or resend keeps the station's invariant |
| `PlayoutSteps.DeliverKeeps` | active_messages/playout.py:557-617 | a command, delayed or repeated, inserts at most the current attempt, once |
| `PlayoutSteps.AuthorizeKeeps` | active_messages/playout.py:657-702 | a claim, a continuation, a refusal and a suppression all keep the station's invariant |
| `PlayoutSteps.ReportNotAiredKeeps` | active_messages/playout.py:708-765 | a not-aired report resends or suppresses only what positively cannot air |
| `PlayoutSteps.HeldStepKeeps` | active_messages/playout.py:884-927 | the worker's step never rotates an attempt that may still air |
| `PlayoutSteps.SyncStartedKeeps` | active_messages/playout.py:788-807 | evidence moves an engine-held row to STARTED, and leaves none engine-held beside its PlayEvent |
| `PlayoutSteps.SyncEndedKeeps` | active_messages/playout.py:808-817 | a terminal ledger ends the airing and keeps the station's invariant |
| `PlayoutSteps.BootSettleKeeps` | active_messages/playout.py:851-879 | start-up reconciliation keeps the station's invariant |
| `PlayoutSteps.PublicationFailsKeeps` | active_messages/playout.py:941-947 | a permanent publication failure fails only a READY execution |
| `PlayoutSteps.BuildDeckKeeps` | library/services/engine.py:1168-1182 | a deck is built only for the item the running process was handed |
| `PlayoutSteps.AirStartKeeps` | library/services/engine.py:6982-7075 | a PlayEvent is recorded only for the current attempt of a claimed execution, once |
| `PlayoutSteps.RestartKeeps` | library/services/engine.py:154 | a new process starts with no deck and the invariant intact |
| `Runs.NextKeeps` | active_messages/playout.py:1-74 | every step of the station keeps its invariant |
| `Runs.ReachableOk` | active_messages/playout.py:1-74 | over every run, every reachable state satisfies every row constraint and every rule between the rows |
| `Airings.RunRemembers` | active_messages/models.py:503-519 | over every run no recorded answer, evidence, frozen content or terminal row is ever lost or changed |
| `Guarantees.OneAiring` | active_messages/playout.py:32-53 | over every run at most one LogItem of an execution ever gets a PlayEvent, and keeps it |
| `Guarantees.OneItemPerProcess` | active_messages/playout.py:40-53 | no engine process ever builds decks for two LogItems of one execution |
| `Guarantees.HandedAgainExactly` | active_messages/playout.py:627-702 | a process that built a deck for a LogItem is handed it again, changing no row, if and only if its Track is still the published one, the gate is open and the airing has not ended |
| `FirstAiring.HandedAgainHappens` | active_messages/playout.py:627-702 | a run from an empty station, through every call and step of one airing, after which the process has built its deck and is handed the same LogItem again |
| `Guarantees.AirNeedsEvidence` | active_messages/playout.py:788-817 | a row is STARTED, COMPLETED or INTERRUPTED only beside the PlayEvent of its own current attempt, with that event's time |
| `Guarantees.StartsAtMostOnce` | active_messages/services.py:1256-1282 | over every run an execution enters STARTED at most once |
| `Guarantees.OnlyAuthorityClaims` | active_messages/playout.py:657-702 | only deck-open authority, judging in favour and with the LogItem there, takes an execution from ACCEPTED to CLAIMED |
| `Guarantees.ClaimPlaysTheActiveSet` | active_messages/playout.py:664-702 | the instant an execution is claimed the published bytes are proven to be exactly the messages active then, in canonical order, behind the frozen stinger pin |
| `RunEffects.ClaimPlaysOnlyActive` | active_messages/playout.py:664-702 | over every run, each message a claimed rendition was assembled from is ACTIVE at that instant |
| `RunEffects.OverForGood` | active_messages/services.py:730-738 | over every run, a message once CLEARED or EXPIRED stays so |
| `RunEffects.ClearedIsNeverPlayed` | active_messages/services.py:731-738 | over every run, once a clear was answered as done, no later claim plays that message |
| `Guarantees.GenerationFixesContent` | active_messages/services.py:305-327 | an execution of the policy's generation froze exactly the messages active now, each once, in canonical order |
| `Guarantees.OwnedIsCurrentAndFits` | active_messages/services.py:1398-1434 | every PENDING_RENDER or READY execution is of the current generation and within the limits in force now |
| `Guarantees.ConstraintsHold` | active_messages/models.py:390-434 | every CHECK and UNIQUE constraint modelled holds of every committed state |
| `Guarantees.DueTimesAreAnchored` | active_messages/services.py:1231-1244 | an ACTIVE message's due time is its activation, or the end of the last airing applied to it plus its interval |
| `ExactlyOnce.ReplayIsAnsweredOnce` | active_messages/services.py:1000-1043 | every grant of one Replay Now token names the same execution, and only the first can have created it |
| `ExactlyOnce.FailureIsReconciledOnce` | active_messages/services.py:915-985 | a stinger-failed occurrence is answered once; every later call repeats that answer |
| `ExactlyOnce.OneSuccessor` | active_messages/services.py:962-985 | a failed occurrence has at most one RECONCILE successor, of its own generation |
| `ExactlyOnce.FailureIsNotRepeated` | active_messages/services.py:836-847 | materialization never creates an airing of the same generation and digest as a newest execution that failed with a blocking code |
| `ExactlyOnce.DueMessageIsAired` | active_messages/services.py:850-893 | a due message, with nothing unfinished and an eligible, unblocked set, is in the airing the next materialization creates, dated at the earliest due time |
| `Attempts.AttemptsAreBounded` | active_messages/playout.py:492-507 | the attempt count is exactly the number of tokens issued, at most fifty, and bounds the LogItems ever spliced |
| `Attempts.DueMovesOnlyWithAir` | active_messages/services.py:1231-1244 | the due time of a message that stays ACTIVE moves only when an airing that contained it ends, by its frozen interval |
| `PlayoutEffects.TendDoes` | active_messages/playout.py:884-927 | the worker's step on any reachable station: a stale held execution is suppressed unless a claimed one may still air; one whose command was lost is sent again once a minute has passed, and one whose LogItem was deleted before its claim at once; with the Track or file gone or fifty attempts made it fails instead; all else is left exactly as it was |
| `PlayoutEffects.LostCommandIsResent` | active_messages/playout.py:907-916 | over every run, for a held execution whose command was lost: the worker's step issues a new token and its command if and only if a minute has passed since the last, and before that changes nothing |
| `PlayoutEffects.DeletedItemIsResent` | active_messages/playout.py:917-922 | over every run, an ACCEPTED execution whose LogItem was deleted is sent again by the worker's next step |
| `PlayoutEffects.DispatchDoes` | active_messages/playout.py:522-540 | a published READY execution is sent while the gate is open and its composition current, and again after a minute without an answer; otherwise nothing changes |
| `PlayoutEffects.PublicationDoes` | active_messages/playout.py:930-950 | the READY mix is placed once, and a permanent failure ends a READY execution with its code |
| `PlayoutEffects.DeliverDoes` | active_messages/playout.py:557-617 | a command is spliced exactly when it carries the execution's own token, no LogItem carries it, the execution may still air, its Track is live and the category exists; then there is one unplayed LogItem and the row is ACCEPTED by this process |
| `PlayoutEffects.AuthorizeDoes` | active_messages/playout.py:657-702 | a current LogItem is claimed exactly when its row is ACCEPTED, of this composition, the gate open and its Track still named; a stale one is suppressed; what this process already holds continues; nothing else opens a deck or changes |
| `PlayoutEffects.ReportDoes` | active_messages/playout.py:708-765 | a reported attempt nothing of which can air is sent again, or suppressed when stale; any other report changes nothing |
| `PlayoutEffects.DeckDoes` | library/services/engine.py:7310-7340 | a deck is built only behind a playback claim that committed and was seen to, and its first buffer is recorded once, for a claimed item of the running process |
| `EvidenceEffects.StartDoes` | active_messages/playout.py:788-807 | a held execution whose current LogItem has a PlayEvent is STARTED at that time, in the worker's pass and at start-up alike; any other is left |
| `EvidenceEffects.EndDoes` | active_messages/playout.py:808-817 | a started execution is COMPLETED by a clean ledger or INTERRUPTED at the later of its end and its start; each ACTIVE message it contained is due one interval later and no other row changes |
| `EvidenceEffects.SettleDoes` | active_messages/playout.py:834-879 | at start-up what an earlier process had on air is INTERRUPTED at its last evidence, what it held is suppressed when stale and else sent again; what this process holds, or nobody, is left |
| `Engine.Airings.RotateAttempt` | active_messages/playout.py:492-507 | takes exactly the specified rotation, and sends nothing when attempts are exhausted |
| `Engine.Airings.DispatchReady` | active_messages/playout.py:522-540 | takes exactly the specified dispatch step |
| `Engine.Airings.FindInsertion` | active_messages/playout.py:901-903 | the loop finds the one insertion of the current attempt, or none |
| `Engine.Airings.InsertCommand` | active_messages/playout.py:557-617 | inserts exactly when the command is admitted |
| `Engine.Airings.Authorize` | active_messages/playout.py:657-702 | takes exactly the specified authority step |
| `Engine.Airings.ReportItem` | active_messages/playout.py:708-765 | takes exactly the specified report step |
| `Engine.Airings.ProjectStart` | active_messages/playout.py:788-807 | takes exactly the specified evidence step |
| `Engine.Airings.StepHeld` | active_messages/playout.py:884-927 | takes exactly the specified worker step, which on the tables is `PlayoutEffects.TendDoes`, and answers with the token it issued, or none when it issued none |
| `Engine.Airings.EngineStarted` | active_messages/playout.py:851-879 | with each row's own evidence, afterwards nothing another process had on air is still STARTED, no LogItem spliced for it is current, and no other row changed |
| `StartUp.StartUpSettles` | active_messages/playout.py:851-879 | the same over every start-up with any steps of anyone else between its transactions, rows created meanwhile included; deck-open authority is then given only for an execution this process accepted |
| `StartUp.NextSettled` | active_messages/playout.py:851-879 | whatever anyone does but restart the engine, what start-up settled stays settled |
| `Disk.ActKeeps` | active_messages/quarantine.py:44-50 | whatever other processes do to the shared name, the private directory is untouched and an object without a name stays without one |
| `Custody.MovedIsAccountedFor` | active_messages/quarantine.py:32-37 | every object moved aside was later returned or removed, or is still held |
| `Custody.RemovalIsJustified` | active_messages/quarantine.py:311-448 | over every run, the only payload ever unlinked is the object its own manifest was made of: inspected with one link before, moved aside right after the manifest, proven with one link after the move, of the expected content, and authorized last |
| `Custody.HeldWasMoved` | active_messages/quarantine.py:344-380 | whatever an operation holds was moved there right after the manifest that still is its own was complete |
| `Custody.BytesAreDistinctSizes` | active_messages/quarantine.py:38-41 | bytes claimed are the sizes of distinct objects: none is counted twice |
| `Quarantine.OnlyItsOwn` | active_messages/quarantine.py:383-397 | what was moved either is the verified object or shows another inode number, even though numbers are reused |
| `Quarantine.RemovedKeeps` | active_messages/quarantine.py:416-439 | a payload is unlinked only as the manifest's own object, proven and authorized last |
| `Quarantine.NothingIsLost` | active_messages/quarantine.py:311-484 | over every run, every object ever moved aside was returned while its name was free, is a payload with a link, or was removed with justification |
| `Quarantine.BytesAreGone` | active_messages/quarantine.py:430-439 | the bytes claimed are exactly the sizes of distinct objects with no link left |
| `Quarantine.Cleanup.Remove` | active_messages/quarantine.py:311-341 | under any interference, failure or crash it keeps custody and reports exactly what it proved removed; whenever it put something back it names a problem, and when it names none whatever it moved aside was reclaimed; with nothing interfering it does exactly the specified removal |
| `Quarantine.Cleanup.MoveAside` | active_messages/quarantine.py:344-380 | the first thing it records is the complete manifest, at most the next is the move, and whatever was moved is settled; undisturbed, exactly as specified |
| `Quarantine.Cleanup.Settle` | active_messages/quarantine.py:400-448 | deletes only a proven payload, puts anything else back without overwriting, touches no other operation, and reports exactly the bytes proven; what went back or stayed is reported with a problem, and another object than the proven one never as removed |
| `Quarantine.Cleanup.Restore` | active_messages/quarantine.py:451-465 | whatever happens meanwhile, the payload is returned only while the name is free, or stays where it is, and the reason for putting it back, or what went wrong doing so, is reported |
| `Quarantine.Cleanup.Conclude` | active_messages/quarantine.py:468-484 | an operation without a payload is cleared and counts nothing |
| `Quarantine.Cleanup.Recover` | active_messages/quarantine.py:487-520 | settles every listed operation in order and starts nothing; one result for every payload returned, each with a problem; when it keeps none of them, none of them holds a payload; with nothing interfering it does exactly the specified recovery |
| `Quarantine.Cleanup.Reclaim` | active_messages/quarantine.py:523-538 | starts nothing while a recovered operation is kept; a new removal begins only with nothing held, as long as the listing was not cut off; reports exactly the bytes proven removed, and every payload returned contributes a problem: with none reported nothing was returned and whatever was moved aside was reclaimed |
| `Quarantine.Cleanup.Sweep` | active_messages/retention.py:816-862 | over any number of runs and crashes the bytes reported never exceed the sizes proven removed, and equal them when every run ended in order |
| `Quarantine.RecoverySettlesAll` | active_messages/quarantine.py:487-520 | after one undisturbed recovery every operation is gone or kept for a stated reason |
| `Quarantine.RecoveryIsAFixedPoint` | active_messages/quarantine.py:487-520 | recovering a settled quarantine again changes nothing |
| `Quarantine.KeptExactly` | active_messages/quarantine.py:400-448 | an undisturbed settlement keeps a payload, untouched and reported with its reason, if and only if there is a reason; otherwise its operation is gone |
| `Quarantine.SettledExactly` | active_messages/quarantine.py:400-465 | what becomes of a payload when nothing interferes, and exactly what is reported: another inode, a second link, other content or a refusal sends it back with that as its reason, or it stays because its name is taken; authority may keep it pending; only its own, single-link and allowed payload is deleted, its size counted |
| `Quarantine.QuietRemovalExactly` | active_messages/quarantine.py:311-380 | with nothing interfering the name is freed, its object unlinked and its whole size reported if and only if it is allowed, a single-link file of the expected content, and its token is new; otherwise nothing changes |
| `Quarantine.LeftInPlaceExactly` | active_messages/quarantine.py:311-380 | exactly why an undisturbed removal leaves the file: refused, not a regular file, a second link, other content, or a token already taken, in that order |
| `Quarantine.WaitsForAllExactly` | active_messages/quarantine.py:205-216 | for any number of operations of the name: no quarantine with so many lets a reclaim start a removal while one of them holds a payload if and only if the listing has room for all of them |
| `Quarantine.RemovedBesideHeld` | active_messages/quarantine.py:523-538 | for every number past that bound, a quarantine in which the reclaim removes the new file while an unlisted operation keeps its payload |
| `Heartbeat.RecordIsLossless` | active_messages/heartbeat.py:376-391 | the eight-entry windowed record counts exactly as the complete history does, up to eight |
| `Heartbeat.CrashVerdictIsLossless` | active_messages/heartbeat.py:472-475 | over any number of restarts the crash-loop verdict equals the verdict on the complete history of unclean starts |
| `Recorder.SoundIsValid` | active_messages/heartbeat.py:187-267 | the recorder's document is accepted exactly when its deadline is representable and no execution is left over from before the first pass |
| `Recorder.HistoryShape` | active_messages/heartbeat.py:376-391 | the starts a new process records are in order, in the window and at most eight, even after the clock went back |
| `Recorder.HistoryTells` | active_messages/heartbeat.py:376-391 | what a new process records of the one before, in each case exactly, and that only after an end without a stop it counts earlier starts, those of the document that lie in the window |
| `Recorder.DocumentCarriesHistory` | active_messages/heartbeat.py:376-391 | a document hands its chain's record on, and a stop, a loss or a broken document starts a fresh one |
| `Recorder.Recorder.Cycle` | active_messages/heartbeat.py:408-419 | every cycle publishes a valid document, despite backward clocks and saturated counters, leaves the process and its crash history alone, and counts the passes, the last result in a row and its failures as they were |
| `Recorder.Recorder.Rendering` | active_messages/heartbeat.py:421-427 | a render is published exactly when its deadline is a representable time |
| `Recorder.Recorder.RecordStop` | active_messages/heartbeat.py:429-435 | a stop is published exactly when a pass has completed or none was rendering |
| `Recorder.Pause` | active_messages/worker.py:289-295 | waits the whole time in slices of at most half a second unless a stop is seen, and then no longer than the slices before it |
| `Recorder.RunForever` | active_messages/worker.py:298-330 | every save validates, every pass without progress is followed by a wait, never more than ten run without one, the counters are of exactly the passes that ran, and the file shows what it showed or a document of this process with its history |
| `Recorder.RunProcesses` | active_messages/heartbeat.py:367-399 | any number of processes on one file, each starting from what the last one left or what befell it: what each found, left, published, and whether it stopped in order |
| `Recorder.ChainCarries` | active_messages/heartbeat.py:376-399 | the document left carries exactly the record of the processes that published one, each with how it found the one before to have ended |
| `Recorder.VerdictOverProcesses` | active_messages/heartbeat.py:472-475 | over any number of such processes the crash-loop verdict of whoever reads the file is the verdict on the complete history of unclean starts |
| `Recorder.VerdictAtTheFile` | active_messages/heartbeat.py:472-475 | a document that carries the record of a chain of processes gives the verdict of the chain's complete history |
| `Recorder.StopWhileFirstRendering` | active_messages/heartbeat.py:429-435 | called outside the loop, a stop during the first render is refused and the file goes on showing the render |
| `Verdicts.VerdictTable` | active_messages/heartbeat.py:456-506 | for every valid document and instant: critical exactly when it is stopped, three starts are in the window, a render is past its deadline, a non-rendering beat is over a minute old, or three passes failed in a row; else a warning exactly for one or two failures, a block, twelve passes behind a lock, or an unreadable predecessor; else ok |
| `Verdicts.ConditionTable` | active_messages/heartbeat.py:456-506 | which condition is named, exactly when, for every condition |
| `Verdicts.TroubleIsCounted` | active_messages/heartbeat.py:408-419 | the recorder's counters tell the verdict exactly whether the last three passes failed, the last one failed or was blocked, or the last twelve found the lock held |
| `Verdicts.ObserveDoes` | active_messages/supervision.py:103-137 | a broken document is critical whoever wrote it; without a known process nothing is said; a missing or foreign document is excused for ninety seconds and then critical; else the verdict is the document's |
| `Verdicts.ProbeDoes` | monitoring/services/probes.py:184-244 | what one poll writes: the unit's state first, then an observer's failure, then the observation, with a restart since the previous poll making a healthy worker a warning |
| `Verdicts.DeadIsCritical` | monitoring/services/probes.py:184-244 | a worker whose own document is read is written critical exactly when it is dead, and ok exactly when nothing troubles it |
| `Verdicts.TrustedExactly` | active_messages/diagnostics.py:427-490 | the reader trusts an entry, its reason bound to a heartbeat or not, if and only if some poll writes it, or writes one whose warning it may hold back as this one |
| `Verdicts.BelievedIsFound` | active_messages/diagnostics.py:427-490 | what is believed of an entry is what the poll found: the process is verified exactly when its own document was read, and the heartbeat is missing, foreign, broken, stale or current as it was |
| `Diagnostics.RoundingKeepsBounds` | active_messages/heartbeat.py:440-448 | rounding an age to a tenth never crosses a bound that is a whole number of tenths |
| `Diagnostics.VerdictIsAssessed` | active_messages/diagnostics.py:501-536 | the verdict on a valid heartbeat is always among the reasons its rounded reading allows, and ok exactly for the ok ones; which verdict it is, is `Verdicts.VerdictTable` and `Verdicts.ConditionTable` |
| `Diagnostics.ProducerIsAccepted` | active_messages/diagnostics.py:427-490 | the reader accepts whatever the producer writes, and calls the identity verified only for a valid document of the running process |
| `Diagnostics.AcceptedIsProducible` | active_messages/diagnostics.py:501-580 | for every bound reading the reader accepts, "restarted" included, there is a valid heartbeat and an instant that produce it |
| `Diagnostics.AcceptedExactly` | active_messages/diagnostics.py:539-580 | some valid heartbeat produces a bound reading if and only if the reader accepts it and its age was rounded to a tenth |
| `EngineCommands.ScanIsTheQueue` | isadoraair/engine_commands.py:81-88 | the sorted scan of the directory is the abstract queue in publish order |
| `EngineCommands.DirectoryIsABoundedFifo` | isadoraair/engine_commands.py:136-302 | over every run what was published is what was taken followed by the queue: taken from the head only, each once, nothing evicted, never above the bound |
| `EngineCommands.CleaningSparesWriters` | isadoraair/engine_commands.py:91-99 | cleaning never removes the temporary of a writer at work |
| `EngineCommands.QueueDoes` | isadoraair/engine_commands.py:136-302 | in every reachable directory: which number a writer chooses and when it is turned away, what a scan takes of the queue and that it waits for writers, and that consuming takes the head |
| `EngineCommands.PublishedExactly` | isadoraair/engine_commands.py:174-200 | in every run, a renamed entry joins the scan and is then waiting or taken in every continuation if and only if the newest entry left it twenty digits when it was chosen; otherwise it stays in the directory for ever, in no scan and never taken |
| `EngineCommands.PayloadIsDelivered` | isadoraair/engine_commands.py:174-200 | from its rename on, in every continuation, an entry holds the payload its writer chose, and when it was taken that payload was read |
| `EngineCommands.WhatIsPublishedIsDelivered` | isadoraair/engine_commands.py:174-200 | with the 64-bit clock of the code, in every run of fewer than 10^20 - 2^63 choices every renamed entry joins the end of the scan and is waiting or taken in every continuation |
| `EngineCommands.ScanCommitted` | isadoraair/engine_commands.py:81-88 | entry by entry the loop collects and sorts exactly the committed entries |
| `EngineCommands.CleanStaleTemps` | isadoraair/engine_commands.py:91-99 | the loop removes exactly the private temporaries |
| `OwnershipScan.PageContinues` | active_messages/retention.py:457-475 | each keyset page continues where the last ended, and a short page is the end of the table |
| `OwnershipScan.TrackReferences` | active_messages/retention.py:446-475 | the paged loop reads every row exactly once and returns every reference in table order, or names the first column in table order that cannot be resolved |
| `OwnershipScan.ReferencesByLocation` | active_messages/retention.py:478-526 | one scan answers every location, each reference once for each time the location is listed, or names the first column that cannot be resolved |
| `OwnershipScan.BatchedIsSingleExactly` | active_messages/retention.py:478-487 | the batched answer equals the single one if and only if the location is listed once or nothing refers to it |
| `OwnershipScan.ListedTwiceDiffers` | active_messages/retention.py:488-523 | one Track and one location listed twice: the single scan finds one reference, the batched one answers it twice |
| `TrackGuard.ReachableGuarded` | active_messages/track_guard.py:157-193 | over every interleaving, Tracks recreated under any free id included, only a Track with the id of the deleted one can refer to a file removed or about to be |
| `TrackGuard.GuardDoes` | active_messages/track_guard.py:157-193 | the guard admits a write under the lock exactly while the file is there; the cleanup is granted a file exactly when nothing can own it, and removes that one only |
| `TrackGuard.RemovalIsFinalExactly` | active_messages/retention.py:629-692 | once the cleanup is granted a file, no continuation ever shows a reference to it after its removal if and only if no lock-free write judged for it is still to run |
| `TrackGuard.OnlyTheSnapshotDangles` | active_messages/retention.py:629-692 | whatever happens, a removed file never comes back and no Track but one with the deleted Track's id can refer to it |
| `TrackGuard.RecreatedTrackDangles` | library/models.py:336-347 | a run in which a judged write lands on a Track created again under the id, after the file was removed |
| `TrackGuard.LockFreeNeverCreates` | active_messages/track_guard.py:157-193 | the lock-free exception never creates a row, and changes one exactly when its judged write is still to run and a row has the publication's Track id |
| `Schedule.AssignmentCovers` | authz/evaluator.py:258-282 | the loop answers whether yesterday's, today's or tomorrow's window covers the instant |
| `Schedule.ThreeAnchorsSuffice` | authz/evaluator.py:258-282 | within the bound the three anchors answer for every calendar day |
| `Schedule.FourthAnchorMissed` | authz/evaluator.py:258-282 | past the bound some instant is covered by a day the three anchors miss |
| `Schedule.ThreeAnchorsExactly` | authz/evaluator.py:258-282 | three anchors equal the search over every day, at every instant, if and only if the allowances stay within the bound |
| `Schedule.CheckSchedule` | authz/evaluator.py:285-317 | allowed exactly for an active covering assignment; inactive, none and outside are told apart |
| `Schedule.ScheduledAccessExactly` | authz/evaluator.py:325-415 | without a bypass an enforced capability may be exercised exactly by an active account holding it through a role while an active assignment's window covers the instant |
| `Schedule.AuthorizeExactly` | authz/evaluator.py:325-415 | every decision and exactly when it is given: identity, then possession, which is enough where no schedule is asked about, then the calendar |

## Left out

- Composition.BuildIgnoresReadingOrder: the refusal of a snapshot of more than 32 KiB is not modelled; 24 components reach it only with producer names of many multi-byte characters, and the services then roll back as they do for too many components.
- ExactlyOnce.DueMessageIsAired: assumes, for the same reason, that the snapshot of the eligible set is within that size.
- Guarantees.OneItemPerProcess: does not bound how many decks a process opens for the one LogItem: a continuation is allowed, exactly as `Guarantees.HandedAgainExactly` says.
- Diagnostics.ProducerIsAccepted: JSON types, missing keys and which field a refusal blames are not modelled; the model starts from an entry with the right keys and types.
- Heartbeat.CrashVerdictIsLossless: counts the processes that published a document; one that never could write leaves no trace of its start, in the code as in `Recorder.RunProcesses`.
- Recorder.RunForever: time is real-valued, so floating-point rounding of sums of timestamps is not modelled.
- Quarantine.Cleanup.Sweep: after an error escapes a recovery, or a crash, the bytes of that run are not reported at all, so the total is then a bound and not an equality, as in the code.
- TrackGuard.RemovalIsFinalExactly: path resolution is not modelled; a write is taken as what its literal path resolves to, and expressions, which the guard refuses, do not occur.
- OwnershipScan.TrackReferences: the table does not change between two pages of one scan, and a path that can be looked up can also be resolved.
- EngineCommands.DirectoryIsABoundedFifo: payload validation and size limits, and errors of single system calls other than leaving the lock, are not modelled.
- Schedule.ScheduledAccessExactly: windows are compared in wall-clock time, so daylight-saving folds are not modelled; dates are unbounded integers.
- Operator alerts, log text, display columns and all event rows except those that decide something (request tokens, reconciliation records, applied airings).
- Optimistic revision tokens of drafts, capability lookups (one boolean per actor) and content-type administration (facts given to each call).
- The compare-and-write match of the row writer: under the locks modelled here it always matches.
- Rendering, media validation, hashing, waveforms and the copying of bytes into the library: a publication appears with the mix it was read from, or does not.
- Publication and render back-off delays: they only postpone steps that are already optional.
- StartUp.StartUpSettles: where the worker ends an airing between start-up's look at its evidence and its own end of it, the code raises and start-up stops there; the model's step then changes nothing and goes on.
- The deck's duration ledger: its terminal state, clean end and times are inputs of the evidence step.
- Orphan and aggregate sweeps, retirement eligibility and the read-only reconciler: classification over the same facts.
