# Verified model of the native Windows protocols

This project models the journaled state machines of the native Windows components and proves what they keep
through crashes, restarts, stale owners and retries:

- **Update admission broker** (`AdmissionProtocol`, `AdmissionState`, `AdmissionSteps`, `AdmissionPreservation`,
  `AdmissionSettlement`, `AdmissionRuns`, `AdmissionHistory`, `AdmissionAnswers`, `AdmissionCore`): phases open, closing
  and sealed, participants with issue and settlement counters, permits keyed `participant.sequence`, owner generations.
- **Service attempt ledger and import transaction** (`AttemptState`, `AttemptSteps`, `AttemptLedger`, `AttemptRuns`,
  `AttemptAnswers`, `ImportRuntime`, `ImportCancellation`, `ImportTransactionRuntime`, `ImportOutcomes`): shared
  and exclusive reservations, the attempt phase machine, restart demotion, and one-shot publication over two durable records.
- **A/B slot update** (`UpdateTransactionJournal`, `UpdateTransactionStore`, `UpdateTransactionRuns`,
  `UpdateTransactionPath`): a transaction journal and a separately published slot selection.
- **Update worker request journal** (`WorkerJournal`, `WorkerRuns`, `WorkerAnswers`, `UpdateWorkerCore`): idempotent requests and recovery.
- **Alias clearing** (`StaleTunnelAlias`, `StaleAliasRecovery`): a redo journal over two state files.
- **Encoders and streams** (`CommandLine`, `ReleaseIdentity`, `ReleaseDecoding`, `ReleaseSchema`, `ServiceOutput`):
  argument quoting, the release identity encoding, bounded output with cursors.

Objects whose methods update fields are classes; each method is proved against a function of the old state, and the
properties are proved of those functions and of whole runs. A run is any sequence of calls with any arguments in which
every save may fail or the process may end at any disk operation. Disks are abstract: a stage is created new, publishing
moves it into place, and each step may be the last one that happens. SHA-256 is taken to be injective, so the digest of a
record is represented by the record itself. Fresh GUIDs, process liveness, native effects, path comparison and evidence
objects are parameters of the steps. The modules ending in `Answers`, `Outcomes` and `Path` say, in terms of what is on
record and what was presented, exactly when each operation acts and what it then changes.

Where a natural property fails, the exact condition is proved:

- `Reopen` on a valid sealed record with 256 finished transactions builds a record that the re-read rejects
  (`ReopenCanBeRejected`); it is valid exactly below 256 (`ReopenKeepsValidExactly`), and no reachable record gets there.
- A stage left by a crash of the slot store (`StageCanBeLeft`) is never completed: recovery refuses whenever one is present,
  and from then on nothing on file changes (`StageHoldsTheStore`).
- The phases in which the slot journal calls a start safe are phases its own validation refuses without evidence, so the
  worker is held by any transaction on file (`GateOpensExactlyWhenQuiet`).
- A cancellation on file does not always stop a publication (`CancelledAfterCommitStillPublishes`). It fails to exactly when
  the commit came first: a cancelled publish was past its commit (`CancelledPublishWasCommitted`), and past the commit no
  other ledger call stops it (`PublishesExactlyWhenCommitted`).
- The quoted program name is read back exactly when it holds no quotation mark and does not end in a backslash
  (`ProgramReadsBackExactly`), because the rules for the first argument know no escapes.

`dafny verify dfyconfig.toml` verifies the project.

## Model

| member | source | states |
|---|---|---|
| `AdmissionProtocol.ParseOfDecimal` | native/update-admission-broker/AdmissionProtocol.cs:63-69 | every 64-bit position survives being printed and read back |
| `AdmissionProtocol.DecimalOfParse` | native/update-admission-broker/AdmissionProtocol.cs:63-69 | every accepted position text is the one text of its value, so the two conversions are inverse bijections |
| `AdmissionProtocol.LastDotSplits` | native/update-admission-broker/AdmissionCore.cs:207-208 | the last dot of a permit id separates participant from sequence, however many dots the participant id holds |
| `AdmissionProtocol.PermitIdInjective` | native/update-admission-broker/AdmissionCore.cs:180 | a permit id names one participant and one sequence |
| `AdmissionProtocol.KeyedIsPermitId` | native/update-admission-broker/AdmissionCore.cs:112-115 | the record keys that reading the file accepts are exactly the ids the broker writes |
| `AdmissionState.CheckFinished` | native/update-admission-broker/AdmissionCore.cs:85-92 | the loop accepts exactly bounded, well-formed, repetition-free finished lists that agree with the phase |
| `AdmissionState.CheckMembers` | native/update-admission-broker/AdmissionCore.cs:97-104 | the loop accepts exactly the valid participant tables, identities unique |
| `AdmissionState.CheckPermits` | native/update-admission-broker/AdmissionCore.cs:105-116 | the loop accepts exactly the permit tables whose keys, owners and ranges are right |
| `AdmissionState.CheckCounts` | native/update-admission-broker/AdmissionCore.cs:117-121 | the loop accepts exactly the tables whose record counts equal the windows |
| `AdmissionState.Parse` | native/update-admission-broker/AdmissionCore.cs:69-124 | the whole check accepts a record if and only if it satisfies the declarative invariant |
| `AdmissionState.EveryOutstandingHasRecord` | native/update-admission-broker/AdmissionCore.cs:105-121 | pigeonhole: range and count checks force a record for every outstanding sequence |
| `AdmissionState.EveryRecordIsOutstanding` | native/update-admission-broker/AdmissionCore.cs:112-116 | every record lies in its window, under the one key of its sequence |
| `AdmissionPreservation.RegisterKeepsValid` | native/update-admission-broker/AdmissionCore.cs:152-163 | a registration written from a valid state is valid again |
| `AdmissionPreservation.GrantKeepsValid` | native/update-admission-broker/AdmissionCore.cs:189-196 | a granted permit keeps the whole invariant, window bound included |
| `AdmissionPreservation.SettleKeepsValid` | native/update-admission-broker/AdmissionCore.cs:215-225 | settling and compacting keeps the whole invariant for any settlement order |
| `AdmissionPreservation.RetireKeepsValid` | native/update-admission-broker/AdmissionCore.cs:229-238 | removing a participant leaves a valid state |
| `AdmissionPreservation.QuiesceKeepsValid` | native/update-admission-broker/AdmissionCore.cs:240-250 | quiescing keeps the invariant: no held permit loses its active owner |
| `AdmissionPreservation.CloseKeepsValid` | native/update-admission-broker/AdmissionCore.cs:257-270 | closing keeps the invariant |
| `AdmissionPreservation.SealKeepsValid` | native/update-admission-broker/AdmissionCore.cs:272-280 | sealing keeps the invariant |
| `AdmissionPreservation.RecoverKeepsValid` | native/update-admission-broker/AdmissionCore.cs:282-291 | owner recovery keeps the invariant |
| `AdmissionPreservation.ReopenKeepsValidExactly` | native/update-admission-broker/AdmissionCore.cs:293-306 | reopening keeps the invariant if and only if fewer than 256 transactions had finished |
| `AdmissionPreservation.ReopenCanBeRejected` | native/update-admission-broker/AdmissionCore.cs:293-306 | a concrete valid sealed state whose reopening the re-read rejects |
| `AdmissionSettlement.SettleChangesOnePermit` | native/update-admission-broker/AdmissionCore.cs:200-227 | compaction refines the uncompacted model: a settle changes the abstract status of exactly the named permit |
| `AdmissionSettlement.GrantChangesOnePermit` | native/update-admission-broker/AdmissionCore.cs:175-198 | a grant turns exactly the next permit from unissued to working |
| `AdmissionSettlement.OnlyActiveMembersHaveWork` | native/update-admission-broker/AdmissionCore.cs:235 | with fronts held, a participant that is not active has nothing outstanding |
| `AdmissionSettlement.RetireRefusesWorkExactlyWhenActive` | native/update-admission-broker/AdmissionCore.cs:234-235 | the outstanding-work half of the retirement check never decides |
| `AdmissionSettlement.SealedTableIsEmpty` | native/update-admission-broker/AdmissionCore.cs:276-277 | a sealed state with fronts held has an empty permit table |
| `AdmissionRuns.WriteIsValidExactly` | native/update-admission-broker/AdmissionCore.cs:131-145 | every write of every operation is valid, with the one exception of a 257th finished transaction |
| `AdmissionRuns.WriteKeepsCompacted` | native/update-admission-broker/AdmissionCore.cs:216-225 | every write leaves each participant with nothing outstanding or its first outstanding record held |
| `AdmissionRuns.ReachableIsSound` | native/update-admission-broker/AdmissionCore.cs:131-145 | every record any run publishes is valid, compacted and within the finished bound |
| `AdmissionRuns.DrainedUntilReopen` | native/update-admission-broker/AdmissionCore.cs:272-306 | after a drain receipt, through recoveries and late registrations, nothing is held or active until a reopening |
| `AdmissionRuns.QuiescedUnderThisClose` | native/update-admission-broker/AdmissionCore.cs:240-291 | a participant present at a close was quiesced under that close's epoch before it stopped being active |
| `AdmissionRuns.SupersededIsPowerless` | native/update-admission-broker/AdmissionCore.cs:252-306 | no owner operation of a superseded transaction and generation writes anything |
| `AdmissionRuns.FormerOwnerIsFenced` | native/update-admission-broker/AdmissionCore.cs:252-306 | over whole runs: once displaced, an owner's later calls never change the record |
| `AdmissionRuns.GenerationCountsRecoveries` | native/update-admission-broker/AdmissionCore.cs:282-291 | over whole runs: while a transaction stays named, its generation rises by exactly the owner recoveries taken |
| `AdmissionRuns.GenerationSinceClose` | native/update-admission-broker/AdmissionCore.cs:262-291 | after a close the generation is one more than the recoveries taken since |
| `AdmissionRuns.EachTransactionClosesOnce` | native/update-admission-broker/AdmissionCore.cs:262-268 | no transaction moves the broker from open to closing twice in a run |
| `AdmissionRuns.ReopeningsAreFinished` | native/update-admission-broker/AdmissionCore.cs:301-304 | the finished list counts the reopenings of the run exactly |
| `AdmissionRuns.AtMost256Finish` | native/update-admission-broker/AdmissionCore.cs:263-264 | at most 256 transactions ever finish |
| `AdmissionHistory.IssuedCountsGrants` | native/update-admission-broker/AdmissionCore.cs:189-196 | the issue counter is the number of grants the participant was ever given |
| `AdmissionHistory.GrantsAreSequential` | native/update-admission-broker/AdmissionCore.cs:189-196 | permits are granted in the order 1, 2, 3, ... per participant |
| `AdmissionHistory.PermitIdsAreGrantedOnce` | native/update-admission-broker/AdmissionCore.cs:180-196 | no permit id is granted twice in a run, whoever asks |
| `AdmissionHistory.DoneMeansSettled` | native/update-admission-broker/AdmissionCore.cs:200-227 | a permit is done in the abstract view exactly when an earlier successful settle named it |
| `AdmissionAnswers.ReadsExactly` | native/update-admission-broker/AdmissionCore.cs:69-124 | reading accepts a state if and only if its header is in order, its members are distinct and within their windows, there is one record for each outstanding permit and no other, and a sealed state is at rest |
| `AdmissionAnswers.RegisterAnswer` | native/update-admission-broker/AdmissionCore.cs:152-163 | registering is idempotent for an identity; a new one is taken in if and only if there is room |
| `AdmissionAnswers.RegisterTakesIn` | native/update-admission-broker/AdmissionCore.cs:160-161 | a new member starts active while the broker is open and quarantined otherwise, with nothing issued |
| `AdmissionAnswers.EnterAnswer` | native/update-admission-broker/AdmissionCore.cs:175-197 | a permit is entered if and only if the broker is open and it is the next one of an active participant of the caller |
| `AdmissionAnswers.PromoteAnswer` | native/update-admission-broker/AdmissionCore.cs:174-197 | a job is promoted if and only if before the seal, under a held permit of the same participant that is no job |
| `AdmissionAnswers.SettleAnswer` | native/update-admission-broker/AdmissionCore.cs:204-225 | a held permit is settled if and only if its own caller proves, bound to its id, that the job is empty and released for a job, that the operation settled for any other kind |
| `AdmissionAnswers.SettledOnRecord` | native/update-admission-broker/AdmissionCore.cs:212-215 | a permit settled but still on record is confirmed on the same proof only |
| `AdmissionAnswers.SettledAndGone` | native/update-admission-broker/AdmissionCore.cs:205-211 | a permit whose record is gone is confirmed if and only if it is done and its own caller presents a settling proof bound to it |
| `AdmissionAnswers.RecordsComeFromGrants` | native/update-admission-broker/AdmissionCore.cs:175-198 | over runs: every record is that of a granting call, with the kind it asked for |
| `AdmissionAnswers.DoneWasProven` | native/update-admission-broker/AdmissionCore.cs:200-227 | over runs: a permit that reads as done was granted, and later settled by the proof for the kind it was granted with |
| `AdmissionAnswers.QuiesceAnswer` | native/update-admission-broker/AdmissionCore.cs:240-250 | a member is quiesced if and only if its own caller proves it for the present epoch and it holds no permit |
| `AdmissionAnswers.RetireAnswer` | native/update-admission-broker/AdmissionCore.cs:229-238 | a member is retired if and only if its own end is proved, it is not active and nothing of it is outstanding |
| `AdmissionAnswers.CloseAnswer` | native/update-admission-broker/AdmissionCore.cs:257-270 | what a close needs and all it changes |
| `AdmissionAnswers.SealAnswer` | native/update-admission-broker/AdmissionCore.cs:272-280 | a drain receipt is given if and only if the owner in charge asks and nothing is held or active |
| `AdmissionAnswers.RecoverAnswer` | native/update-admission-broker/AdmissionCore.cs:282-291 | a successor takes over if and only if one generation on, with proof that the present owner ended |
| `AdmissionAnswers.ReopenAnswer` | native/update-admission-broker/AdmissionCore.cs:293-306 | a sealed broker reopens if and only if its owner presents the accepted disposition; everyone is active again |
| `AdmissionAnswers.NobodyQuarantinedWhenOpen` | native/update-admission-broker/AdmissionCore.cs:293-306 | over runs: an open broker has no quarantined member |
| `AdmissionCore.Core.Start` | native/update-admission-broker/AdmissionCore.cs:26-37 | a leftover stage, a missing record or an invalid one refuses the start, and nothing else does |
| `AdmissionCore.Core.Save` | native/update-admission-broker/AdmissionCore.cs:131-145 | the files, the refusal and the poisoning that each store failure leads to |
| `AdmissionCore.Core.Register` | native/update-admission-broker/AdmissionCore.cs:152-163 | the method carries out the registration decision, whatever the store does |
| `AdmissionCore.Core.Enter` | native/update-admission-broker/AdmissionCore.cs:173 | the method carries out a grant without parent |
| `AdmissionCore.Core.Promote` | native/update-admission-broker/AdmissionCore.cs:174 | the method carries out a grant under a held parent |
| `AdmissionCore.Core.Add` | native/update-admission-broker/AdmissionCore.cs:175-198 | the shared grant method carries out the grant decision |
| `AdmissionCore.Core.Settle` | native/update-admission-broker/AdmissionCore.cs:200-227 | the method with the watermark loop carries out the settlement decision |
| `AdmissionCore.Core.Advance` | native/update-admission-broker/AdmissionCore.cs:218-224 | the watermark loop computes the compaction function |
| `AdmissionCore.Core.RetireParticipant` | native/update-admission-broker/AdmissionCore.cs:229-238 | the method carries out the retirement, and retires the principal exactly on success |
| `AdmissionCore.Core.Quiesce` | native/update-admission-broker/AdmissionCore.cs:240-250 | the method carries out the quiescing decision |
| `AdmissionCore.Core.Close` | native/update-admission-broker/AdmissionCore.cs:257-270 | the method carries out the closing decision |
| `AdmissionCore.Core.Seal` | native/update-admission-broker/AdmissionCore.cs:272-280 | the method carries out the sealing decision |
| `AdmissionCore.Core.RecoverOwner` | native/update-admission-broker/AdmissionCore.cs:282-291 | the method carries out the owner recovery |
| `AdmissionCore.Core.Reopen` | native/update-admission-broker/AdmissionCore.cs:293-306 | the method carries out the reopening |
| `AdmissionCore.CarriedOutIsTransition` | native/update-admission-broker/AdmissionCore.cs:131-145 | whatever the store does, a call is one transition of the run model |
| `AdmissionCore.ReparseNeverRejects` | native/update-admission-broker/AdmissionCore.cs:131-145 | from a reachable record no save is refused for what it would write |
| `AttemptState.Load` | native/windows-containment-helper/ServiceAttemptLedger.cs:101-132 | the loading loop accepts exactly the arrays with valid, distinct, mutually compatible records, and demotes the launched ones |
| `AttemptState.SnapshotsReload` | native/windows-containment-helper/ServiceAttemptLedger.cs:101-132 | every snapshot of a valid table loads again, to the same table with launched attempts unknown |
| `AttemptState.RestartKeepsLedger` | native/windows-containment-helper/ServiceAttemptLedger.cs:119-129 | demotion keeps the table valid, reservations included |
| `AttemptState.Snapshot` | native/windows-containment-helper/ServiceAttemptLedger.cs:439-463 | the snapshot lists every attempt exactly once |
| `AttemptSteps.EveryPlanIsGood` | native/windows-containment-helper/ServiceAttemptLedger.cs:134-380 | every call from every valid ledger persists only valid ledgers, each climbing from the one before |
| `AttemptSteps.GlobalExcludesAll` | native/windows-containment-helper/ServiceAttemptLedger.cs:382-387 | while one attempt holds the global key, every other is released and ended |
| `AttemptSteps.GlobalBlocksOthers` | native/windows-containment-helper/ServiceAttemptLedger.cs:145-210 | so no other attempt is dispatched and no new one enters until it lets go |
| `AttemptLedger.Ledger.Open` | native/windows-containment-helper/ServiceAttemptLedger.cs:101-132 | start-up succeeds exactly when the array loads and any needed save works; what it loads and what is on file afterwards |
| `AttemptLedger.Ledger.Persist` | native/windows-containment-helper/ServiceAttemptLedger.cs:439-463 | the method carries out its plan under every store outcome: what is on file and whether the ledger still answers after each kind of save |
| `AttemptLedger.Ledger.Prepare` | native/windows-containment-helper/ServiceAttemptLedger.cs:134-151 | the method carries out its plan under every store outcome: new attempt, repeat or conflict |
| `AttemptLedger.Ledger.TryCommitDispatch` | native/windows-containment-helper/ServiceAttemptLedger.cs:153-169 | the method carries out its plan under every store outcome: dispatch is given out once, under the prepared operation digest |
| `AttemptLedger.Ledger.MarkRunning` | native/windows-containment-helper/ServiceAttemptLedger.cs:171-184 | the method carries out its plan under every store outcome: a dispatched attempt becomes running with its process id |
| `AttemptLedger.Ledger.AbortBeforeLaunch` | native/windows-containment-helper/ServiceAttemptLedger.cs:186-216 | the method carries out its plan under every store outcome: an attempt that never launched is recorded so and released |
| `AttemptLedger.Ledger.MarkJobCollision` | native/windows-containment-helper/ServiceAttemptLedger.cs:218-234 | the method carries out its plan under every store outcome: a job name collision ends the attempt unlaunched |
| `AttemptLedger.Ledger.MarkUnknown` | native/windows-containment-helper/ServiceAttemptLedger.cs:236-250 | the method carries out its plan under every store outcome: a launched attempt becomes unknown and keeps its reservation |
| `AttemptLedger.Ledger.RecordTerminal` | native/windows-containment-helper/ServiceAttemptLedger.cs:252-280 | the method carries out its plan under every store outcome: a terminal outcome is recorded once and repeats must agree |
| `AttemptLedger.Ledger.ReleaseReservation` | native/windows-containment-helper/ServiceAttemptLedger.cs:282-295 | the method carries out its plan under every store outcome: a reservation is dropped only after the attempt ended and holds no import |
| `AttemptLedger.Ledger.AcquireImport` | native/windows-containment-helper/ServiceAttemptLedger.cs:297-311 | the method carries out its plan under every store outcome: the reservation becomes global and exclusive if nothing conflicts |
| `AttemptLedger.Ledger.RequestCancellation` | native/windows-containment-helper/ServiceAttemptLedger.cs:313-328 | the method carries out its plan under every store outcome: the cancellation is persisted first, the release second |
| `AttemptLedger.Ledger.CheckImport` | native/windows-containment-helper/ServiceAttemptLedger.cs:339-362 | the method carries out its plan under every store outcome: which imports may validate |
| `AttemptLedger.Ledger.CommitPublication` | native/windows-containment-helper/ServiceAttemptLedger.cs:344-354 | the method carries out its plan under every store outcome: the publication mark is persisted once, never after a cancellation |
| `AttemptLedger.Ledger.CompleteImport` | native/windows-containment-helper/ServiceAttemptLedger.cs:364-380 | the method carries out its plan under every store outcome: the hold is cleared, then the reservation of an ended attempt released |
| `AttemptRuns.ReachableIsValid` | native/windows-containment-helper/ServiceAttemptLedger.cs:101-132 | every reachable file is a valid ledger, and an answering ledger equals its file |
| `AttemptRuns.HeldReservationsNeverConflict` | native/windows-containment-helper/ServiceAttemptLedger.cs:382-387 | no two held reservations ever conflict, through all calls, failures and restarts |
| `AttemptRuns.StoredAttemptsClimb` | native/windows-containment-helper/ServiceAttemptLedger.cs:153-328 | stored phases only climb, marks stay, and a reservation goes only after the attempt ended |
| `AttemptRuns.DispatchedAtMostOnce` | native/windows-containment-helper/ServiceAttemptLedger.cs:153-169 | an attempt is given out for dispatch at most once in a run |
| `AttemptRuns.NoDispatchUnderGlobalKey` | native/windows-containment-helper/ServiceAttemptLedger.cs:282-311 | while the global key is held on file no other attempt is given out |
| `AttemptRuns.RestartGoesThroughTheFile` | native/windows-containment-helper/ServiceAttemptLedger.cs:101-132 | over runs: every array that lists the stored table loads, and to exactly the table the run goes on with, launched attempts unknown, reservations kept |
| `AttemptRuns.Reopen` | native/windows-containment-helper/ServiceAttemptLedger.cs:101-132 | starting over the file is the restart step of the run model, for every outcome of its save |
| `AttemptAnswers.SameKeyExactly` | native/windows-containment-helper/ServiceAttemptLedger.cs:382-387 | keys are the same if and only if they differ at most in the case of letters |
| `AttemptAnswers.MeetingReservationsAreShared` | native/windows-containment-helper/ServiceAttemptLedger.cs:382-387 | over runs: two held attempts whose keys are the same, or one of them the machine-wide key, both share |
| `AttemptAnswers.PrepareAnswer` | native/windows-containment-helper/ServiceAttemptLedger.cs:134-151 | a valid new request is refused as busy if and only if a held attempt of the same or the machine-wide key does not share with it, and is otherwise held as prepared |
| `AttemptAnswers.PrepareAgain` | native/windows-containment-helper/ServiceAttemptLedger.cs:140-144 | the same request again is answered with its record, any other of that id refused |
| `AttemptAnswers.AbortAnswer` | native/windows-containment-helper/ServiceAttemptLedger.cs:209-214 | an abort of an attempt never prepared leaves a record that cannot launch, unless someone keeps it out |
| `AttemptAnswers.AbortOfKnown` | native/windows-containment-helper/ServiceAttemptLedger.cs:193-207 | an abort of a known attempt takes effect in the prepared phase alone, for its own caller, key and digest |
| `AttemptAnswers.DispatchAnswer` | native/windows-containment-helper/ServiceAttemptLedger.cs:153-169 | a dispatch is granted if and only if the attempt is prepared, the caller its own and the digest the prepared one |
| `AttemptAnswers.RunningAnswer` | native/windows-containment-helper/ServiceAttemptLedger.cs:171-184 | what starts an attempt running and what repeats it |
| `AttemptAnswers.CollisionAnswer` | native/windows-containment-helper/ServiceAttemptLedger.cs:218-234 | when a job name collision ends an attempt unlaunched, and what happens to its reservation |
| `AttemptAnswers.UnknownAnswer` | native/windows-containment-helper/ServiceAttemptLedger.cs:236-250 | when an attempt becomes unknown |
| `AttemptAnswers.TerminalAnswer` | native/windows-containment-helper/ServiceAttemptLedger.cs:252-280 | when an end is recorded, what is recorded of it, and which repeats agree |
| `AttemptAnswers.ReleaseAnswer` | native/windows-containment-helper/ServiceAttemptLedger.cs:282-295 | a reservation is given back if and only if its attempt ended and no import holds it |
| `AttemptAnswers.AcquireAnswer` | native/windows-containment-helper/ServiceAttemptLedger.cs:297-311 | an import gets the machine if and only if its attempt is launched, held and uncancelled and no other attempt holds anything |
| `AttemptAnswers.CancellationAnswer` | native/windows-containment-helper/ServiceAttemptLedger.cs:313-328 | what a cancellation marks, ends and releases |
| `AttemptAnswers.PublicationAnswer` | native/windows-containment-helper/ServiceAttemptLedger.cs:339-362 | a publication may be committed if and only if launched, held for the import, not cancelled and not committed |
| `AttemptAnswers.CompletionAnswer` | native/windows-containment-helper/ServiceAttemptLedger.cs:364-380 | completing clears the import hold, and gives the reservation back when the attempt has ended |
| `AttemptAnswers.OrdinaryLife` | native/windows-containment-helper/ServiceAttemptLedger.cs:134-295 | an undisturbed attempt is prepared, dispatched, run, ended and released, all others untouched |
| `AttemptAnswers.RecordedShape` | native/windows-containment-helper/ServiceAttemptLedger.cs:470-488 | over runs: which particulars come with which phase on record |
| `AttemptAnswers.RecordedRequest` | native/windows-containment-helper/ServiceAttemptLedger.cs:422-437 | over runs: what every recorded attempt was asked for |
| `AttemptAnswers.FailedSaveAnswer` | native/windows-containment-helper/ServiceAttemptLedger.cs:439-468 | a change whose save fails is refused, and the ledger answers no more |
| `AttemptAnswers.SilentUntilRestart` | native/windows-containment-helper/ServiceAttemptLedger.cs:439-468 | over runs: from then on nothing changes and every call is refused until a restart |
| `ImportRuntime.PublishesOnlyPastBothMarks` | native/windows-containment-helper/ServiceImportTransactionRuntime.cs:93-107 | the native publish step runs only with the ledger mark and the intent record both on file, and for the first time |
| `ImportRuntime.PublishesAtMostOnce` | native/windows-containment-helper/ServiceImportTransactionRuntime.cs:83-112 | through crashes, retries and restarts at any point the native step runs at most once per attempt |
| `ImportRuntime.NoPublishAfterEarlierCancellation` | native/windows-containment-helper/ServiceAttemptLedger.cs:344-362 | every publish was committed earlier, and no cancellation had been recorded up to that commit |
| `ImportCancellation.CancelledPublishWasCommitted` | native/windows-containment-helper/ServiceAttemptLedger.cs:313-362 | an attempt that publishes with its cancellation on file was past its commit when the cancellation was |
| `ImportCancellation.PublishesExactlyWhenCommitted` | native/windows-containment-helper/ServiceImportTransactionRuntime.cs:97-107 | with any other ledger calls in between, cancellations included, the publish step runs if and only if the commit came before them |
| `ImportCancellation.CancelledAfterCommitStillPublishes` | native/windows-containment-helper/ServiceAttemptLedger.cs:313-362 | a concrete run: committed, then cancelled on file, then published |
| `ImportRuntime.PublishedOnlyWhatWasDone` | native/windows-containment-helper/ServiceImportTransactionRuntime.cs:108-147 | over runs: a record comes to say published, by inspection or command, only from the intent, in place, after an earlier native step, and nothing else changes |
| `ImportRuntime.ReservationKeptUntilPublished` | native/windows-containment-helper/ServiceImportTransactionRuntime.cs:68-111 | the import hold stays until the publication is on record and in place |
| `ImportRuntime.NextKeeps` | native/windows-containment-helper/ServiceImportTransactionRuntime.cs:50-147 | every step of every command keeps record files, ledger and native effect consistent |
| `ImportTransactionRuntime.Runtime.PrepareImport` | native/windows-containment-helper/ServiceImportTransactionRuntime.cs:66-82 | the command takes exactly the modelled steps under every failure, and runs no native publish |
| `ImportTransactionRuntime.Runtime.PublishImport` | native/windows-containment-helper/ServiceImportTransactionRuntime.cs:83-112 | the command takes exactly the modelled steps; a record past the prepared phase is only inspected |
| `ImportTransactionRuntime.Runtime.InspectEntry` | native/windows-containment-helper/ServiceImportTransactionRuntime.cs:123-147 | inspection takes exactly its two steps and runs no native publish |
| `ImportTransactionRuntime.Runtime.CommitIntent` | native/windows-containment-helper/ServiceAttemptLedger.cs:344-354 | ledger mark first, intent record second |
| `ImportTransactionRuntime.CommandsKeepConsistency` | native/windows-containment-helper/ServiceImportTransactionRuntime.cs:50-121 | any sequence of command steps keeps the invariant of the run model |
| `ImportOutcomes.PrepareOutcome` | native/windows-containment-helper/ServiceImportTransactionRuntime.cs:66-82 | with nothing failing, preparing takes the machine and files the record if and only if the attempt may have it; else nothing changes |
| `ImportOutcomes.PublishOutcome` | native/windows-containment-helper/ServiceImportTransactionRuntime.cs:83-112 | with nothing failing, publishing runs the native step if and only if the attempt may publish; then the record says published, the mark is on file and the import hold is cleared |
| `ImportOutcomes.InspectOutcome` | native/windows-containment-helper/ServiceImportTransactionRuntime.cs:123-147 | inspecting an intent whose stage is in place records it and clears the hold, with no native step |
| `ImportOutcomes.OthersPublishNothing` | native/windows-containment-helper/ServiceImportTransactionRuntime.cs:63-86 | a prepared record is published only for its own caller and arguments |
| `ImportOutcomes.OthersCompleteNothing` | native/windows-containment-helper/ServiceImportTransactionRuntime.cs:123-147 | nobody but its owner completes a record by looking, and not before its stage is in place |
| `UpdateTransactionJournal.AdvanceClimbs` | native/update-worker/UpdateTransactionJournal.cs:389-417 | every allowed advance moves strictly forward |
| `UpdateTransactionStore.Store.Publish` | native/update-worker/UpdateTransactionStore.cs:226-235 | a journal record is staged, moved and read back, stopping where the disk stops |
| `UpdateTransactionStore.Store.PublishSlot` | native/update-worker/UpdateTransactionStore.cs:237-247 | the same for a selection |
| `UpdateTransactionStore.Store.InitializeSelection` | native/update-worker/UpdateTransactionStore.cs:45-52 | the first selection is published only into an empty store |
| `UpdateTransactionStore.Store.PersistTransaction` | native/update-worker/UpdateTransactionStore.cs:54-69 | a journal record is published only as the exact successor of the one on file, agreeing with the selection |
| `UpdateTransactionStore.Store.SelectCandidateSlot` | native/update-worker/UpdateTransactionStore.cs:71-82 | the candidate is selected only under the journal record named |
| `UpdateTransactionStore.Store.SelectPreviousSlot` | native/update-worker/UpdateTransactionStore.cs:84-95 | the previous slot is selected only under the journal record named |
| `UpdateTransactionStore.Store.RecoverPublications` | native/update-worker/UpdateTransactionStore.cs:97-149 | looking succeeds exactly when no stage is left, the pair is not ambiguous and it agrees; it never writes |
| `UpdateTransactionRuns.NextKeeps` | native/update-worker/UpdateTransactionStore.cs:45-95 | every call, with any arguments and any disk failure, keeps the link between journal and selection |
| `UpdateTransactionRuns.PhaseAndSlotAgree` | native/update-worker/UpdateTransactionStore.cs:172-198 | journal phase and active slot agree in every reachable state though selecting never looks |
| `UpdateTransactionRuns.NothingCommitsWithoutEvidence` | native/update-worker/UpdateTransactionJournal.cs:381-417 | no run reaches a committed, health-verified or rollback-verified phase |
| `UpdateTransactionRuns.OneTransactionPerStore` | native/update-worker/UpdateTransactionStore.cs:200-224 | a store carries one transaction for ever, its fixed fields unchanged, its phase climbing, its revision at most 17 |
| `UpdateTransactionRuns.StageHoldsTheStore` | native/update-worker/UpdateTransactionStore.cs:97-141 | a stage left behind is never completed or removed, and nothing changes after it |
| `UpdateTransactionRuns.StageCanBeLeft` | native/update-worker/UpdateTransactionStore.cs:237-247 | a concrete run that leaves a stage behind |
| `UpdateTransactionRuns.HeldForEver` | native/update-worker/UpdateTransactionStore.cs:97-141 | every run that starts so has the same files ever after, and no selection |
| `UpdateTransactionRuns.RollbackRestoresThePriorSlot` | native/update-worker/UpdateTransactionJournal.cs:163-187 | from every reachable state without a stage at most three steps make exactly the slot, digest and data generation active that were so before the transaction |
| `UpdateTransactionRuns.CreatedIsAccepted` | native/update-worker/UpdateTransactionJournal.cs:249-267 | a transaction created over the published selection is accepted as the first |
| `UpdateTransactionRuns.CandidateBecomesActive` | native/update-worker/UpdateTransactionStore.cs:71-82 | in the selection phase the candidate can be made active, repeatedly, and the journal then advances |
| `UpdateTransactionRuns.ReachablePairAgrees` | native/update-worker/UpdateTransactionStore.cs:172-198 | in reachable states the agreement half of recovery never refuses |
| `UpdateTransactionPath.AdvanceFollowsTheWays` | native/update-worker/UpdateTransactionJournal.cs:389-417 | an advance is allowed if and only if it is the next place of the way forward or back, or turns back, or gives the way back up |
| `UpdateTransactionPath.RevisionIsThePlace` | native/update-worker/UpdateTransactionJournal.cs:269-284 | over runs: on the way forward the revision is the place of the phase, one to nine, so none was skipped |
| `UpdateTransactionPath.WentThroughEveryPhase` | native/update-worker/UpdateTransactionJournal.cs:402-410 | over runs: every earlier phase of the way forward was on file before, in order |
| `UpdateTransactionPath.CandidateOnlyAfterQuiescing` | native/update-worker/UpdateTransactionStore.cs:71-82 | over runs: whenever the candidate is active, quiescing and the tunnel stop were intended and done before, in order |
| `UpdateTransactionPath.SlotFitsThePhase` | native/update-worker/UpdateTransactionStore.cs:172-198 | over runs: which slot is active in which phase, spelled out |
| `UpdateTransactionPath.PersistsExactly` | native/update-worker/UpdateTransactionStore.cs:54-69 | a further record is accepted if and only if it is the next revision of the one on file, naming it, by a proper owner, along the ways, with the slot its phase needs |
| `UpdateTransactionPath.NextPhaseIsAccepted` | native/update-worker/UpdateTransactionStore.cs:54-69 | from each place of the way forward the next phase is accepted, given the slot it needs |
| `UpdateTransactionPath.StartsExactly` | native/update-worker/UpdateTransactionStore.cs:200-212 | a first record is accepted if and only if it continues the selection on file |
| `UpdateTransactionPath.CandidateSelectsExactly` | native/update-worker/UpdateTransactionStore.cs:71-82 | the candidate is selected if and only if the record on file intends it and both digests are named |
| `UpdateTransactionPath.PreviousSelectsExactly` | native/update-worker/UpdateTransactionStore.cs:84-95 | the previous slot is selected if and only if the record on file intends it and both digests are named |
| `UpdateTransactionPath.EnrollsExactly` | native/update-worker/UpdateTransactionStore.cs:45-52 | a first selection is taken if and only if the store is empty and the selection its own |
| `UpdateTransactionPath.AmbiguousExactly` | native/update-worker/UpdateTransactionStore.cs:143-149 | a pair is ambiguous if and only if an intended selection is already the active one |
| `UpdateWorkerCore.Core.Execute` | native/update-worker/Journal.cs:88-187 | the command method computes the reply and the files for every point at which the disk may stop |
| `UpdateWorkerCore.Core.Request` | native/update-worker/Journal.cs:156-183 | the request branch: repeats answered from the record, new requests taken in hand and ended |
| `UpdateWorkerCore.Core.FinishJournal` | native/update-worker/Journal.cs:190-197 | the terminal record is built and committed |
| `UpdateWorkerCore.Core.CommitJournal` | native/update-worker/Journal.cs:198-202 | stage, then publish |
| `WorkerRuns.ExecutedKeeps` | native/update-worker/Journal.cs:88-202 | every command keeps the journal and its stage in step, and receipts are only appended |
| `WorkerRuns.RevisionCountsRecords` | native/update-worker/Journal.cs:171-196 | revision is twice the history length plus one in hand and plus two when ended; the generation lies between, both bounded |
| `WorkerRuns.RequestsKeepTheirTransaction` | native/update-worker/Journal.cs:53-63 | a request id is bound to one transaction, release and policy for the whole run |
| `WorkerRuns.RequestsAreIdempotent` | native/update-worker/Journal.cs:158-183 | all answers to one request id name the same transaction, through crashes |
| `WorkerRuns.RepeatIsAnsweredFromTheRecord` | native/update-worker/Journal.cs:158-167 | a request on record is answered from it and writes nothing |
| `WorkerRuns.GateOpensExactlyWhenQuiet` | native/update-worker/Journal.cs:97-132 | the slot update lets a command through exactly when it has no stage and no transaction at all |
| `WorkerRuns.SafeMeansSettled` | native/update-worker/Journal.cs:88-187 | "safe to start" implies no stage file, no slot update and no request in hand |
| `WorkerRuns.RecoverySettlesExactly` | native/update-worker/Journal.cs:133-155 | with the disk working, recovery settles the journal if and only if nothing else is pending, no stage is torn and the owner may adopt |
| `WorkerRuns.TornStageHoldsForEver` | native/update-worker/Journal.cs:133-144 | over runs: after a torn stage the journal never changes again and no reply is safe |
| `WorkerAnswers.NewRequestAnswer` | native/update-worker/Journal.cs:156-183 | a new request is taken in hand and ended, with exactly its receipt, if and only if it names the position on record, the record may be taken over and there is room; else nothing changes |
| `WorkerAnswers.RepeatAnswer` | native/update-worker/Journal.cs:158-167 | an id on record is answered if and only if release and policy agree; nothing changes |
| `WorkerAnswers.BusyAnswer` | native/update-worker/Journal.cs:156-157 | while a request is in hand every other is told so and nothing changes |
| `WorkerAnswers.StatusAnswer` | native/update-worker/Journal.cs:146-148 | looking says safe if and only if nothing stands in the way |
| `WorkerAnswers.RecoveryEndsTheRequest` | native/update-worker/Journal.cs:149-155 | recovery ends the request in hand if and only if its owner may be taken over, keeping request and transaction |
| `WorkerAnswers.CapabilitiesAnswer` | native/update-worker/Journal.cs:95-96 | capabilities tell the position and change nothing |
| `WorkerAnswers.UpdateInTheWayAnswer` | native/update-worker/Journal.cs:97-132 | what is told while a slot update is on file, and that nothing is done |
| `WorkerAnswers.StageInTheWayAnswer` | native/update-worker/Journal.cs:133-136 | a leftover stage is only for recovery |
| `StaleTunnelAlias.StateDirectory.ClearAlias` | native/windows-containment-helper/StaleTunnelAlias.cs:133-217 | the method computes files and result for every number of writes before a crash |
| `StaleTunnelAlias.StateDirectory.Redo` | native/windows-containment-helper/StaleTunnelAlias.cs:204-213 | journal, aliases, processes, removal, skipping what is in place |
| `StaleAliasRecovery.ClearedEntries` | native/windows-containment-helper/StaleTunnelAlias.cs:195-198 | clearing drops the one alias and keeps every other entry with its value |
| `StaleAliasRecovery.WithoutAt` | native/windows-containment-helper/StaleTunnelAlias.cs:195-198 | the remaining entries keep their order |
| `StaleAliasRecovery.ReachableIsIntact` | native/windows-containment-helper/StaleTunnelAlias.cs:199-213 | while the journal exists each file is exactly old or exactly new, and processes never lead |
| `StaleAliasRecovery.ForeignContentStays` | native/windows-containment-helper/StaleTunnelAlias.cs:355-359 | files that are neither old nor new are never written over, however many calls of any kind follow |
| `StaleAliasRecovery.RecoveryCompletesExactly` | native/windows-containment-helper/StaleTunnelAlias.cs:166-217 | from any interrupted state an undisturbed call ends with both files new and the journal gone if and only if it is a bare recovery or the repeated original request; any other is refused and changes nothing |
| `StaleAliasRecovery.InterruptionsDoNotShow` | native/windows-containment-helper/StaleTunnelAlias.cs:154-217 | after any interruption of the clearing and any interrupted calls of any kind, one resuming call ends exactly where the uninterrupted clearing does |
| `StaleAliasRecovery.RetryIsEnough` | native/windows-containment-helper/StaleTunnelAlias.cs:169-172 | repeating the interrupted request is such a call |
| `StaleAliasRecovery.DoneStays` | native/windows-containment-helper/StaleTunnelAlias.cs:176-192 | once done, no request of any kind changes the files |
| `StaleAliasRecovery.FreshRequestAnswer` | native/windows-containment-helper/StaleTunnelAlias.cs:160-217 | a fresh request clears the alias if and only if it names the files and, in them, the alias, its tunnel, its process and its profile |
| `StaleAliasRecovery.NothingWithoutProof` | native/windows-containment-helper/StaleTunnelAlias.cs:203 | while the bound process is not proved gone no call changes any file or says it cleared anything |
| `StaleAliasRecovery.LiveProcessIsRefused` | native/windows-containment-helper/StaleTunnelAlias.cs:203 | whatever would be cleared were the process gone is refused for that reason alone |
| `StaleAliasRecovery.ChangedOnlyWithProof` | native/windows-containment-helper/StaleTunnelAlias.cs:203-213 | over runs: a call that changed a file had the process proved gone |
| `CommandLine.Quote` | native/windows-containment-helper/ContainedProcess.cs:279-289 | the loop computes the escaping function |
| `CommandLine.Command` | native/windows-containment-helper/ContainedProcess.cs:152-158 | the joined line, refused exactly for a NUL or excessive length |
| `CommandLine.EscapedReadsBack` | native/windows-containment-helper/ContainedProcess.cs:279-289 | reading escaped text by the documented rules gives the argument and stops at its end |
| `CommandLine.SplitInvertsJoined` | native/windows-containment-helper/ContainedProcess.cs:153-157 | every list of arguments is read back exactly: trailing backslashes, quotation marks, blanks and empty strings included |
| `CommandLine.ProgramReadsBackExactly` | native/windows-containment-helper/ContainedProcess.cs:152 | the program name is read back if and only if it holds no quotation mark and does not end in a backslash |
| `CommandLine.CommandReadsBack` | native/windows-containment-helper/ContainedProcess.cs:152-157 | program and arguments together are read back exactly |
| `ReleaseIdentity.SortedIsOrdered` | native/update-worker/ReleaseSchema.cs:84-85 | the fields are taken in ordinal order, each exactly once |
| `ReleaseSchema.EncodeReleaseIdentity` | native/update-worker/ReleaseSchema.cs:70-81 | encoding succeeds if and only if the release fits the schema and holds no integer |
| `ReleaseSchema.EncodeObject` | native/update-worker/ReleaseSchema.cs:82-97 | the stream writer appends exactly the encoding, or refuses |
| `ReleaseSchema.MemoryStream.WriteText` | native/update-worker/ReleaseSchema.cs:98-102 | length, then bytes |
| `ReleaseDecoding.DecodingInverts` | native/update-worker/ReleaseSchema.cs:82-107 | a decoder recovers every nested field, whatever bytes follow |
| `ReleaseDecoding.PrefixFree` | native/update-worker/ReleaseSchema.cs:82-107 | no encoding is a proper prefix of another |
| `ReleaseDecoding.EqualBytesExactlyWhenReordered` | native/update-worker/ReleaseSchema.cs:82-107 | two valid releases have equal bytes if and only if they differ only in field order |
| `ReleaseDecoding.OrderDoesNotMatter` | native/update-worker/ReleaseSchema.cs:84-92 | the bytes do not depend on input field order |
| `ReleaseDecoding.EncodesExactlyWithoutNumbers` | native/update-worker/ReleaseSchema.cs:90-95 | a valid release is encoded if and only if it holds no integer |
| `ReleaseDecoding.SmallReleaseBytes` | native/update-worker/ReleaseSchema.cs:82-107 | a small release byte by byte: marks, counts with the highest byte first, fields in ordinal order |
| `ReleaseDecoding.LabelBytes` | native/update-worker/ReleaseSchema.cs:79 | the label in front of every identity, ending in a zero byte |
| `ServiceOutput.BoundedOutput.Append` | native/windows-containment-helper/WindowsServiceProcessRuntime.cs:518-529 | the buffer stays the first bytes received up to the limit, truncated exactly beyond it; the result says whether the snapshot changed |
| `ServiceOutput.BoundedOutput.Snapshot` | native/windows-containment-helper/WindowsServiceProcessRuntime.cs:531-534 | the snapshot is exactly the kept prefix |
| `ServiceOutput.AppendedKeeps` | native/windows-containment-helper/WindowsServiceProcessRuntime.cs:518-529 | for every chunk the value form keeps the prefix and its flag is exact |
| `ServiceOutput.ReadOutput` | native/windows-containment-helper/WindowsServiceProcessRuntime.cs:243-256 | answered if and only if the cursor lies inside the snapshot; what lies before the cursor and the pieces together are the snapshot, and the next cursor stands at both ends |
| `ServiceOutput.CompletesOnce` | native/windows-containment-helper/WindowsServiceProcessRuntime.cs:243-256 | a read has only one right answer |
| `ServiceOutput.ReadsTileTheOutput` | native/windows-containment-helper/WindowsServiceProcessRuntime.cs:234-256 | however output is chunked, saved and read, the pieces read tile the kept prefix, and a read is never refused |
| `ServiceOutput.Sink.WriteDelta` | native/windows-containment-helper/WindowsContainmentServiceClient.cs:158-170 | the part beyond the offset is written; a shrunken output is refused and changes nothing |
| `ServiceOutput.WatchAll` | native/windows-containment-helper/WindowsContainmentServiceClient.cs:77-118 | over ever longer outputs the watcher is never refused and has written exactly the last one |
| `ServiceOutput.ShownGrows` | native/windows-containment-helper/WindowsServiceProcessRuntime.cs:234-242 | over runs: what is shown of a live attempt only grows, whether it comes from memory or from disk |
| `ServiceOutput.WatchAttempt` | native/windows-containment-helper/WindowsContainmentServiceClient.cs:77-118 | a watcher of a live attempt, at any moments of any run, has written exactly the kept prefix of all received by its last look |

## Left out

- File handles, ACLs, flushing and directory pinning of the stores: only create-new staging, compare-and-swap publishing and their failures are kept.
- JSON text, SHA-256, base64 and GUID generation: records are datatypes, digests are injective, minted ids are parameters required to be well formed and, for participants, new.
- Size limits of files (64 KiB journals, 4 MiB state files): a record is assumed to fit.
- Locks, timeouts and thread scheduling: each public method is one atomic step, except the import commands, whose steps interleave with every other ledger call.
- Native process control, job objects, tokens, impersonation, pipes and repository anchors: their outcomes are parameters.
- Release metadata verification, authorization and enrollment checks: long flat guard lists that would only add easy members.
- Linux host, OCR, desktop and command-line front ends: device and library plumbing.
- AdmissionState.Parse: decides acceptance, not which refusal code is reported, and starts from a decoded record, so field sets, schema and domain tags are not modelled.
- AdmissionCore.Core.Start: covers the ordinary start; the separate publication recovery of the broker, which never writes, has no member.
- AttemptState.Snapshot: the order of the stored array is arbitrary here, while the source sorts it by attempt id.
- AttemptRuns.StoredAttemptsClimb: speaks of the stored table; after a failed save the table in memory may be one step ahead of the file and is discarded at restart.
- AttemptSteps.GlobalExcludesAll: reservation keys are compared with ASCII case folding, while the source folds all of Unicode.
- AttemptLedger.Ledger.Open: the ledger without persistence, used only in isolation, has no member.
- ImportRuntime.PublishedOnlyWhatWasDone: the destination is observed through the set of stages the native step moved; someone else replacing the destination directory is not modelled.
- UpdateTransactionStore.Store.PublishSlot: as for the journal record below, a selection changed by others while the store holds its lock is not modelled.
- UpdateTransactionStore.Store.Publish: the moved file is read back as written; a file changed by others while the store holds its lock is not modelled.
- UpdateWorkerCore.Core.Execute: the refusals that end in an unverified reply share one reason.
- StaleTunnelAlias.StateDirectory.ClearAlias: nested duplicate names inside an entry and the order of fields inside an entry are not modelled; trimming removes ASCII blanks only.
- StaleAliasRecovery.ReachableIsIntact: others holding the state lock are taken to leave the files alone while a journal exists, as the owned-process stop does; what that stop writes has no member.
- CommandLine.Command: lengths count characters, while the source counts UTF-16 units.
- ReleaseSchema.EncodeReleaseIdentity: constants, patterns and formats of text fields only narrow what is valid and are not modelled; texts are printable ASCII, as validation requires.
- ServiceOutput.ReadsTileTheOutput: speaks of one live attempt; outputs evicted after completion are not modelled.
