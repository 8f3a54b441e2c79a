# Blender Box: a verified model of its durable protocols

This project models the parts of Blender Box in which several processes, crashes
and lost answers meet durable files, and proves what those files promise. Each
part is a set of records, the operations that replace them in place, and lemmas
over every run: every interleaving, every crash between two writes, every answer
of a host that need not be honest.

- **Host Run protocol** (`HostState`, `HostProtocol`, `HostInvariants`,
  `HostTheorems`, `HostPolling`, `HostReceipts`, `HostMaintenance`, `HostService`,
  `HostResume`, `HostRuns`, `HostCorners`). Acquire, Stage, Start, Settle, setup
  maintenance and the Run executor share one Host Lock file, per-Run receipts, Run
  roots, a pending request and two locks. `HostProtocol` is the step relation, one
  step per durable write or daemon answer; `HostService` is Settle as imperative code
  whose every write is shown to be such a step.
- **Installation checkpoint chain** (`InstallationChain`, `InstallationTheorems`,
  `InstallationSteps`, `InstallationDriver`). The checker of a hash-linked log of 15
  stages, the publisher that also compares a record with the client's files, what
  every chain conserves, the transitions the checker admits as one list that shares
  nothing with it, and the recovery driver that must satisfy both.
- **Proof controller** (`ControllerRecord`, `ProofController`, `ControllerLoads`,
  `ControllerCorners`). An execution record saved at many intermediate points, the
  predicate `load` demands of it, and start, status, stop and recover as methods
  that mutate it.
- **Linux setup** (`LinuxSetup`, `LinuxSetupTheorems`). Two artifacts installed
  under an ownership receipt, through temporaries that a rerun adopts.
- **Pairing** (`AuthorizedKeys`, `AuthorizedKeysTheorems`, `PairingClient`).
  Byte-exact grants and revokes on authorized_keys, and the write-once agreement
  of concurrent Prepare attempts.
- **Run client** (`RunnerJournal`). One recorded claim, one pinned Session, and
  every call a client makes under them.
- **UI actions** (`UIActions`), **evidence** (`Evidence`, `EvidenceTable`) and the
  **PNG check** (`PngScanner`, `PngFields`), the last after sections 3.2 and 4.1 of
  RFC 2083. `EvidenceTable` and `PngFields` say what is accepted a second time, as a
  table of files and as an encoder of chunks.

Where code changes state, the model is a class or a method with loops; checks
that only compute are functions. A failing file operation, an expired deadline
and an exception are all nondeterministic early returns. In `ProofController`,
`PairingClient`, `RunnerJournal` and `UIActions` every durable change is appended
to a `history`, so a statement about all of `history` is a statement about every
crash; each of the four has a method `Serve` that starts from an empty store and
takes any commands, with crashes or other processes at work in between, and shows
that what results is such a history. A class with a flag `calm` or `able` also says
what its methods do when nobody interferes and everything they ask of their
environment succeeds. `LinuxSetup` lists the changes of one application as a sequence
and cuts it anywhere.

## What is assumed

- Host: the operation and launch locks are mutexes, and one executor runs at a
  time. The daemon records an identity before it launches, at most one per Session
  name, and only while the executor is still inside its Start call: none appears
  after that call returned or the executor died (`HostTheorems.ReleasedRunStaysQuiet`
  rests on this). A confirmed Stop leaves that Session dead for good. While a Settle is
  between its recovery question and its probe of the launch lock, the executor
  does not let go of the launch lock by dying or timing out
  (`HostCorners.LaunchWindowMatters` shows the promise fails otherwise). An exclusive
  file creation is atomic.
- Installation chain: digests are injective. For the last theorem, the host's
  operations end in the expected state and the chain has room.
- Controller: the service is one unit, so "empty" means that no worker runs, and
  a worker publishes files only for its own attempt.
- Pairing and journal: `privatefile.Publish` is durable exclusive creation whose
  error says nothing about the file, `sshkey.Reserved` a seed created at most once.
- UI actions: a settlement may adopt a Session nobody published yet, mark a pending
  action uncertain, end the receipt and remove the lock; it never admits an action.

## Where the promise is narrower than it looks

- A Settle that crashed, however often, can be repeated, pin and all, after anything
  executor and daemon do in between, with two exceptions (`HostResume.RoundsFinish`,
  exactly then): the crash fell between the two writes that adopt a recovered Session of a
  Run past `starting` (`HostCorners.CrashedAdoptionIsStuck`), or the executor rolled
  the Run back although the lock already named its Session, which needs no crash:
  the write was reported as failed after its rename took effect
  (`HostCorners.RolledBackIsStuck`). No other write leaves a Run in that split state
  (`HostResume.SplitExactly`), no Settle finishes from it (`HostResume.SplitLasts`),
  and only Start, within the Run's deadline, repairs it (`HostResume.RepairResumes`).
- Nothing repairs a staging directory that holds something without an ownership
  record, as a crash inside Stage can leave it: the Run keeps the Host Lock for good
  (`HostCorners.CrashedStageIsStuck`, `HostResume.OrphanLasts`).
- The transition check alone admits `run-owned` twice more, because it compares only
  keys the old record has and a pairing can be added
  (`InstallationTheorems.ThreeRunOwned`; `InstallationTheorems.RunOwnedRepeats` says
  exactly how often). What stops that is the publisher: it also compares the Run's
  fingerprint with the client's files, and the fingerprint tells a paired target from
  an unpaired one. In published chains `run-owned` repeats at most once, to add the
  Session (`InstallationTheorems.PublishedRepeatsOnce`, exactly
  `InstallationTheorems.PublishedRepeats`).
- A recovery during which the Run's Session is first pinned after the first client
  command refuses its own cleanup proof and has to be repeated
  (`InstallationDriver.CleanupExactly`, exactly then with honest replies).
- Controller recovery saves a record its own `load` refuses exactly when
  `terminate` is the first to find that the attempt released nothing and the loaded
  record was `starting`, or was a first attempt of another variant than host-install
  (`ControllerCorners.LateProofIsTorn` reaches it); start does so exactly when the
  installation anchor cannot be created (`ControllerCorners.UnanchoredIsTorn`).
- A client whose Start failed after its receipt named a Session does not settle the
  Run: the Session is not pinned, and a settlement that names one must be pinned. With
  a quiet journal this and a host that contradicts claim or pin are the only reasons
  (`RunnerJournal.Client.Run`).
- Two different Linux plans, interrupted once each, can leave complete temporaries
  that neither plan adopts (`LinuxSetupTheorems.TwoPlansBlockEachOther`).
- All lines granted to an authorized_keys file end in the terminator it uses, except
  when it ends in a lone carriage return: closing it then changes the terminator for
  every grant but the first (`AuthorizedKeysTheorems.TerminatorShifts`, exactly then).

## Model

| member | source | states |
|---|---|---|
| HostInvariants.NextKeeps | internal/host/service.go:484-776 | every step of client, executor, daemon and crash keeps the invariant: an unstopped Session holds its lock, lock and receipt never name two Sessions, roots and staging are owned |
| HostInvariants.ScheduleKeeps | internal/host/service.go:181-1053 | the same over every schedule of all processes |
| HostTheorems.ReleasedRunStaysQuiet | internal/host/service.go:508-631 | once a Run's lock is gone, in every later state no Session of it is live or can start, its root and staging are gone, and it never holds the lock again |
| HostTheorems.OneUnstoppedSession | internal/host/service.go:181-259 | over the whole host at most one Session is unstopped, and it is the lock holder's |
| HostTheorems.IdentityNeverChanges | internal/host/service.go:917-966 | the Session in a lock goes from none to one value and stays until the lock goes |
| HostTheorems.ReleaseLasts | internal/host/service.go:208-259 | a released Run ID is never acquired again |
| HostTheorems.LateSettleLeavesNewerRun | internal/host/service.go:900-913 | a Settle of an older Run changes nothing of a newer one: at most its own receipt becomes clean and terminal |
| HostTheorems.ReplayAfterRelease | internal/host/service.go:1075-1113 | after a crash between lock removal and the final receipt, a repeated Settle still ends with all four flags |
| HostTheorems.MaintenanceIsExclusive | internal/host/maintenance.go:21-118 | the setup fence and the Host Lock never coexist, and no launch is in flight and no Session live while a maintenance action runs |
| HostMaintenance.MaintenanceFindsNothing | internal/host/maintenance.go:53-127 | as long as setup maintenance runs, in any interleaving, every Run has ended with all four flags and no lock, request, root or staging directory is left |
| HostTheorems.NextOnward | internal/orchestrator/runner.go:755-789 | each step returns no lock, changes no published identity, and lowers a receipt's rank exactly when a Stage is published over a later receipt |
| HostPolling.ReceiptsAdvance | internal/host/service.go:618-770 | with at most one Stage per Run, receipts only advance in rank and keep their claim and Session over every schedule |
| HostPolling.PollingAccepts | internal/orchestrator/runner.go:539-563 | any two receipts a polling client samples pass its transition and Session checks until the first terminal one |
| HostReceipts.StepMoves | internal/host/service.go:484-776 | which step of which process may move a receipt from which state to which; an end is kept, or becomes a failed cleanup with a Session nobody had recorded |
| HostReceipts.StepShows | internal/host/service.go:484-776 | a step that announces a state, a failure or a timeout leaves exactly that one on the receipt |
| HostReceipts.EndIsFinal | internal/host/service.go:1115-1126 | over every schedule with at most one Stage of the Run, complete, failed and timed out are final; only a Session that no receipt named turns them into a failed cleanup, and a complete Run with its Session stays complete |
| HostReceipts.CompleteRunPassed | internal/host/service.go:618-770 | over every schedule, a Run is complete only after it was started, its Session published, its Scenario called and its evidence collected, in this order |
| HostRuns.OrdinaryRun | internal/host/service.go:181-1053 | a schedule that reaches a complete Run, settled with all four flags |
| HostService.Service.Settle | internal/host/service.go:872-1053 | with an answering daemon and no launch in flight, Settle finishes exactly from `Settleable` states, then with all four flags, the lock, root and staging gone and every other Run untouched; a Run that had ended keeps its state, one that had not is failed, and only a Session found without a record makes it a failed cleanup; every write is a protocol step |
| HostService.Service.StopRun | internal/host/service.go:951-992 | the Session is found, adopted and stopped before the receipt says so, and the receipt keeps its state or becomes a failed cleanup; refused only by a silent daemon, a held launch lock or a foreign identity |
| HostService.Service.Adopt | internal/host/service.go:914-941 | the work starts from the stored receipt brought up to date with the lock, and the lock with the receipt |
| HostService.Service.RemoveRoot | internal/host/service.go:1160-1181 | the Run root is removed with its ownership record last, so a crash leaves it owned, empty or gone |
| HostService.Service.RemoveStaging | internal/host/service.go:1183-1203 | staging is removed unless it holds something without an ownership record |
| HostService.Service.Clear | internal/host/service.go:993-1053 | directories, lock and final receipt, in that order; an ended Run keeps its state, another is failed; refused exactly for an orphaned staging directory |
| HostResume.CrashPoints | internal/host/service.go:872-1053 | in any interleaving, a crash of Settle leaves a state that a repeated Settle can finish, except between the two writes that adopt a recovered Session |
| HostResume.PinIsChecked | internal/host/service.go:938-943 | over every schedule, a Settle past its authority checks works on the Session it was asked for |
| HostResume.ResumeAfterCrash | internal/host/service.go:914-966 | right after a crash the same request, pin included, can finish if and only if it did not fall there and the pin names the receipt's Session |
| HostResume.RepeatFinishes | internal/host/service.go:872-1053 | the same after any steps of executor and daemon, unless one of them is a rollback under a lock that names the Session |
| HostResume.RoundsFinish | internal/host/service.go:872-1053 | any number of Settles of one request may crash one after the other, each anywhere, with executor and daemon running on: the next can finish if and only if none of them lost the Run at those two places |
| HostResume.AlwaysSettleable | internal/host/service.go:872-1053 | after any schedule of all operations, crashes and daemon steps, a Settle of the claim can finish if and only if the Run is neither split nor orphaned |
| HostResume.UnspoiledStays | internal/host/service.go:181-1053 | which it never becomes over a schedule without the writes of `SplitExactly` and `OrphanedExactly` |
| HostResume.StaysSettleable | internal/host/service.go:593-616 | executor and daemon keep a Run settleable, under the same pin, exactly as long as they do not roll it back so |
| HostResume.SplitExactly | internal/host/service.go:606-616 | the lock comes to name a Session that a receipt past `starting` does not by Settle's adoption or by such a rollback, and by no other step of any process |
| HostResume.SplitLasts | internal/host/service.go:938-943 | from there no Settle finishes in any later state, whatever any process does, until Start repairs the receipt |
| HostResume.RepairResumes | internal/host/service.go:366-380 | Start repairs it exactly while the stored request exists, and then a Settle can finish |
| HostResume.OrphanedExactly | internal/host/service.go:262-341 | only Stage, while it writes or drops the ownership record, leaves a staging directory with something in it and no owner |
| HostResume.OrphanLasts | internal/host/service.go:1183-1203 | once its Stage is gone, such a directory stays and the Run keeps its lock, under every schedule |
| HostCorners.CrashedAdoptionIsStuck | internal/host/service.go:954-966 | the split state is reachable by a crash, and no Settle finishes from it until Start repairs it |
| HostCorners.RolledBackIsStuck | internal/host/service.go:606-616 | it is also reachable without a crash, by a lock write that takes effect and is reported as failed |
| HostCorners.CrashedStageIsStuck | internal/host/service.go:262-341 | a Stage that crashes inside a file replacement can leave a Run that no Settle ever finishes |
| HostCorners.LaunchWindowMatters | internal/host/service.go:954-978 | if the executor may drop the launch lock between the question and the probe, a Session goes live after its lock was released |
| InstallationChain.FindSettledPrior | scripts/proof_installation.py:168-172 | the unwrapping loop ends at the stage the nested records stand on |
| InstallationChain.ReadChain | scripts/proof_installation.py:342-368 | a directory is accepted exactly when it is a linked chain from the expected initial record, each record authorized and accepted after the one before |
| InstallationChain.AcceptedConserves | scripts/proof_installation.py:278-326 | one accepted transition keeps the record sound, the install intent and execution, the Run's claim and its first Session |
| InstallationSteps.AcceptsExactly | scripts/proof_installation.py:206-326 | after any sound record, nested validation and key-by-key comparison together admit exactly the listed transitions, each with what it adds and what it demands |
| InstallationSteps.ChainExactly | scripts/proof_installation.py:342-368 | the chains that are read are exactly those built of these transitions, by attempts that never go back |
| InstallationSteps.ProtectedExactly | scripts/proof_installation.py:389-413 | the publisher asks exactly that target, paired target and Run of the record are the files of the client, the Run started against the paired target if there is one |
| InstallationTheorems.ChainSound | scripts/proof_installation.py:206-275 | every record of an accepted chain has valid authority all the way down |
| InstallationTheorems.AuthorityIsConserved | scripts/proof_installation.py:162-179 | install intent, execution token, Run claim and pinned Session are the same in every later record |
| InstallationTheorems.RemovalFollowsRevocation | scripts/proof_installation.py:162-165 | every path from a record that may hold a pairing grant to a released removal passes through a revocation |
| InstallationTheorems.InstallKept | scripts/proof_installation.py:175-179 | once the installation is settled, every later record carries the same install record |
| InstallationTheorems.RemovalProven | scripts/proof_installation.py:255-275 | in every chain a removed record holds a settled removal and a host view with the task gone, the installation left, all foreign files and tasks as before, and a published target still there |
| InstallationTheorems.PublishedRepeatsOnce | scripts/proof_installation.py:389-429 | in a published chain `run-owned` repeats at most once, with the same pairing, to add the Session |
| InstallationTheorems.PublishedRepeats | scripts/proof_installation.py:389-429 | a published `run-owned` record can be repeated a given number of times if and only if that is none, or once with no Session yet and room in the chain |
| InstallationTheorems.PublishedTwice | scripts/proof_installation.py:389-429 | a published chain from the initial record with two `run-owned` records |
| InstallationTheorems.RunOwnedBound | scripts/proof_installation.py:278-326 | by the transition check alone, the `run-owned` records after one of them are at most what it has left to gain, a pairing and a Session, so never more than two |
| InstallationTheorems.PairedRunRepeatsOnce | scripts/proof_installation.py:278-326 | by the same check, with a pairing or a Session recorded `run-owned` repeats at most once in the rest of the chain |
| InstallationTheorems.RunOwnedRepeats | scripts/proof_installation.py:278-326 | the transition check admits a given number of repeats, by whichever attempts, if and only if the record has that much to gain and the chain has room |
| InstallationTheorems.ThreeRunOwned | scripts/proof_installation.py:278-368 | the chain reader accepts a chain from the initial record with three `run-owned` records, although no publisher writes it |
| InstallationDriver.InstallKnown | scripts/proof_installation.py:175-179 | past the release of the install, its intent and a status are on record under whatever was built on it |
| InstallationDriver.Installation.Advance | scripts/proof_installation.py:389-453 | the chain grows by the proposal, or the driver is broken, exactly as the transition check and the client's protected files decide; it stays a published chain |
| InstallationDriver.Installation.Observe | scripts/onboarding_proof.py:1240-1273 | status answers are recorded up to the first settled one, which is returned; only the execution on record is told to stop, for the first unsettled answer and whenever only its fence or launcher is left |
| InstallationDriver.Installation.OwnRun | scripts/proof_installation.py:575-586 | the Run of the client's journal is recorded once per change, and the record agrees with the client's files |
| InstallationDriver.VerifyRecovery | scripts/onboarding_proof.py:194-217 | the loop over three replies accepts exactly one Run under one fence and one Session, stopped, final and clean, and unchanged if it was complete |
| InstallationDriver.CleanupExactly | scripts/proof_installation.py:588-604 | a cleanup is believed if and only if every reply is of the Run and its pin, stop and last status prove it settled, and no Session was first pinned after the first command |
| InstallationDriver.Installation.CleanupRun | scripts/proof_installation.py:588-606 | seven readings around three commands end in a clean Run that keeps pairing and target, exactly if the replies prove it |
| InstallationDriver.Installation.ConvergePairing | scripts/proof_installation.py:563-569 | a stage that may hold a grant ends revoked, in the way the host reported, on the same installation |
| InstallationDriver.Installation.FinishRemoval | scripts/proof_installation.py:633-638 | a released removal ends at `removed` with the observed host view |
| InstallationDriver.Installation.RemoveInstallation | scripts/proof_installation.py:608-631 | removal is released, observed and finished within a fixed number of records, with or without a reply, and a lost reply is reported |
| InstallationDriver.Installation.VerifyInstallRepeat | scripts/proof_installation.py:640-662 | a released repeat is verified exactly by the same execution, target and final state |
| InstallationDriver.Installation.Recover | scripts/proof_installation.py:664-688 | from every stage of a published chain, with a cooperating host and room, every record proposed is admitted and recovery ends at `bound` or `removed` as the controller's settlement demands; it fails exactly when it lost the reply to its own removal |
| ControllerRecord.ReadableExactly | scripts/proof_controller.py:719-787 | a record the controller can reach is refused by `load` exactly for a missing anchor, or a termination claimed without invocation and without matching proof |
| ControllerLoads.LoadsExactly | scripts/proof_controller.py:719-787 | the records `load` accepts, phase by phase: which worker may be recorded in each and what must have been concluded |
| ControllerRecord.RecordedSafe | scripts/proof_controller.py:801-802 | saving the record in hand keeps every fleet invariant |
| ControllerRecord.LaunchedSafe | scripts/proof_controller.py:956-974 | a worker may start when none runs and its attempt is fresh |
| ControllerRecord.EvolvedSafe | scripts/proof_controller.py:789-799 | whatever a running worker publishes, the saved records stay consistent and readable |
| ProofController.Controller.Terminate | scripts/proof_controller.py:882-908 | success proves that no worker runs, by the exact worker or by a published proof, and changes nothing else; with an able service no recorded worker runs afterwards, and where none was left it succeeds exactly if one was recorded or the attempt published its startup failure |
| ProofController.Controller.Reconcile | scripts/proof_controller.py:988-1092 | every save is readable; if no worker runs when it returns, the record is terminated, closed and judged by the result, or failed without one; it starts no worker; with an able service an attempt whose worker is gone is concluded unless its result cannot be used |
| ProofController.Controller.ConcludeProof | scripts/proof_controller.py:1063-1092 | verdict, cleanup and retained Run are taken from the result, and the record settles exactly with proven cleanup |
| ProofController.Controller.ConcludeInstall | scripts/proof_controller.py:1038-1062 | an installation settles exactly with proven removal, keeps a pass only then, and a recovery never passes |
| ProofController.Controller.LaunchAttempt | scripts/proof_controller.py:949-986 | a higher attempt is saved before its worker, the worker before its authorization; every save is readable |
| ProofController.Controller.StopWorker | scripts/proof_controller.py:923-925 | the save after a proof first found here is unreadable exactly for an exposed record |
| ProofController.Controller.TornExactly | scripts/proof_controller.py:739-753 | that save is readable if and only if the loaded record was not exposed |
| ProofController.HandlerReadable | scripts/proof_controller.py:944-947 | what the handlers save is unreadable exactly for a first attempt, not host-install, proven to have released nothing |
| ProofController.Controller.Recover | scripts/proof_controller.py:910-947 | success ends settled or recovering; an unreadable record is saved only in the exposed case, and then if the save happens |
| ProofController.Controller.Start | scripts/proof_controller.py:809-862 | success means a running first attempt, with every other execution settled before; an unreadable record is saved if and only if the anchor cannot be created and the handler's save succeeds |
| ProofController.Controller.Dispatch | scripts/proof_controller.py:571-602 | outside the two gaps every command leaves only readable records, from any state a crash left; a stop or recovery that succeeds ends settled or recovering; a command starts at most one worker, of its own execution, a status none; the records of all other executions stay |
| ProofController.Serve | scripts/proof_controller.py:571-602 | from an empty root, any commands with crashes at any moment leave a sound history, with every record readable as long as no command met one of the two gaps |
| ControllerCorners.LateProofIsTorn | scripts/proof_controller.py:923-925 | the first gap is reachable: durable states from an empty root to the save of an unreadable termination |
| ControllerCorners.UnanchoredIsTorn | scripts/proof_controller.py:846-862 | the second gap is reachable: durable states from an empty root to a record with inputs and no anchor |
| ProofController.CrashedHistory | scripts/proof_controller.py:719-787 | a crash at any moment leaves a state the controller may start from, and the surviving history is sound |
| ProofController.OneWorker | scripts/proof_controller.py:819-845 | at every moment at most one worker runs, of the only open execution, in its current attempt, not recorded as terminated |
| ProofController.AttemptsIncrease | scripts/proof_controller.py:954-957 | no attempt is started twice and later starts have higher attempts |
| ProofController.NeverUndone | scripts/proof_controller.py:910-947 | closed and settled are never undone, attempts never go back, a failed verdict stays, the retained Run stays |
| ControllerLoads.SettledIsOver | scripts/proof_controller.py:910-947 | from every durable state in which an execution is settled, in all later ones it is closed, terminated, cleaned and judged, its worker published or proven never released, and no worker of it runs |
| ProofController.PassIsFirst | scripts/proof_controller.py:1047-1069 | a pass comes from attempt 1's own result |
| ProofController.InstallPassIsProven | scripts/proof_controller.py:1038-1062 | in every durable state, a host installation recorded as passed is cleaned, closed, terminated and settled |
| LinuxSetup.Target.WriteReceipt | internal/linux/setup.py:84-107 | an atomic write makes exactly the listed changes, or a prefix of them |
| LinuxSetup.Target.Apply | internal/linux/setup.py:225-291 | an application makes the changes `Steps` lists, cut off wherever it is interrupted, with the outcome `Result` |
| LinuxSetupTheorems.StepsOwned | internal/linux/setup.py:236-291 | at every durable change each artifact present has its hash in the receipt, as installed or as pending |
| LinuxSetupTheorems.OwnedForever | internal/linux/setup.py:236-291 | the same over any sequence of plans and interruptions |
| LinuxSetupTheorems.DriftedExactly | internal/linux/setup.py:253-262 | with a receipt, setup refuses as drifted, and then changes nothing, if and only if some artifact present has a hash that is neither installed nor pending |
| LinuxSetupTheorems.UnclaimedExactly | internal/linux/setup.py:239-256 | without a receipt, a foreign work root, an existing managed path or an unfinished first receipt is refused untouched |
| LinuxSetupTheorems.ResultExactly | internal/linux/setup.py:236-291 | setup never refuses its own work as drifted; a plan is applied exactly when it adopts every leftover temporary, and then receipt and artifacts are the plan's |
| LinuxSetupTheorems.RerunCompletes | internal/linux/setup.py:84-107 | however often a plan is interrupted, if the temporaries left are complete, one more application ends with the plan |
| LinuxSetupTheorems.TwoPlansBlockEachOther | internal/linux/setup.py:84-107 | two interrupted plans can leave complete temporaries that neither adopts |
| AuthorizedKeys.PhysicalLines | internal/pairing/keys.go:18-30 | the spans partition the bytes in order, each with the terminator it owns |
| AuthorizedKeys.RemoveLine | internal/pairing/keys.go:86-98 | exactly one matching line goes with its terminator, or nothing changes |
| AuthorizedKeys.ScanKeys | internal/pairing/keys.go:48-68 | the exact count of the line, and whether any other line holds key or marker |
| AuthorizedKeys.LinesAppend | internal/pairing/keys.go:18-30 | lines of a terminated part and of what follows it are read independently |
| AuthorizedKeysTheorems.FileIsOriginalAndGrants | internal/pairing/keys.go:70-98 | after any grants and revokes, whatever the file held, it is the original, closed at the first grant, followed by the lines in force in grant order, each with its terminator |
| AuthorizedKeysTheorems.OneTerminator | internal/pairing/keys.go:70-82 | these terminators are all the one the original uses, unless it ends in a lone carriage return |
| AuthorizedKeysTheorems.GrantThenRevoke | internal/pairing/keys.go:84-98 | a grant and its revoke restore the file, up to a missing final terminator |
| AuthorizedKeysTheorems.TerminatorStays | internal/pairing/keys.go:70-82 | granted lines never change the terminator in use |
| AuthorizedKeysTheorems.TerminatorShifts | internal/pairing/keys.go:70-82 | closing an unterminated file changes the terminator if and only if it ends in a lone carriage return and uses no CRLF |
| PairingClient.Attempt.Reserve | internal/pairing/preparation.go:44-70 | an attempt goes by the durable preparation, its own or another's for the same offer |
| PairingClient.Attempt.PrepareReserved | internal/pairing/preparation.go:79-133 | success means the durable intent carries the retained seed's key and its credential is published; undisturbed, it succeeds |
| PairingClient.Attempt.Prepare | internal/pairing/client.go:182-222 | success agrees with the durable intent for this offer, its expiry and the retained key, and saves no target; undisturbed, it succeeds exactly when nothing conflicts, whatever an interrupted attempt left |
| PairingClient.Attempt.Complete | internal/pairing/client.go:223-269 | success means this very receipt is durable, names the pair, operation, intent, key and connection of the intent, its credential exists and the target is saved; undisturbed, it succeeds exactly when they agree |
| PairingClient.Serve | internal/pairing/client.go:182-269 | of any requests, with other attempts at work, all that prepare were for one offer and return one intent, and all that complete hold one receipt for it |
| PairingClient.SuccessesAgree | internal/pairing/preparation.go:44-133 | any two successful attempts, however interleaved with others and crashes, were for the same offer and return the same intent |
| PairingClient.CredentialFollowsIntent | internal/pairing/preparation.go:105-132 | a credential exists only after the intent naming its key, and for no other key |
| PairingClient.OneReceipt | internal/pairing/client.go:240-251 | two different receipts never both complete a pairing |
| RunnerJournal.Client.Record | internal/orchestrator/journal.go:43-61 | the claim is recorded by exclusive creation; undisturbed, exactly when there is none |
| RunnerJournal.Client.Accept | internal/orchestrator/journal.go:93-127 | a receipt is believed only under the recorded claim and, once a Session is named, with it pinned; undisturbed, exactly when its Session is the pin or can be pinned |
| RunnerJournal.Client.Settlement | internal/orchestrator/journal.go:129-142 | authority to settle is the recorded claim and the pin as read, and a named Session must be the pin; undisturbed, exactly then |
| RunnerJournal.Client.SettleHost | internal/orchestrator/runner.go:791-802 | exactly one host Settle under that authority, or none because it is lost; success only if the host confirmed it |
| RunnerJournal.Client.RecoverReceipt | internal/orchestrator/runner.go:334-368 | whatever the host answers, only its own sound receipt of the recorded claim and the pinned Session is returned as recovered, and no mutating call is made; undisturbed, the verdict on every answer is the one `Judged` lists |
| RunnerJournal.Client.CollectEvidence | internal/orchestrator/runner.go:831-891 | one Fetch per file, each under exactly the pinned Session |
| RunnerJournal.Client.Run | internal/orchestrator/runner.go:426-599 | Acquire, Stage and Start at most once and in order, by the client that recorded the claim; success only for the last receipt the host answered, complete, under the pin, with a confirmed cleanup; whatever fails, the last call is a Settle unless the host contradicted claim or pin; undisturbed, no success only for the reasons `Unfinished` lists |
| RunnerJournal.Client.RunClaimed | internal/orchestrator/runner.go:499-598 | a Run that ended other than complete is never reported a success; undisturbed, one the host finished, soundly and in time, with a confirmed cleanup always is |
| RunnerJournal.Client.Poll | internal/orchestrator/runner.go:541-563 | the polled receipt is the last answer, under claim and Session; undisturbed, polling stops only at an end, at the deadline, or at a faulty answer |
| RunnerJournal.Client.Stop | internal/orchestrator/runner.go:371-408 | at most one Settle, and success only for the recorded claim, the pinned Session and a cleanup confirmed twice |
| RunnerJournal.Client.RecoverFailure | internal/orchestrator/uiaction.go:17-95 | a failed interactive Run is only fetched from and settled, the settlement last and confirmed |
| RunnerJournal.Serve | internal/orchestrator/runner.go:334-599 | of any requests on an empty journal, with other clients at work, the Run is acquired at most once, all calls carry one claim, and at most one success is reported, of a complete and cleaned up Run |
| RunnerJournal.OnePin | internal/orchestrator/journal.go:93-127 | across all clients at most one Session is ever pinned, under the one claim |
| RunnerJournal.RecordedOnce | internal/orchestrator/journal.go:43-61 | the claim is recorded at one moment only |
| RunnerJournal.CallsAgree | internal/orchestrator/runner.go:791-802 | all calls of all clients carry the same claim; Settle carries the pin, or none only if none was pinned; Fetch carries exactly the pin |
| UIActions.SettlementSafe | internal/host/service.go:980-992 | a settlement between two actions keeps the journal consistent and what was delivered counted |
| UIActions.Executor.Perform | internal/host/uiaction.go:200-229 | an action is performed only as the next one, durably pending, while lock and unsettled receipt are this Session's |
| UIActions.Executor.Deliver | internal/host/uiaction.go:195-252 | one action ends durably queued and counted, or the batch ends; the receipt is the actor's answer, uncertain if that cannot be its answer, rejected without an actor |
| UIActions.Executor.ExecuteBatch | internal/host/uiaction.go:158-263 | success means every action was performed and queued; undisturbed, anything else ends the Run with no action left pending |
| UIActions.Executor.Execute | internal/host/service.go:508-519 | a Run whose lock owns a Session is never executed again; undisturbed, an interrupted batch is failed with its pending action uncertain, an unstarted Run is completed, or ended with no action pending if something failed or an action was not queued, any other is left alone |
| UIActions.Serve | internal/host/service.go:484-519 | however often the executor runs and crashes, with settlements in between, what was performed is a prefix of the batch, and all of it once the Run is complete |
| UIActions.AtMostOnce | internal/host/uiaction.go:195-252 | over all crashes and restarts no action is performed twice or out of order |
| UIActions.PerformedUnderLock | internal/host/uiaction.go:195-229 | over all crashes, every action performed has a moment at which the lock and the unsettled receipt were this Session's and the journal announced this very action |
| UIActions.OutcomesStay | internal/uiaction/types.go:320-342 | over all crashes, an outcome once recorded is never changed, a pending action keeps its identity, and the lock is never taken back |
| UIActions.CompleteIsQueued | internal/orchestrator/runner.go:1155-1186 | a complete Run has every action queued, in order, with the events it declares |
| UIActions.PollingAccepts | internal/uiaction/types.go:320-342 | any receipts a polling client samples pass its batch check and its progress check |
| UIActions.CrashedHistory | internal/host/service.go:512-519 | after a crash at any moment execution resumes from a safe state and the surviving history is sound |
| Evidence.Plan | internal/orchestrator/plan.go:99-121 | the capture loop announces the planned paths, a window capture around a batch as two |
| Evidence.ValidateManifest | internal/orchestrator/runner.go:959-983 | accepted exactly with valid provenance per file, distinct path keys and bounded total |
| Evidence.ValidatePartial | internal/orchestrator/runner.go:1187-1210 | for schema 3, exactly the allowed paths pass |
| Evidence.ValidateRequired | internal/orchestrator/runner.go:895-932 | accepted exactly when every type occurs as often as the scenario wants |
| Evidence.ValidateEvidence | internal/orchestrator/runner.go:934-942 | the three together |
| Evidence.AcceptedPaths | internal/orchestrator/runner.go:895-942 | an accepted manifest of schema 2 or 3 has exactly the announced paths, the Scenario Result and the UI journal, each once |
| Evidence.AcceptedExactly | internal/orchestrator/runner.go:934-1043 | and a well-formed manifest with exactly these paths is accepted |
| EvidenceTable.AcceptedShape | internal/orchestrator/runner.go:934-942 | a manifest is accepted if and only if it is well formed by the table and has exactly the announced files, each once |
| EvidenceTable.ManifestExactly | internal/orchestrator/runner.go:959-983 | the manifest check accepts exactly 1 to 64 files of at most 64 MiB in all, no two the same on Windows, each in the table and of this Session |
| EvidenceTable.FileExactly | internal/orchestrator/runner.go:985-1043 | a file passes if and only if it is a row of the table, was taken in this Session, lies where its source path says and has 1 byte to 16 MiB |
| EvidenceTable.KeyExactly | internal/safepath/path.go:11-13 | two paths have one key if and only if they differ only in the case of ASCII letters |
| EvidenceTable.AnnouncedExactly | internal/orchestrator/plan.go:99-121 | the files expected of each Scenario, by name |
| PngScanner.ScanChunks | scripts/onboarding_proof.py:233-282 | the chunk loop accepts exactly the files that parse into admitted chunks with right checksums, and collects the image data in file order |
| PngScanner.CheckRows | scripts/onboarding_proof.py:283-291 | the inflated data is accepted exactly with all rows there and a known filter on each |
| PngScanner.VerifyPng | scripts/onboarding_proof.py:229-291 | the whole check accepts exactly what `Accepts` describes |
| PngScanner.ParseJoins | scripts/onboarding_proof.py:233-245 | the parsed chunks tile the file |
| PngScanner.JoinParses | scripts/onboarding_proof.py:233-245 | and any well-formed chunks joined are parsed back |
| PngScanner.PassesGrammar | scripts/onboarding_proof.py:243-282 | what the chunk-by-chunk checks admit is a header, distinct allowed metadata, consecutive image data and a final end chunk |
| PngScanner.GrammarPasses | scripts/onboarding_proof.py:243-282 | and every such sequence is admitted |
| PngScanner.AcceptedIsGrammar | scripts/onboarding_proof.py:229-291 | an accepted file is signature and chunks of that grammar whose data inflates to the announced rows |
| PngScanner.GrammarIsAccepted | scripts/onboarding_proof.py:229-291 | and every such file is accepted |
| PngFields.AcceptedFile | scripts/onboarding_proof.py:229-282 | an accepted file is the signature and chunks whose lengths, names and checksums are written out as RFC 2083 lays them out |
| PngFields.AcceptedRows | scripts/onboarding_proof.py:248-291 | its header announces the checked width and height in 8-bit RGB or RGBA, and its data inflates to that many rows of three or four bytes a pixel and a filter byte |
| PngFields.HeaderExactly | scripts/onboarding_proof.py:246-253 | a header passes if and only if it is the encoding of such an image, and its row size follows |
| PngFields.NumberExactly | scripts/onboarding_proof.py:237-245 | a four-byte number is read as n if and only if its bytes are the big-endian digits of n |
| PngFields.KindExactly | scripts/onboarding_proof.py:243-244 | the nine chunk names allowed, as text |
| PngFields.ChromaticityExactly | scripts/onboarding_proof.py:264-269 | the eight chromaticities: pairs in range with a positive sum of at most one |
| PngFields.DensityExactly | scripts/onboarding_proof.py:270-272 | two densities within range and a unit |
| PngFields.ResolutionExactly | scripts/onboarding_proof.py:273-280 | the Exif block is the encoding of one directory with two rational resolutions, and nothing else |

## Left out

- HostPolling.PollingAccepts: states the receipt order for Runs that are staged at most once, as `Runner.Run` does; a second Stage can lower a rank.
- HostService.Service.Settle: runs without interference, because the interleavings are the step relation's; its error path for a UI journal that cannot be published is not modelled.
- HostResume.RepeatFinishes: covers crashes of Settle; a crash of Stage is the subject of `HostResume.OrphanLasts`. With other client operations in between the statement is `HostResume.AlwaysSettleable`.
- HostResume.RepairResumes: Start's deadline is not modelled; after it the repair is refused.
- InstallationChain.ReadChain: does not model the byte limit of a checkpoint, file names or the execution id of an invocation.
- InstallationDriver.Installation.Recover: is stated for a host that cooperates, with files that the latest record refers to; otherwise the single steps say what is refused. Deadlines of the installer's replies are not modelled.
- ControllerRecord.ReadableExactly: takes the contents of an anchor, a retained recovery record and a host-install chain as valid once present.
- ProofController.Controller.Dispatch: does not model qualification runs, admission, policy checks or `collect`.
- LinuxSetup.Target.Apply: starts where the receipt is read; the platform, unit and path checks before it can only refuse without a change, and making several directories is one change.
- PairingClient.Attempt.Prepare: takes the files as attempts leave them, so its checks that only a foreign edit could fail never do here; it models one name; forgetting and revoking a pairing, which remove files, are not part of this model.
- RunnerJournal.Client.Run: the receipt checks that concern neither claim nor Session are one flag.
- UIActions.Executor.Perform: the delivery itself and its acknowledgement file are an arbitrary answer.
- UIActions.SettlementSafe: a settlement is any change within `UIActions.Settlement`; which of them Settle makes is `HostProtocol`'s subject.
- Evidence.ValidateManifest: path grammar and provenance formats are flags.
- Evidence.AcceptedExactly: schema 1, which has no provenance, is not modelled; path grammar and digest format are flags, and path keys are upper-cased on ASCII only.
- PngScanner.VerifyPng: the checksum and the inflater are parameters.
- SSH, PowerShell, systemd, process groups, file locks and permissions: environment, modelled as answers that may be anything.
- Real time: a deadline may expire at any test of it.
- The host side of pairing, the installer itself and the forward steps of an installation proof (install, pair, bind the target): their records are modelled, their procedures are not.
