# Verification of the legacy-migration engine

This project models the part of the installer that moves a legacy deployment to the new
one, and the text formats around it, in Dafny, and proves what the code keeps over every
run. The engine is a chain of compensating transactions over a world that may fail, lie or
be cancelled at any call:

- **PM2 quiescence** correlates the PM2 process table with listening sockets and `/proc`,
  stops exactly the correlated services one by one with a proof after each, and can bring
  them back in reverse order.
- **The hand-over** wraps that in a lease that is used once, and disposes of the old
  container in between.
- **The database restore** stops the backend, dumps the target, replaces the database and
  starts the backend again, rolling back from the dump it took itself.
- **The backup** writes a dump to a staging file and publishes it with a manifest, never
  replacing a name.
- **The terminal interface** drives all of it from messages that may arrive in any order.
- **Text cores**: the lexer and parser of the legacy JavaScript configuration, managed
  sections, `.env` rendering and reading, shell and pgpass quoting; and the transactional
  Asterisk installation.

## How the models are built

Every outside call is answered by an *oracle*, an arbitrary function of the call number
that is part of the initial state. A lemma about all initial states is therefore a lemma
about every run: any command may fail, succeed, or fail after taking effect, and the
caller's context may end between any two calls. Loops that the source bounds by time are
bounded by a clock that each call advances by an arbitrary amount.

Operations the source writes step by step are methods, on classes where the source updates
fields of an object. Each is proved to compute a specification function (`Quiesce`,
`Recover`, `Begin`, `Run`, `Lex`, `ParseTokens`, ...) or to meet a contract that states its
result outright; the theorems are lemmas about those functions.

For each transaction two kinds of theorem meet. One says what a result implies, over every
run. The other says when the result is success: over the trace of calls, where the first
call that is denied decides the failure that is reported, and over the answers of the
oracle alone. Nothing fails without a cause, and nothing succeeds without every step.

| file | subject |
|---|---|
| `Basics`, `Text`, `Decimal`, `Paths` | sequences, `strings`, `strconv` and `filepath.Clean` as far as they are used |
| `Pm2Correlation`, `Pm2Snapshot`, `SocketSnapshot` | validators and correlation |
| `Pm2Quiescence`, `Pm2Quiescer` | the protocol as functions over a host, and as a class |
| `Pm2Safety`, `Pm2Proofs` | what holds against any host, even one whose observations lie: the commands and evidence, what had been seen before each, and when a wait gave up |
| `Pm2World`, `Pm2RoundTrip` | what holds when PM2 is honest: the quiesce and recover round trip |
| `Handoff`, `HandoffProgress`, `HandoffCoordinator`, `HandoffWitness` | the lease, when it is handed out, its class, and two runs with an awkward end |
| `RestoreWorld`, `Replacement`, `Restore`, `Restorer` | the database restore and what it keeps |
| `RestoreProgress`, `RestoreSuccess` | how far a restore and its rollback get, and when they succeed |
| `BackupDisk`, `Publication`, `DestinationStore`, `BackupAction` | staging and publication of dumps |
| `ConfigLexer`, `ConfigParser`, `ConfigResolver` | the legacy configuration |
| `ManagedSections`, `Quoting`, `EnvFile`, `TargetEnv`, `TargetEnvReading` | text formats |
| `Bootstrap`, `PortScan` | two screens of the terminal interface |
| `Tui`, `TuiTable`, `TuiPaths` | its root state machine, the table of what leads where, and the proof that the two agree |
| `TuiSafety`, `TuiHistory` | what it keeps over every message sequence, and what precedes a hand-over |
| `ResourceTree`, `AsteriskInstall` | the Asterisk transaction |

## Where the code does less than its documentation or its names suggest

The model follows the code. Each exception is proved, with its exact condition where there
is one.

- README.md line 42 says that the backend stays stopped when a recovery cannot be proven.
  `FailedRollbackLeavesStopped` proves it but for the runs of `MayStillRun`: a rollback that
  gives up after the primary start and before a second successful stop, or one whose own
  final stop is not reported as successful. `FailedRollbackMayLeaveRunning` is such a run.
- A cancellation replaces the code that reports a failed backend restart
  (`CancellationHidesFailedRestart`, `CancellationMayHide`).
- Publication leaves a staged manifest behind in exactly one window, when the context ends
  during the write of that manifest (`Publication.Window`, `PublishBackupPair`).
- A rollback publication that meets its own dump name already taken removes the file that
  was there (`PublishTargetRollback`, `CollisionRemovesForeignDump`).
- `Cleanup` removes the lock name whoever holds it. Mutual exclusion is broken exactly by its
  removals while another operation is live (`OnlyLateSweepBreaks`, `ExclusiveRun`): in a
  cleanup after the own close or one another operation came into (`LateCleanupAdmitsTwo`),
  and in a second cleanup (`SecondCleanupAdmitsTwo`).
- A container stop that succeeded before a cancellation is not undone, and an unproven
  recovery after the container was touched leaves no lease to retry with
  (`CancelledStopStaysHalted`, `UnprovenRecoveryLeavesNoLease`).
- A second `Recover` after a partly successful one fails before its first command
  (`SecondRecoveryFailsAtOnce`).
- `PullCompleteMsg` moves the interface out of any state while a lease is live
  (`PullIsUnguarded`, `PullLeavesRecovery`). A held lease is given up without a completion
  exactly when another one is delivered in the quiescence state (`LostExactly`,
  `SecondHandOverLosesLease`), and a lease delivered in any other state is dropped
  (`DeliveredExactly`, `LateDeliveryIsDropped`).
- With an authorization refresher wired, a refresh asked for an earlier selection and not
  answered serves a removal that is selected later and never confirmed
  (`StaleGrantHandsOver`). A hand-over still needs a validated backup, a selection after it
  and a granted one, and without a refresher what is handed over is what was granted
  (`HandOverIsEarned`).
- A port typed by the operator may equal another planned one (`ChosenPortMayCoincide`).
  Confirmed ports are pairwise different exactly when the defaults last planned are and no
  typed port was that of a key already settled (`DistinctExactly`).
- A clean rescan confirms its plan but leaves the conflicts of an earlier one on the screen;
  typing a port then overwrites a confirmed one (`CleanRescanIsOverwritten`). Planned and
  conflicting keys partition the required ones exactly while the last result was not clean
  (`PartitionExactly`).
- A failed package installation is not rolled back, and a service that was enabled or active
  and was lost by the very call that failed is not given back
  (`AsteriskInstall.Installer.Install`).
- A generated 32-byte password always ends in `=` and is refused when the rendered file is
  read back (`GeneratedPasswordIsNeverRead`).
- The fields of the selected environment are checked for repetition only where they are
  required ones (`ConfigParser.ValidFields`).

## Model

| member | source | states |
|---|---|---|
| Paths.CleanIdempotent | internal/installation/pm2_quiescence.go:283 | cleaning a path twice is cleaning it once, so the validators' stored paths and the later `samePath` comparisons agree |
| Pm2Correlation.CorrelationMeans | internal/installation/pm2_quiescence.go:198-253 | correlation succeeds with a list iff sockets are unambiguous, every qualifying record is proven by `/proc`, and the list is in ascending id order exactly the qualifying records' identities, an empty one needing a wholly stopped installation |
| Pm2Correlation.CorrelationFails | internal/installation/pm2_quiescence.go:198-253 | the three errors: ambiguous sockets; a qualifying record that is not proven; nothing that qualifies in an installation that is not wholly stopped |
| Pm2Correlation.CorrelationIgnoresOrder | internal/installation/pm2_quiescence.go:198-253 | result and error do not change under permutation of records or permutation and repetition of sockets |
| Pm2Correlation.CorrelationIsInjective | internal/installation/pm2_quiescence.go:214-252 | selected ids, pids and ports are pairwise different, ports are the three contract ports, at most three are selected |
| Pm2Correlation.AllowedPortIsUnique | internal/installation/pm2_quiescence.go:224-238 | name and directory fix the only port with a contract, so the "more than one match" error cannot be taken |
| Pm2Correlation.MatchesContractMeans | internal/installation/pm2_quiescence.go:260-268 | a record counts as relevant iff it has a contract by name and directory and runs its PM2 executable |
| Pm2Correlation.OwnersByPid | internal/installation/pm2_quiescence.go:199-213 | grouping ports by owner fails iff a pid or port is not positive or a port has two owners, and otherwise indexes exactly the listed sockets |
| Pm2Correlation.MatchPorts | internal/installation/pm2_quiescence.go:224-232 | whatever order the owned ports come in, the count is one iff the contract's port is among them |
| Pm2Correlation.CorrelatePM2 | internal/installation/pm2_quiescence.go:198-253 | the map-building loops compute the order-free specification, errors included |
| Pm2Snapshot.ParseInventory | internal/installation/pm2_quiescence.go:145-197 | accepts exactly non-empty lists in which each item is consistent and ids and online pids are fresh, and returns their cleaned records |
| Pm2Snapshot.AcceptedInventoryIsValid | internal/installation/linux_pm2_snapshot.go:47-78 | every record list the inventory parser accepts passes the record checks of the snapshot |
| Pm2Snapshot.PrintedInventoryIsRead | internal/installation/pm2_quiescence.go:145-197 | conversely every valid record list, printed item by item, is accepted and comes back with its paths cleaned |
| Pm2Snapshot.CheckedStep | internal/installation/linux_pm2_snapshot.go:47-78 | the checks on one record in the loop are exactly what extends the validity of the whole list and of the collected `/proc` map |
| Pm2Snapshot.ProvideSnapshot | internal/installation/linux_pm2_snapshot.go:27-87 | a snapshot is provided iff every part was read, all records are valid and every online one is readable, and then holds just those |
| SocketSnapshot.ParseLines | internal/installation/linux_socket_snapshot.go:62-119 | succeeds iff every line is readable and no port has two owners, and returns each listener once and nothing else |
| SocketSnapshot.ParseSocketSnapshot | internal/installation/linux_socket_snapshot.go:62-119 | the result is a duplicate-free function from approved ports to positive pids |
| SocketSnapshot.ListenerExactly | internal/installation/linux_socket_snapshot.go:71-107 | a line is read as a listener iff it shows one: state LISTEN, an address ending in the printed approved port, and one printed pid |
| SocketSnapshot.SkippedNamesNone | internal/installation/linux_socket_snapshot.go:71-133 | a line that is skipped names no approved port, and where no port can be read nothing that looks like one |
| SocketSnapshot.ListenersFormFunction | internal/installation/linux_socket_snapshot.go:97-118 | the listeners of readable lines give each port one owner |
| SocketSnapshot.ParsedSocketsNeverAmbiguous | internal/installation/pm2_quiescence.go:201-213 | on such sockets the ambiguity errors of correlation are unreachable |
| Pm2Quiescence.AcknowledgedRecoveryTargets | internal/installation/pm2_quiescence.go:448-467 | succeeds iff a target list exists that matches the evidence entry by entry, and returns it |
| Pm2Quiescence.AcknowledgedIsUnique | internal/installation/pm2_quiescence.go:448-467 | evidence determines the recovery targets |
| Pm2Quiescer.CheckStopped | internal/installation/pm2_quiescence.go:564-585 | true iff each target has exactly one record, stopped at the same paths, and its port has no owner |
| Pm2Quiescer.FindExactRecord | internal/installation/pm2_quiescence.go:488-502 | finds the one record of the target's id with its name and paths, if it is the only one |
| Pm2Quiescer.CountOwners | internal/installation/pm2_quiescence.go:473-481 | fails iff another process owns the port, and counts none or a single owner exactly |
| Pm2Quiescer.RecoverySnapshotProves | internal/installation/pm2_quiescence.go:468-487 | proves a target ready to start, or restarted with a fresh pid and start tick as sole owner of its port |
| Pm2Quiescer.PM2Quiescer.WaitForStoppedAndReleased | internal/installation/pm2_quiescence.go:509-552 | the polling loop ends and computes `AwaitStopped` for every clock and cancellation; when that gives up is `AwaitStoppedLooks` |
| Pm2Quiescer.PM2Quiescer.WaitForRecoveryProof | internal/installation/pm2_quiescence.go:409-447 | as above, with the check for an ended context before each observation |
| Pm2Quiescer.PM2Quiescer.QuiesceServices | internal/installation/pm2_quiescence.go:330-376 | the stopping loop computes `Quiesce`: evidence, code and effect on the host |
| Pm2Quiescer.PM2Quiescer.RecoverServices | internal/installation/pm2_quiescence.go:377-407 | the reverse starting loop computes `Recover` |
| Pm2Safety.QuiesceSafety | internal/installation/pm2_quiescence.go:330-376 | against any host: stop commands are a prefix of the id-sorted initial set, evidence is that prefix without at most one failed last command, only the last entry may be unverified, each failure code says which |
| Pm2Safety.StopEachIsStopRun | internal/installation/pm2_quiescence.go:352-371 | the same as an invariant of the stopping loop from any point of it |
| Pm2Safety.EvidenceIsRecoverable | internal/installation/pm2_quiescence.go:448-467 | any result that holds evidence is accepted for recovery, with its targets in stop order |
| Pm2Safety.StartEachSafety | internal/installation/pm2_quiescence.go:386-404 | start commands run in reverse stop order, one more was attempted than proven at most, verified iff all were |
| Pm2Safety.RecoverSafety | internal/installation/pm2_quiescence.go:377-407 | the same for a whole recovery, with its counts and code |
| Pm2Proofs.QuiesceIsProven | internal/installation/pm2_quiescence.go:330-376 | against any host: the services are those of the first observation; each stop was sent just after seeing that exactly the services not yet stopped run; each verified entry was seen stopped with its port released after its own stop and before any other command; success was seen for all at once at the end, or an idle installation was seen twice; every other code has its cause in the log, and an unproven stop means that no look before the end of its wait showed the target stopped and that the wait ended before the next poll |
| Pm2Proofs.StopEachIsProven | internal/installation/pm2_quiescence.go:352-375 | the same as an invariant of the stopping loop from any point of it, with the cause of every code |
| Pm2Proofs.AwaitStoppedLooks | internal/installation/pm2_quiescence.go:509-552 | the polling loop sends nothing; it is proven iff its last look, before the end of the wait, shows the target stopped, no earlier one did, and it gives up only when the wait ends before the next poll |
| Pm2Proofs.AwaitRestartedLooks | internal/installation/pm2_quiescence.go:409-447 | the same for the recovery proof, which may end before it looks |
| Pm2Proofs.RecoverIsProven | internal/installation/pm2_quiescence.go:377-407 | against any host: each start was sent just after seeing its target stopped with its port free, and each target counted as recovered was seen running afresh, alone on its port, after its own start and before any other command; an unverified recovery has its cause: targets that cannot be named, a look that shows the next one not ready, a start that failed, or a wait that ended without its proof before the next poll |
| Pm2Proofs.StartEachIsProven | internal/installation/pm2_quiescence.go:386-404 | the same as an invariant of the recovery loop, with the cause of an unverified end |
| Pm2World.StopStep | internal/installation/pm2_quiescence.go:361-370 | stopping one selected service keeps a healthy world and every other record, socket and process |
| Pm2World.StartStep | internal/installation/pm2_quiescence.go:394-403 | starting a stopped one with an unused pid does so too, and it owns its port again |
| Pm2World.SelectionHolds | internal/installation/pm2_quiescence.go:335-339 | what a correlation selects in a healthy world are running services that follow their contracts |
| Pm2World.CorrelatedWorld | internal/installation/pm2_quiescence.go:357-360 | at any point between stops and starts, correlating again selects exactly the services that run, refreshed |
| Pm2World.DownIsProven | internal/installation/pm2_quiescence.go:564-585 | a service that is down satisfies the stop proof and the pre-start proof |
| Pm2World.RebornIsProven | internal/installation/pm2_quiescence.go:485-486 | a restarted service satisfies the recovery proof iff its pid and start tick are both new |
| Pm2RoundTrip.QuiesceStopsExactlyTheSelected | internal/installation/pm2_quiescence.go:330-376 | with an honest PM2, a completed quiesce stopped exactly the correlated services, freed their ports and touched nothing else; with a prompt one it completes |
| Pm2RoundTrip.HonestStopEach | internal/installation/pm2_quiescence.go:352-375 | the same from any point of the stopping loop |
| Pm2RoundTrip.HonestStartEach | internal/installation/pm2_quiescence.go:386-406 | a verified recovery from any point brought every remaining service back fresh |
| Pm2RoundTrip.RoundTrip | internal/installation/pm2_quiescence.go:330-407 | quiesce then recover gives the original world but for fresh pids and start ticks of the selected services, and correlates to the same set refreshed; with a prompt PM2 both succeed |
| Pm2RoundTrip.CorrelatedAfterRecovery | internal/installation/pm2_quiescence.go:198-253 | after a recovery the same ids, names, paths and ports are online and correlated |
| Pm2RoundTrip.SecondRecoveryFailsAtOnce | internal/installation/pm2_quiescence.go:386-393 | after a recovery that brought anything back, a second one with the same evidence fails and issues no command |
| Pm2RoundTrip.RecoverySendsExactly | internal/installation/pm2_quiescence.go:386-398 | when observations do not lie, a first or repeated recovery sends a command iff its first observation succeeds and the last target is down with its port free |
| Handoff.SuccessIsComplete | internal/migration/handoff.go:137-151 | a quiesce that reports success satisfies `completeQuiescence`, whatever the host did |
| Handoff.EvidenceCanBeRecovered | internal/migration/handoff.go:53-65 | evidence of a failed quiesce is accepted by recovery |
| Handoff.BeginKeepsOrder | internal/migration/handoff.go:44-85 | over every run: the backup is revalidated before any PM2 command, the container is touched only after a complete quiescence, a failing run with evidence or a touched container recovers exactly once, last, with that evidence, a retry lease is left iff that recovery is unverified and the container untouched, and success hands out a complete lease without recovering |
| Handoff.DisposeRun | internal/migration/handoff.go:66-84 | after a complete quiescence the container sees one of five exact command sequences, and a failure is followed by one recovery |
| Handoff.FailedDispositionLeaves | internal/migration/disposition.go:39-77 | when disposition fails, a restart was tried iff a removal failed, a successful plain stop leaves the container halted, a verified restart leaves it running |
| Handoff.UndoMeans | internal/migration/handoff.go:91-116 | a failure completion is verified iff PM2 recovery is and the container, where there is one, is seen running; a removed container always asks for manual recovery; PM2 is recovered exactly once |
| Handoff.RecoveryAtMostOnce | internal/migration/handoff.go:87-128 | any sequence of completions recovers once iff the first is a failure, and otherwise does nothing |
| Handoff.ConsumedStays | internal/migration/handoff.go:117-128 | completions of a consumed lease have no effect at all |
| HandoffProgress.BeginExactly | internal/migration/handoff.go:44-85 | over the trace: a lease is handed out iff the wiring is ready, no step failed and the context has not ended, and then the steps are exactly revalidation, quiesce, container stop and, for a removal, its removal; otherwise the steps tell which of the five errors is returned, and there is a failed step or an ended context |
| HandoffProgress.BeginSucceedsExactly | internal/migration/handoff.go:44-85 | over the answers: iff the backup is valid, PM2 is quiesced, the commands on the container succeed and the context outlasts them; the container is then halted or removed |
| HandoffProgress.UndoExactly | internal/migration/handoff.go:91-116 | call by call what a failure completion does, and when it reports a verified recovery: the restart, where there is one, is answered with success and seen, and the PM2 recovery is verified |
| HandoffProgress.PromptSiteHandsOver | internal/migration/handoff.go:44-85 | on a site whose PM2 is prompt and correlates and whose docker succeeds, a lease is handed out, exactly the selected services are down and the container is halted or removed |
| HandoffWitness.CancelledStopStaysHalted | internal/migration/handoff.go:66-75 | a run in which the container stop succeeds, the context ends, and the container stays halted without a lease |
| HandoffWitness.UnprovenRecoveryLeavesNoLease | internal/migration/handoff.go:66-84 | a run in which the disposition fails, the recovery is unproven, and no lease remains |
| HandoffCoordinator.PreInstallMigrationCoordinator.BeginHandoff | internal/migration/handoff.go:44-85 | computes `Begin`; a lease it returns is new, its own and unconsumed |
| HandoffCoordinator.PreInstallMigrationCoordinator.CheckComplete | internal/migration/handoff.go:137-151 | computes `CompleteQuiescence` entry by entry |
| HandoffCoordinator.PreInstallMigrationCoordinator.ApplyDisposition | internal/migration/disposition.go:39-60 | computes `Apply`: stop, then remove if asked |
| HandoffCoordinator.PreInstallMigrationCoordinator.RestartContainer | internal/migration/disposition.go:61-77 | computes `RecoverContainer`: start and inspect, never for a removed one |
| HandoffCoordinator.PreInstallMigrationCoordinator.Consume | internal/migration/handoff.go:117-128 | only the owner's lease is consumed, and only the first caller gets it |
| HandoffCoordinator.PreInstallMigrationCoordinator.CompleteSuccess | internal/migration/handoff.go:87-90 | consumes the lease and changes nothing else |
| HandoffCoordinator.PreInstallMigrationCoordinator.CompleteFailure | internal/migration/handoff.go:91-111 | undoes the hand-over for the first caller, and does nothing for a later or foreign one |
| HandoffCoordinator.PreInstallMigrationCoordinator.CompleteAll | internal/migration/handoff.go:87-128 | any sequence of completions on one lease object has the effect of `Complete` |
| Replacement.ValidationRoundTrip | internal/migration/restore_process.go:290-301 | the printed evidence of a positive 64-bit table count is parsed to it, and no other count is accepted |
| Replacement.AcceptedEvidenceIsValid | internal/migration/restore.go:172-174 | accepted evidence always passes `databaseValid` |
| Replacement.BoundedOutput.Write | internal/migration/restore_process.go:305-316 | keeps exactly the clipped concatenation of what was written, and reports a short write iff something was cut or the buffer was full |
| Replacement.BoundedOutput.Drain | internal/migration/restore_process.go:305-316 | any chunking of an output keeps the same clipped text |
| Replacement.StepsKeep | internal/migration/restore_process.go:254-288 | at every step `Mutated` is set iff `dropdb` was submitted, the database is dropped at most once, and success holds the source dump |
| Replacement.ReplaceKeeps | internal/migration/restore_process.go:133-155 | a replacement prepares and cleans its credential once, and unless `Mutated` left the data alone |
| RestoreWorld.ArmedDropsAreGuarded | internal/migration/restore.go:46-71 | a monitor over the trace is armed only where a `dropdb` would be guarded by stop, proofs, revalidation, dump and probe |
| RestoreWorld.NoDropCounted | internal/migration/restore_process.go:254-288 | a trace counts no drop iff it holds none |
| Restore.OutcomeDeterminesData | internal/migration/restore.go:34-148 | before cutover or unsupported: no `dropdb` and the data only grew; otherwise the content dropped first is the original with all later writes, the target dump of this run holds exactly that, success holds the legacy dump and a successful rollback brings the dropped content back |
| Restore.EveryDropIsGuarded | internal/migration/restore.go:46-71 | in every run each `dropdb` follows a successful stop with no later start, identity and reachability proofs and a revalidation of the very dump about to be restored since that stop, and a validated target dump; the one of a rollback also a probe that saw the backend stopped |
| Restore.HealthyExactly | internal/migration/restore.go:81-88 | `BackendHealthy` iff succeeded or rolled back, and then the last calls are a successful start and health check (for a success right after an identity proof) and the reported evidence is valid; `Mutated` iff succeeded or partial cutover |
| Restore.FailedRollbackLeavesStopped | internal/migration/restore.go:108-148 | after an unsuccessful rollback the backend is stopped with no later start, but for exactly the runs of `MayStillRun` |
| Restore.FailedRollbackMayLeaveRunning | internal/migration/restore.go:112-115 | a run whose rollback fails on its first proof while the backend runs |
| Restore.CancellationHidesFailedRestart | internal/migration/restore.go:157-165 | before cutover the code is `restore-cancelled` iff the context ended, and a failed restart is reported iff it had not |
| Restore.CancellationMayHide | internal/migration/restore.go:97-106 | a run with the backend down that reports only the cancellation |
| Restore.CredentialsAreCleaned | internal/migration/restore_process.go:133-155 | over a whole run with its rollback, every prepared credential is cleaned |
| Restore.RollbackKeeps | internal/migration/restore.go:108-148 | what a rollback owes from any point after the drop: status, code, data, backend and trace |
| Restore.CutoverKeeps | internal/migration/restore.go:68-88 | from the replacement on, a run either left the data untouched or is a cut with its dump in hand |
| Restore.SecureKeeps | internal/migration/restore.go:55-71 | the same from the stopped backend on |
| Restore.RunKeeps | internal/migration/restore.go:34-88 | the same for a whole run |
| RestoreProgress.RunExactly | internal/migration/restore.go:34-165 | over the trace of a supported and wired request: success iff it goes through all nineteen planned calls and the validation is accepted; otherwise the first call that was denied, or not submitted because the context had ended, or the validation, decides the stage and the code, which only a cancellation, a failed restart or a rollback replaces; a partial cutover runs a whole rollback to the target dump of this run after that call |
| RestoreProgress.RollbackExactly | internal/migration/restore.go:108-148 | the same for a rollback and its seventeen calls: it succeeds iff all are made with success and the validation is accepted, and otherwise the place decides its code, and its own context whether it was cancelled |
| RestoreProgress.ReplaceProgress | internal/migration/restore_process.go:133-155 | a replacement succeeds iff it goes through its eight calls and the validation is accepted, and otherwise has its place to stop |
| RestoreProgress.RecoveryExplains | internal/migration/restore.go:97-106 | a recovery before the cutover reports the code it was given iff both its calls succeed and the caller has not cancelled |
| RestoreSuccess.SucceedsExactly | internal/migration/restore.go:34-88 | over the answers: success iff the request is supported and wired, all nineteen calls are answered with success, the dump is marked valid, the five commands work before the context ends and the validation is accepted |
| RestoreSuccess.RollbackSucceedsExactly | internal/migration/restore.go:108-148 | the same for a rollback within its own context |
| RestoreSuccess.SmoothWorldSucceeds | internal/migration/restore.go:34-88 | a world that answers everything with success: the run succeeds, the backend is healthy and the database holds the legacy data |
| Restorer.RestoreCoordinator.RunPlan | internal/migration/restore_process.go:254-288 | the loop over the five commands computes `RunSteps` |
| Restorer.RestoreCoordinator.RunTargetReplacement | internal/migration/restore_process.go:254-288 | with the deferred credential cleanup it computes `RunReplacement` |
| Restorer.RestoreCoordinator.ReplaceDatabase | internal/migration/restore_process.go:133-155 | computes `Replace` |
| Restorer.RestoreCoordinator.RecoverBeforeCutover | internal/migration/restore.go:97-106 | computes `RecoverBackend` |
| Restorer.RestoreCoordinator.RollBack | internal/migration/restore.go:108-148 | field by field it computes `Rollback` |
| Restorer.RestoreCoordinator.PutTargetBack | internal/migration/restore.go:136-148 | its end computes `PutBack` |
| Restorer.RestoreCoordinator.CutOver | internal/migration/restore.go:71-88 | computes `Cutover` |
| Restorer.RestoreCoordinator.RunRestore | internal/migration/restore.go:34-88 | computes `Run` |
| ConfigLexer.LexDocument | internal/migration/config_parser.go:262-364 | every layout of lexemes, white space and comments lexes to its tokens and the end |
| ConfigLexer.LexedIsDocument | internal/migration/config_parser.go:262-364 | conversely, every text that lexes is such a layout of its tokens |
| ConfigLexer.LexPrinted | internal/migration/config_parser.go:262-364 | any spellable token list printed with escaping lexes to exactly itself and the end |
| ConfigLexer.ScanString | internal/migration/config_parser.go:305-344 | the escape loop computes the unquoted text and where it ends |
| ConfigLexer.ScanHead | internal/migration/config_parser.go:262-364 | one round of the loop skips or takes exactly what the specification does |
| ConfigLexer.LexSource | internal/migration/config_parser.go:262-364 | the whole loop computes `Lex` |
| ConfigParser.ParseConfigMeans | internal/migration/config_parser.go:46-259 | fields are returned iff the text is some layout of a valid configuration whose selected environment has exactly those required fields |
| ConfigParser.SkipPrinted | internal/migration/config_parser.go:135-179 | any printed static value is skipped exactly, nested objects and arrays included |
| ConfigParser.StaticFrom | internal/migration/config_parser.go:135-179 | whatever is skipped is a printed static value |
| ConfigParser.ParsePrintedConfig | internal/migration/config_parser.go:46-133 | a printed duplicate-free configuration parses to the fields of the selected environment |
| ConfigParser.ConfigFrom | internal/migration/config_parser.go:46-133 | whatever parses is a printed valid configuration |
| ConfigParser.Parser.SkipStaticValue | internal/migration/config_parser.go:135-179 | the cursor moves strictly forward, stays in the tokens and ends where the specification does |
| ConfigParser.Parser.TakeValue | internal/migration/config_parser.go:189-221 | reads a literal or an environment fallback as specified |
| ConfigParser.Parser.TakeFields | internal/migration/config_parser.go:95-124 | the loop over fields computes `ParseFields` |
| ConfigParser.Parser.TakeObject | internal/migration/config_parser.go:62-93 | the loop over environments computes `ParseEntries` |
| ConfigParser.Parse | internal/migration/config_parser.go:46-60 | the whole parser computes `ParseConfig` |
| ConfigResolver.ResolveFields | internal/migration/config_resolver.go:15-57 | a result is usable and every label names the true origin of its value; it fails iff a field is unknown, the dialect is another one, a text is unresolved where there is no default, or the port is out of range |
| ConfigResolver.ResolveText | internal/migration/config_resolver.go:66-76 | a missing text falls back only in development, with an honest label |
| ConfigResolver.ResolveNumber | internal/migration/config_resolver.go:77-94 | the port is the given one, or the default of the environment |
| ManagedSections.LastWriterWins | internal/asterisk/templates.go:92-119 | replacing twice is replacing once with the second body iff the first body lacks the end mark, for every text |
| ManagedSections.RemoveUndoesReplace | internal/asterisk/templates.go:92-137 | removing after replacing equals removing from the original iff a complete section was there, or none in an empty or newline-ended text |
| ManagedSections.OutsideIsKept | internal/asterisk/templates.go:92-119 | with a complete section present, every byte outside it is kept and the new one takes its place |
| ManagedSections.FindWritten | internal/asterisk/templates.go:92-137 | a written section is found where it was written, whole iff its body lacks the end mark |
| ManagedSections.FirstClose | internal/asterisk/templates.go:92-119 | the first end mark of a section is its own iff its body has none |
| Quoting.CommandLineRoundTrip | internal/bootstrap/stale_group.go:171-228 | splitting the quoted words by sections 2.2.1 and 2.2.2 of the Shell Command Language of POSIX.1-2017 recovers every argument vector |
| Quoting.BuildCommandLine | internal/bootstrap/stale_group.go:210-228 | the loop builds a line that splits into the given arguments, iff `sg` was found |
| Quoting.PgpassLineRoundTrip | internal/migration/process.go:65-91 | splitting a written entry on unescaped colons and unescaping recovers all its fields |
| Quoting.PgpassFileRoundTrip | internal/workspace/target_env.go:37-52 | read back as the first line of a file, it does so iff no field holds a newline |
| Publication.Attempt | internal/migration/manifest.go:76-139 | wherever the publication stops, its flags tell exactly which names exist through it, and it succeeds iff the dump is there and not empty, its three names are free and its calls go through before the context ends |
| Publication.CleanUpUndoes | internal/migration/manifest.go:84-104 | removing the flagged names gives back the directory without the staged dump, but for the window |
| Publication.PublishBackupPair | internal/migration/manifest.go:69-139 | success iff the request is accepted and the publication can be made; it removes the staging name and adds exactly two new names that revalidation accepts; failure removes only the staged dump, and in the one window leaves a staged manifest |
| Publication.PublishTargetRollback | internal/migration/restore_backup.go:165-189 | the same for the rollback dump, with its exact condition of success, a name collision removing the dump that was there |
| Publication.CreateValidated | internal/migration/restore_backup.go:49-76 | succeeds iff the staged dump passes its validation in time and can be published; a failed target backup leaves the directory as it was but for its own staging file and that collision |
| Publication.CollisionRemovesForeignDump | internal/migration/restore_backup.go:183-184 | a directory in which a foreign dump of other content is removed |
| DestinationStore.Prepare | internal/migration/destination_store.go:103-163 | computes `PrepareDisk`: success adds the lock and a new staging name to a directory that had neither; failure changes nothing, and a present lock is always refused |
| DestinationStore.PrepareSucceeds | internal/migration/destination_store.go:103-163 | a preparation succeeds iff the directory is not locked, the lock file is written and closed, and one of the eight attempts comes to a free name whose file is created and protected; that name it is |
| DestinationStore.StagedArtifact.Close | internal/migration/destination_store.go:175-187 | closing twice is closing once: the lock is released by the first |
| DestinationStore.StagedArtifact.Cleanup | internal/migration/destination_store.go:188-202 | a close and a sweep: removes the staging file and the lock name, whoever holds it and however often it is called |
| DestinationStore.OnlyLateSweepBreaks | internal/migration/destination_store.go:175-202 | on the shared directory itself, one step breaks mutual exclusion iff it is the sweep of a cleanup while another operation is live; a failing file close, which keeps the lock, does not |
| DestinationStore.ExclusiveRun | internal/migration/destination_store.go:128-202 | over any interleaving, mutual exclusion holds at every moment iff no such sweep occurs |
| DestinationStore.CleanupExactly | internal/migration/destination_store.go:188-202 | an undisturbed cleanup, the first or a repeated one, keeps mutual exclusion iff no other operation is live |
| DestinationStore.LateCleanupAdmitsTwo | internal/migration/destination_store.go:188-197 | an interleaving with a late sweep, after which two operations are live |
| DestinationStore.SecondCleanupAdmitsTwo | internal/migration/destination_store.go:188-197 | an interleaving in which an operation cleaned up twice lets two others be live |
| BackupAction.RunHelper | internal/migration/process.go:220-246 | helper and credential are cleaned once whatever the command did, and a failed cleanup overrides the verdict |
| BackupAction.DumpToStaging | internal/migration/backup_action.go:372-404 | goes on iff the credential is prepared, the dump command exits with success and both cleanups succeed before the context ends, and otherwise names the stage, outcome and code |
| BackupAction.CloseStaging | internal/migration/backup_action.go:405-418 | goes on iff the staged file is synced, closed and not empty, and otherwise says why; the lock is gone afterwards |
| BackupAction.ValidateAndPublish | internal/migration/backup_action.go:419-438 | archive validation and publication pass iff their answers are successes in time and the names are free; a failure leaves a staged manifest iff the publication met its window |
| BackupAction.RunWithProgress | internal/migration/backup_action.go:345-438 | a stage passes iff it and all before it did their work, each a condition on the answers of its own calls, the context and the directory; the first that did not decides outcome and code, and the run is validated iff none; the vector says so; credentials balance; a run that is not validated leaves the directory as it was but for the staged manifest of exactly the publication window |
| BackupAction.SmoothRunGoes | internal/migration/backup_action.go:345-438 | in an empty directory where every call succeeds and the command writes something, every stage does its work |
| Bootstrap.ClassifyBlockers | internal/bootstrap/bootstrap.go:202-246 | the append loops compute remedies in three ranks and the checks without one |
| Bootstrap.FixableMeans | internal/bootstrap/bootstrap.go:202-246 | an action is queued iff it remedies a failed check, installation first and the service start last, never with a banner |
| Bootstrap.NothingReturned | internal/bootstrap/bootstrap.go:202-246 | both lists are empty iff every failed check is a version check of an absent docker |
| Bootstrap.PlainNeverQuits | internal/tui/bootstrap.go:129-214 | a screen without banners never prints and quits, and stays so |
| Bootstrap.BannerQuits | internal/tui/bootstrap.go:137-155 | with a banner action, it would |
| TuiPaths.UpdateIsTold | internal/tui/model.go:277-1059 | for every message in every model: the next state is the one the table says the message leads to, and otherwise the same; beginning and completing a hand-over, quitting and starting a state's work are issued iff the table says so; each field changes exactly as it says |
| TuiPaths.LeadsOnce | internal/tui/model.go:277-1059 | a message leads to at most one state |
| TuiPaths.GrantStates | internal/tui/model.go:608-648 | the confirmation of a migration is reached only from a validated backup that ran with restore and hand-over wired, the choice of a disposition only from there, the confirmation of a removal only by selecting one |
| TuiHistory.BeginsExactly | internal/tui/migration_quiescence.go:43-66 | a hand-over begins iff it is granted and no refresher is wired, or the refresh asked for it reports success |
| TuiHistory.DeploysExactly | internal/tui/model.go:498-545 | the deployment is entered iff by its own message, a passed authorization check, a successful refresh nobody else waits for, or a restored database; a refused authorization never leads there |
| TuiHistory.HandOverIsEarned | internal/tui/model.go:608-660 | over all message sequences: a hand-over begins only after a backup was validated while it ran, a disposition was selected after that, and one was granted, a removal by its confirmation; it hands over the last one selected; with a refresher only on its success, without one only what was granted |
| TuiHistory.OnwardIsEarned | internal/tui/model.go:277-1059 | the invariant behind it, for every message in every state |
| TuiHistory.StaleGrantHandsOver | internal/tui/model.go:512-536 | a message sequence in which a refresh asked for an earlier selection hands over a removal that was never confirmed |
| TuiSafety.LeaseIsProtected | internal/tui/model.go:258-1059 | over all message sequences: no quit while a lease is live, the three port exemptions agree and are held only then, a lease is cleared only after a completion was issued for it |
| TuiSafety.UpdateIsGood | internal/tui/model.go:277-1059 | each update keeps the invariant behind it, for every message in every state |
| TuiSafety.RunKeeps | internal/tui/model.go:277-1059 | so does every sequence of messages |
| TuiSafety.StartInvariant | internal/tui/model.go:215-238 | a new model satisfies it |
| TuiSafety.BannerQuitIsUnreachable | internal/tui/bootstrap.go:137-155 | the quit of the bootstrap banner cannot be reached from the program's start |
| TuiSafety.LostExactly | internal/tui/model.go:277-1059 | over all message sequences, a held lease without an issued completion is given up iff the next message delivers another lease in the quiescence state |
| TuiSafety.DeliveredExactly | internal/tui/model.go:650-690 | a delivered lease is held iff the state is the quiescence state, and otherwise the model does not change |
| TuiSafety.SecondHandOverLosesLease | internal/tui/model.go:650-690 | a message sequence that replaces a live lease without a completion |
| TuiSafety.LateDeliveryIsDropped | internal/tui/model.go:650-653 | a message sequence that leaves the quiescence state before the lease comes, loses it and quits |
| TuiSafety.PullIsUnguarded | internal/tui/model.go:484-489 | the message leads to the authorization check from every state iff a lease is live |
| TuiSafety.PullLeavesRecovery | internal/tui/model.go:484-489 | it pulls the model out of recovery, whose completion is then ignored |
| TuiSafety.AttemptedGrows | internal/tui/model.go:790-802 | attempted actions stay so and every completed bootstrap round attempts a new one |
| TuiSafety.RoundsAreBounded | internal/tui/model.go:755-802 | over any messages no attempted action is queued again, and rounds are bounded by the actions not yet attempted |
| PortScan.PortScanModel.ScanKeys | internal/tui/port_scan.go:85-126 | the loop over sorted keys puts each in the plan with its default, exempt or answered free on its protocol, or in the conflicts, not exempt and answered not free |
| PortScan.PortScanModel.ScanAll | internal/tui/port_scan.go:85-126 | what it sends is a genuine result whenever it comes in: plan and conflicts partition all required keys, planned ports are justified defaults, conflicts were refused during this scan |
| PortScan.PortScanModel.ShowResult | internal/tui/port_scan.go:131-153 | confirms a clean result and leaves earlier conflicts on the screen, or shows the first conflict |
| PortScan.PortScanModel.HandleAlternatePort | internal/tui/port_scan.go:172-215 | a typed port is taken iff it is a number in range free on the key's protocol; it resolves one conflict, and the last one confirms |
| PortScan.PortScanModel.Dispatch | internal/tui/port_scan.go:128-170 | every message in every reachable state is handled as specified and keeps the invariant |
| PortScan.UpdateKeeps | internal/tui/port_scan.go:128-215 | one step keeps the invariant, stale conflicts included |
| PortScan.ConfirmedPortsAreCovered | internal/tui/port_scan.go:128-215 | over every run, confirmed ports cover every required key, each exempt or found free on its own protocol |
| PortScan.PartitionExactly | internal/tui/port_scan.go:130-153 | over every run, while resolving, planned and conflicting keys partition the required keys iff the last result was not clean |
| PortScan.CleanRescanIsOverwritten | internal/tui/port_scan.go:130-153 | a run with a clean rescan while resolving, after which a confirmed port is overwritten by a typed one |
| PortScan.DistinctExactly | internal/tui/port_scan.go:184-214 | over every run, confirmed ports are pairwise different iff the defaults last planned are and each typed port was not that of a settled key when it was taken |
| PortScan.TypedKeepsInjective | internal/tui/port_scan.go:196-197 | an injective plan stays injective after a taken port iff the port is not the value of another key |
| PortScan.PlannedIsInjective | internal/tui/port_scan.go:85-126 | what a scan plans is injective iff the defaults of its keys differ |
| PortScan.ResolveConflict | internal/tui/port_scan.go:193-214 | resolving the first conflict keeps the partition |
| PortScan.ChosenPortMayCoincide | internal/tui/port_scan.go:184-197 | a run from a new screen that shows one conflict and confirms the same port for two keys |
| EnvFile.RenderTemplate | internal/envgen/env.go:159-208 | the line loop computes `Render` |
| EnvFile.RenderIsIdempotent | internal/envgen/env.go:159-208 | for newline-free substitutions, rendering a rendered file changes nothing |
| EnvFile.RenderKeepsLines | internal/envgen/env.go:159-208 | each line is kept but for trailing carriage returns, or is the substituted assignment of its key |
| TargetEnv.Parse | internal/workspace/target_env.go:83-131 | the line loop computes `ParseTargetEnv`, errors included |
| TargetEnv.ReadIsValid | internal/workspace/target_env.go:83-131 | what is accepted has a port in range and a password free of every rejected character |
| TargetEnvReading.ReadExactly | internal/workspace/target_env.go:83-131 | a file is read as a configuration iff it holds no NUL or carriage return, every line is clean, no key is set twice, its lines give the five values and those are valid |
| TargetEnvReading.PrintedIsRead | internal/workspace/target_env.go:83-131 | a configuration printed as five assignments is read back iff it and its password are valid |
| TargetEnv.ReadBack | internal/workspace/target_env.go:83-131 | on a template that is otherwise accepted, port and password are read back iff the port is in range and the password is non-empty and free of rejected characters |
| TargetEnv.ReadIsSubstituted | internal/envgen/env.go:159-208 | a password that is read from a rendered file is the substituted one |
| TargetEnv.PaddedUnlessThrees | internal/secrets/password.go:20-31 | standard base64 of a length that is no multiple of three holds `=` |
| TargetEnv.GeneratedPasswordIsNeverRead | internal/secrets/password.go:20-31 | so a file rendered with a generated 32-byte password is never accepted, whatever the template |
| ResourceTree.SnapshotBundle | internal/asterisk/installer.go:229-267 | the snapshot holds the node of each walked path |
| ResourceTree.RestoreBundle | internal/asterisk/installer.go:293-334 | clears the tree and puts each entry back in order, parents first |
| ResourceTree.RestoreAll | internal/asterisk/installer.go:293-334 | every tree of files, directories and links comes back, modes reduced to their permissions |
| ResourceTree.SaveAndRestore | internal/asterisk/installer.go:229-334 | restoring a snapshot over any later tree is the identity iff no node has a special mode bit |
| AsteriskInstall.RollbackRestores | internal/asterisk/installer.go:180-198 | rolling back from any state gives the original host, in either order of the configurations, iff package and service flags did not lose what they had |
| AsteriskInstall.Installer.WriteManagedConfigs | internal/asterisk/installer.go:127-146 | writes both managed sections, the first only after the existing file was accepted; succeeds iff that and the four calls do |
| AsteriskInstall.Installer.RollBack | internal/asterisk/installer.go:180-198 | the calls compute `Rollback` |
| AsteriskInstall.Installer.InstallPackage | internal/asterisk/installer.go:54-59 | success never loses an enablement or a running service; a failure may leave anything but the tree |
| AsteriskInstall.Installer.Configure | internal/asterisk/installer.go:61-82 | the steps after the package: the first answer that is no success decides the error; what success leaves; only a failed enable or restart can lose the flag it was setting |
| AsteriskInstall.Installer.Install | internal/asterisk/installer.go:22-83 | the error is that of the first answer that is no success, and there is none without one; an error after the package leaves the host as it was, its tree with plain modes at most, iff the failing enable or restart did not lose what was there; a failed package installation is left as it is |

## Left out

- Decoding of JSON, SHA-256, randomness and the running of processes: decoded items, an
  arbitrary hash function whose sums are not empty, fresh names and oracle replies stand
  for them. The real `/proc`, `ss` and `pm2` commands are not part of the model.
- Real time: timeouts, the wait of a minute and polling intervals are an arbitrary clock or
  a context that ends at an arbitrary call.
- Checks of links, owners and modes of backup files are part of a call's success; file
  names are values of a datatype, one constructor for each kind of name, and not strings.
- Publication.PublishBackupPair: assumes that removing a file succeeds and that no other
  process changes the directory meanwhile.
- BackupAction.RunWithProgress: assumes that removing a file succeeds, and that a staged file
  that was closed can be looked up; progress events and remediation hints are not modelled.
- Restore.OutcomeDeterminesData: a backend that stops or starts by itself is not modelled;
  only submitted stop and start commands change whether it runs.
- Restorer.RestoreCoordinator.RunRestore: names the legacy dump by its index among the retained
  ones; a reference to no usable dump is a revalidation that fails.
- Restore.CredentialsAreCleaned: counts preparations and cleanups of the trace; whether the
  removal of the file works is left to the call.
- Pm2RoundTrip.RoundTrip: an honest PM2 gives a restarted service a pid not in use, its
  contract's port and the contract's runtime; a service that comes up without its port is
  the case of an unverified recovery.
- Pm2Correlation.CorrelationMeans: requires distinct record ids, which the validators
  guarantee; with repeated ids the order among equal ones is not fixed by the source's sort.
- The quiescer's diagnostics and the recovery diagnostics are not modelled, only codes.
- PortScan.PortScanModel.Dispatch: the cursor of the input field and its limit of six characters
  are left out; any text may be typed.
- PortScan.PortScanModel.ScanKeys: takes the order of the keys as a parameter; the string
  order the source sorts by is not modelled.
- The terminal interface is a value, as in the source, but for `attemptedActions`, a map the
  source shares among copies of the model. Views, spinners, the run log, forms and other
  sub-models are reduced to the messages they send; restarting the session is not modelled.
- Bootstrap.ClassifyBlockers: directories and user names in the commands of an action are
  left out; the action's id and banner are kept.
- EnvFile.RenderTemplate: takes the substitutions as given; validation of the workspace and
  the building of the substitution map are left out.
- Quoting.PgpassFileRoundTrip: the reader is one that ends a line at a newline; libpq also
  drops a carriage return there.
- ConfigLexer.LexSource: works on characters, one for each byte of the source.
- AsteriskInstall.Installer.Install: the calls of a rollback succeed; every other failing call
  may leave anything in what it was changing. The checks before the snapshot are left out,
  and the validation of an existing manager configuration is a parameter.
- DestinationStore.ExclusiveRun: `Prepare` is one step of an interleaving; the calls of a close
  and of a sweep are two.
- Texts that the source trims or splits on white space are sequences of decoded code points;
  only the lexer works on bytes.
- Two goroutines that complete one lease at the same time: the mutex makes the consumption
  atomic, and the model has completions one after the other.
- Headless runs, update and restart of an installation, flag parsing, version checks,
  processor and GPU detection, container selection and classification, and docker argument
  lists: linear plumbing with easy members.
