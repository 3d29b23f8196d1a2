# Verified models of the remote agent

The agent is a Windows service that keeps an identity with a protected private key, downloads
files on command, answers inventory, metrics and antivirus requests, and guards its own runtime
directory. This project models the parts of it where a failure, a crash or an unlucky
interleaving could do harm, and proves what those parts promise over every run.

`dafny verify dfyconfig.toml` checks everything.

## How the models are built

Code that several goroutines run at once is modelled twice. A step machine on values has one
step per critical section, channel operation or file operation, and an `Execute` (or `Run`)
function that follows any sequence of steps, skipping those that are not possible where they
stand; theorems about it hold for every interleaving. Beside it a class carries the fields the
code updates in place, and each of its methods is proved to do exactly one step of the machine,
or for sequential code a run of it. Sequential code that works on files or on lists is a class
or a method with its loops, proved against a specification function.

Whatever the outside world decides is a step of the machine (the moment of a timer, a crash, a
refusal) or an input of the method: a script that says for every call whether it takes effect
and whether it is reported to have done so. Contracts therefore say both what holds under every
script and that without faults the operation succeeds exactly when it should. Foreign functions
are values in a `Platform` record (JSON, data protection, key derivation, SHA-256, case
folding, device names); the few laws they need are named predicates (`Lawful`,
`CaseKeepsNames`, `FoldKeepsLength`).

| Files | Component |
|---|---|
| `Identity`, `MigrationMachine`, `MigrationTheorems`, `StateFile`, `Migration` | moving the private key to machine protection |
| `DownloadQueue`, `DownloadManager`, `DownloadPublication`, `DownloadService` | the download manager, its publication pipeline, and the two together |
| `WindowsPath`, `RootPolicy` | where downloads may be written |
| `SecurityDescriptor`, `StartupGate` | the access-list gate at start-up |
| `RotatingLog` | the log file and its backups |
| `InstalledAppsWorker`, `Inventory` | the inventory pipeline and the inventory itself |
| `Antivirus`, `ServiceHost`, `StreamCommand` | scans, the service control loop, stream commands |
| `Base64`, `AgentAuth` | canonical encodings and the signed transcript |
| `Common` | shared vocabulary |

## What the proofs found

Seven promises hold only under a condition. Each is proved to hold exactly under it.

- The log stays within its limit over all writes if and only if at least one backup is
  configured or the limit is zero (`RotatingLog.LimitHoldsExactlyWithBackups`).
- A log is usable exactly as long as no rotation's `Close` has failed. `rotateFiles` returns
  before clearing a handle that failed to close and `Write` only reopens a cleared one, so after
  such a failure nothing is stored any more until the log itself is closed; after any other
  failures the next write without faults is stored (`RotatingLog.UsableExactly`, about sessions
  of writes; `RotatingLog.OneFailure` is the failing input beside one that recovers). The log's
  own `Close` drops a ruined handle (`RotatingLog.Log.Close`), so a later write opens the file
  anew.
- Destinations are safe over every interleaving of jobs and every choice of temporary names if
  and only if no command's file has, up to letter case, the form of another command's temporary
  names (`DownloadPublication.SafeExactlyWithoutTempForm`).
- COMPLETED is honest, in that the destination then holds bytes of the commanded hash, over the
  same interleavings if and only if a command whose file has that form wants the same hash as
  the other (`DownloadPublication.HonestExactlyWithoutMixUp`); the failing run publishes between
  the other's hash check and its rename (`DownloadPublication.CollisionMixesUp`).
- When removals succeed a temporary file survives its job if and only if its boundary refused
  it right after creation, a path that removes nothing
  (`DownloadPublication.SurvivesExactlyWhenRefused`; `DownloadPublication.RefusedPartStays` is
  the failing input).
- The table of pending inventory requests names exactly the requests in flight as long as no
  request is accepted while a busy notice for it is still on its way; once one is, the table has
  stopped doing so by the time the notices are gone
  (`InstalledAppsWorker.DuplicatesSuppressedExactly`). Waiting for the notice does not help a
  peer: the entry is cleared only after the send
  (`InstalledAppsWorker.PatientPeerIsForgotten`).
- A download root that contains the runtime or install tree is turned away if and only if the
  tree's own names below that root hold no colon and no device name
  (`RootPolicy.AncestorRejectedExactly`).

## Model

| member | source | states |
|---|---|---|
| `Identity.ReprotectDecodes` | service/private_key_migration.go:142-153 | replacing the two protection fields of any valid identity yields one that decodes to the same agent, algorithm and public key with machine protection and the new ciphertext |
| `Identity.CandidateVerifies` | service/private_key_migration.go:179-199 | the in-memory check accepts a re-protected candidate exactly when it is at most 1 MiB and its ciphertext decrypts to the original key |
| `Identity.LoadKey` | service/private_key.go:28-69 | returns the key of the identity or the error of the first failing check, and every rejected plaintext buffer is overwritten with zeros |
| `Identity.Clear` | service/private_key.go:28-50 | overwrites the whole buffer |
| `MigrationMachine.NextDecreases` | service/private_key_migration.go:91-214 | every step of a run brings its end nearer, so each run is finite |
| `MigrationMachine.MigratesOnlyGenesis` | service/private_key_migration.go:116-119 | a run that decides to migrate is looking at the very first identity, however many runs came before |
| `MigrationMachine.ReplaceKeepsInv` | service/private_key_migration.go:166-168 | the replacing write, whether it commits, fails or commits and reports failure, leaves a safe disk |
| `MigrationMachine.RollbackWriteKeepsInv` | service/private_key_migration.go:206-209 | the write that puts the original back leaves a safe disk whatever it reports |
| `MigrationMachine.ActKeepsInv` | service/private_key_migration.go:91-214 | every step, crash and restart keeps the disk safe and the run's knowledge true |
| `MigrationTheorems.CrashSafety` | service/private_key_migration.go:91-214 | after any steps, faults, crashes and reruns the identity is the original bytes or a complete re-protected identity with the same key, in which case the backup is the original; an existing backup and every other file are untouched |
| `MigrationTheorems.NoIdentityNoWrite` | service/private_key_migration.go:93-96 | without an identity file nothing is ever written |
| `MigrationTheorems.HonestOutcome` | service/private_key_migration.go:121-214 | success means a verified re-protected identity beside a backup of the original; every error but an unverified rollback means the identity is unchanged; an unverified rollback still leaves the backup |
| `MigrationTheorems.FaultFreeRunSucceedsExactlyWhenReady` | service/private_key_migration.go:91-177 | a fault-free run succeeds if and only if the key matches, the enrollment is absent or bound, the backup is absent or equal, and the ciphertext is non-empty, decrypts to the key and gives a candidate of at most 1 MiB; it says exactly what is then on disk |
| `MigrationTheorems.Convergence` | service/private_key_migration.go:91-177 | from every state that failed or crashed runs can leave, one fault-free run ends migrated with the original key and agent, and every later one reports so and writes nothing |
| `StateFile.Directory.Write` | internal/statefile/file.go:11-32 | for every way the calls can turn out the target holds its old content or all of the new at every instant; the write is complete, without effect, or complete but reported as failed, as the calls determine; exclusive writes never replace; no other file changes |
| `StateFile.Directory.Stage` | internal/statefile/file.go:12-27 | creating and filling the temporary file changes nothing but that file, and succeeds exactly when every call does |
| `StateFile.Directory.ReadPath` | service/private_key_migration.go:70-82 | a read gives the bytes of the file exactly when it can be inspected, is a regular file of at most 1 MiB, passes the check of its access list and can be read; it says a file is missing exactly when the system says so |
| `Migration.RunIsExecution` | service/private_key_migration.go:91-214 | every instant of a run of the procedure is an instant of an execution of the step machine |
| `Migration.RunSafe` | service/private_key_migration.go:91-214 | every disk along a run is safe and a finished run is honest |
| `Migration.ResumeIsFinish` | service/private_key_migration.go:91-177 | a run without faults depends on nothing outside but the ciphertext it is given |
| `Migration.MigratePrivateKeyProtection` | service/private_key_migration.go:91-177 | the procedure is a run of the machine that ends exactly where the outside world leads it; its outcome is honest, every directory state it passes through is safe, and without faults it succeeds if and only if the disk is ready |
| `Migration.Migrate` | service/private_key_migration.go:92-119 | reading and checking the identity and the enrollment state follow the machine step by step |
| `Migration.MigrateJob` | service/private_key_migration.go:121-134 | creating, reusing and verifying the backup follow the machine step by step |
| `Migration.ProtectAndPublish` | service/private_key_migration.go:135-156 | protecting the key anew and verifying the candidate follow the machine step by step |
| `Migration.PublishUnlessChanged` | service/private_key_migration.go:157-165 | the checks that nothing changed before the replacement follow the machine step by step |
| `Migration.Publish` | service/private_key_migration.go:166-176 | replacing the identity and reading it back follow the machine step by step |
| `Migration.Rollback` | service/private_key_migration.go:201-214 | rollback judges by the bytes read back, never by the write's result |
| `DownloadQueue.ApplyKeepsInv` | download/manager.go:125-215 | every critical section keeps single holding, cache agreement, freshness of held keys and shutdown order |
| `DownloadQueue.SingleFlight` | download/manager.go:125-156 | in every interleaving each active key has exactly one holder (queue entry, worker, or submitter that met a full queue) and no two workers run one key |
| `DownloadQueue.CacheAgrees` | download/manager.go:197-209 | the order list is duplicate-free, names exactly the cached keys and never exceeds 128 |
| `DownloadQueue.CacheHorizon` | download/manager.go:136-140 | between two completed runs of one attempt key at least 128 other keys complete |
| `DownloadQueue.NeverPanics` | download/manager.go:177-187 | the jobs channel is never sent on after it was closed and never closed twice |
| `DownloadQueue.NothingAfterClose` | download/manager.go:163-187 | once every worker has exited the queue is empty, nothing starts or completes in any continuation, and when waiting submitters have returned no key is active |
| `DownloadQueue.CloseMakesProgress` | download/manager.go:163-187 | waiting in Close cannot hang: while a worker remains some worker step is possible and each uses up work that nothing adds to |
| `DownloadManager.Manager.Submit` | download/manager.go:131-155 | the locked part of Submit answers and changes the fields exactly as the machine's submission step |
| `DownloadManager.Manager.TrySend` | download/manager.go:147-151 | the non-blocking send succeeds exactly when there is room, and is only tried on an open channel |
| `DownloadManager.Manager.Finish` | download/manager.go:172-195 | a worker's finish is the machine's step |
| `DownloadManager.Manager.FinishSubmit` | download/manager.go:151-154 | the finish of a submitter that met a full queue is the machine's step |
| `DownloadManager.Manager.SetStatus` | download/manager.go:210-215 | setStatus touches only the running job's entry |
| `DownloadManager.Manager.Remember` | download/manager.go:197-209 | the two cache structures are updated together, the oldest key leaving both |
| `DownloadManager.Manager.Close` | download/manager.go:177-184 | closes once, cancels, and closes the channel under the lock |
| `DownloadPublication.ApplyKeepsInv` | download/manager.go:277-411 | every step of every job keeps each job's temporary file consistent with its progress |
| `DownloadPublication.PublicationSafe` | download/manager.go:277-411 | across interleaved jobs and arbitrary failures a file that is not temporary changes only when a job of that destination publishes, and then to bytes of the commanded size and hash |
| `DownloadPublication.OneResult` | download/manager.go:277-411 | whatever the jobs, their names, the interleaving and the failures are, a run has sent exactly one result once it is over or only cleaning up, and none before |
| `DownloadPublication.OneHonestResult` | download/manager.go:377-410 | when no job publishes under another's temporary name, COMPLETED comes only with the step that leaves bytes of the commanded size and hash at the destination |
| `DownloadPublication.LeftoverParts` | internal/protectedpath/access_windows.go:201-221 | a temporary file outlives its run only if every removal failed or it was refused right after creation, and then it always stays |
| `DownloadPublication.SurvivesExactlyWhenRefused` | download/manager.go:320-326 | when removals succeed a temporary file survives its run if and only if it was refused right after creation |
| `DownloadPublication.RefusedPartStays` | internal/protectedpath/access_windows.go:201-221 | the failing input: a job whose temporary file is created and then refused is over with the file still there |
| `DownloadPublication.CollisionDeletes` | download/manager.go:277-411 | a job that publishes under another job's temporary name can have its file deleted |
| `DownloadPublication.SafeExactlyWithoutCollision` | download/manager.go:277-411 | for temporary names already picked, destinations are safe over every interleaving if and only if no job publishes under another's |
| `DownloadPublication.SafeExactlyWithoutTempForm` | download/manager.go:277-411 | told from the commands alone: destinations are safe over every interleaving of their jobs, from any files and with any fresh temporary names, if and only if no command's file has the form of another's temporary names up to letter case |
| `DownloadPublication.TempFormCollides` | download/manager.go:320-326 | a command with a file name of the form of another's temporary names can lose what it published |
| `DownloadPublication.CaseCollides` | download/manager.go:305-325 | a pair of commands whose names differ in letter case only and still collide |
| `DownloadPublication.ApplyKeepsHash` | download/manager.go:377-410 | when colliding jobs want one hash, a verified temporary file keeps its hash whoever replaces it |
| `DownloadPublication.CollisionMixesUp` | download/manager.go:389-410 | a job that publishes under another's temporary name after the other's hash check makes the other report COMPLETED for wrong bytes |
| `DownloadPublication.HonestExactlyWithSameHash` | download/manager.go:377-410 | for temporary names already picked, every COMPLETED tells of bytes of the commanded hash over every interleaving if and only if jobs that collide want the same hash |
| `DownloadPublication.HonestExactlyWithoutMixUp` | download/manager.go:377-410 | told from the commands alone: every COMPLETED is honest over every interleaving of their jobs if and only if a command with the form of another's temporary names has the other's hash |
| `DownloadPublication.Store.RunJob` | download/manager.go:277-411 | one command ends with one result, and it is COMPLETED if and only if no call before or at the rename fails and the body has the commanded size and hash; apart from the temporary file nothing changes but, exactly when the rename is reached and takes effect, the destination, which then holds the body; when the last removal works the temporary file stays exactly if it was refused after creation |
| `DownloadPublication.Store.RunCreated` | download/manager.go:327-411 | the same from the creation of the temporary file on |
| `DownloadPublication.Store.ReceiveBody` | download/manager.go:351-372 | the pieces of the body end up in the temporary file in their order |
| `DownloadPublication.Store.CopyAndPublish` | download/manager.go:351-411 | the body is stored, and published if and only if the copy, the hash and the rename work, nothing is cancelled and the body is the commanded one |
| `DownloadPublication.Store.VerifyAndPublish` | download/manager.go:377-410 | only a file of the commanded hash is renamed to the destination, and it is exactly when it can be read, nothing is cancelled and the rename works |
| `DownloadService.RepeatedAnswersAreHonest` | download/manager.go:136-140 | in every interleaving a repeated answer is the report of a run, of an accepted command of the same attempt, that completed; when no accepted command has the form of another's temporary names, that run published bytes of its command's size and hash where it says, which is what the asking command wants if and only if the two agree in size, hash and destination |
| `DownloadService.OneRunPerAttempt` | download/manager.go:163-174 | in every interleaving and whatever the commands are, of two runs of one attempt one is over, files included |
| `DownloadService.ApplyKeepsAssigned` | download/manager.go:125-195 | every section of the queue and every step of a run keep commands, keys, workers and runs in agreement: each busy worker has a run of its own, of the command it took, and every other run is over |
| `DownloadService.ApplyKeepsBacked` | download/manager.go:197-209 | every cached result stays the report of a completed run of its key |
| `DownloadService.ApplyKeepsSound` | download/manager.go:277-411 | what a completed run has published keeps matching its command, as long as no accepted command has the form of another's temporary names |
| `WindowsPath.CleanDestinationExactly` | download/destination.go:45-65 | accepted texts are exactly a drive letter, a colon, a separator and valid names, without control characters |
| `WindowsPath.CleanDestinationIdempotent` | download/destination.go:45-65 | cleaning is canonical: the text of a cleaned path cleans to the same path |
| `WindowsPath.ContainsExactly` | download/destination.go:67-70 | containment computed by relative path and IsLocal is prefix of names up to letter case, unless a colon or device name lies below the root |
| `WindowsPath.ContainsIsWithin` | download/destination.go:67-70 | for validated paths the two are the same |
| `WindowsPath.WithinComparable` | download/destination.go:67-70 | two directories that both contain a path are one inside the other |
| `RootPolicy.ValidateRoots` | download/policy.go:11-45 | the loop returns the cleaned list, or the error of the first bad entry, of the directory, or of a directory outside every root |
| `RootPolicy.EntriesExactly` | download/policy.go:16-34 | a list is accepted if and only if every entry is, and keeps their order |
| `RootPolicy.EntryExactly` | download/policy.go:16-34 | an entry is accepted if and only if it cleans to something below a drive that neither sees nor lies in the install tree, does not see the runtime root, and inside it is strictly below data |
| `RootPolicy.AcceptedRootsKeepApart` | download/policy.go:11-45 | every path under any accepted root is outside the install tree and does not see it, does not see the runtime root, and inside it is strictly below data; for trees with ordinary names it is disjoint from the install tree and never the runtime root or above it |
| `RootPolicy.DestinationsKeepApart` | download/destination.go:22-43 | the same for the directory of every command that is let through |
| `RootPolicy.AncestorRejectedExactly` | download/policy.go:24-32 | a root that contains a tree is refused if and only if the tree's names below it hold no colon or device name |
| `RootPolicy.RevalidationIsStable` | download/manager.go:99-112 | checking the accepted roots a second time, as the manager does, accepts the same list |
| `RootPolicy.FirstContainingExactly` | download/policy.go:54-58 | the search finds a root that contains the path if there is one |
| `RootPolicy.RuntimeNeverRelaxed` | download/policy.go:47-61 | no path inside the runtime tree ever gets the relaxed boundary, whatever the tree's own names are |
| `RootPolicy.SameKind` | download/policy.go:47-61 | a directory under an accepted root and the files put in it get the same kind of boundary, whatever the runtime tree's own names are |
| `SecurityDescriptor.ClassifyDescriptor` | internal/protectedpath/runtime_windows.go:24-99 | the loop over entries computes the class, the first offending principal and mask, and all reasons in order |
| `SecurityDescriptor.ValidateDescriptor` | internal/protectedpath/path_windows.go:71-112 | the looser loop accepts exactly trusted owners whose list holds only trusted allow entries and an effective full-control entry for each principal |
| `SecurityDescriptor.CanonicalExactly` | internal/protectedpath/runtime_windows.go:24-99 | canonical means exactly a trusted owner and two full-control entries, SYSTEM and Administrators, with the exact inheritance flags, protected and not inherited at the root |
| `SecurityDescriptor.UnsafeExactly` | internal/protectedpath/runtime_windows.go:24-99 | unsafe means exactly an untrusted owner, no list, or a list with a suspicious entry |
| `SecurityDescriptor.ValidationSandwich` | internal/protectedpath/path_windows.go:71-112 | canonical implies accepted by validation, and accepted by validation implies not unsafe |
| `SecurityDescriptor.RepairIsCanonical` | internal/protectedpath/runtime_windows.go:238-263 | repairing any descriptor with a trusted owner makes it canonical |
| `StartupGate.PlanIsTopological` | internal/protectedpath/runtime.go:32-53 | every planned directory comes before what lies in it |
| `StartupGate.OpenedPins` | internal/protectedpath/runtime_windows.go:312-348 | the pinned objects are the existing planned ones, each with its parent pinned earlier |
| `StartupGate.Gate.PinAncestors` | internal/protectedpath/runtime_windows.go:195-236 | every directory above the root is pinned exactly when each one opens, is readable, is a directory and no link, and resolves to itself |
| `StartupGate.Gate.Repair` | internal/protectedpath/runtime_windows.go:246-263 | the access list of one object is replaced or not, and success reported or not, as the system decides; nothing else changes |
| `StartupGate.Gate.EnsureObject` | internal/protectedpath/runtime_windows.go:393-419 | success leaves the object canonical; only repairable objects are touched; without faults it fails exactly on an unsafe object |
| `StartupGate.Gate.EnsureObjects` | internal/protectedpath/runtime_windows.go:421-448 | nothing is repaired if anything is unsafe; otherwise parents first until all are canonical; without faults it fails only on an unsafe object, so no parent check fails by itself |
| `StartupGate.Gate.OpenPlan` | internal/protectedpath/runtime_windows.go:312-348 | the first pass writes nothing and succeeds only if nothing planned is unsafe, and without faults exactly then |
| `StartupGate.Gate.EnsureStartup` | internal/protectedpath/runtime_windows.go:265-385 | an unsafe object, or a directory above the root that is a link or not what it seems, means no access list and no lock file is written; success means the lock is held and all is canonical; every repair happens under the lock in a canonical parent; without faults it fails exactly on an unsound ancestor, a missing root or an unsafe object |
| `StartupGate.Gate.StartTwice` | internal/protectedpath/runtime_windows.go:265-385 | after a successful start a second one changes no file and no access list, and without faults it succeeds |
| `RotatingLog.MoveKeepsChain` | service/logging.go:118-124 | a rename into the empty next slot keeps the log read from oldest to newest |
| `RotatingLog.DropOldest` | service/logging.go:114-117 | removing the oldest backup leaves the end of the log |
| `RotatingLog.ShiftLosesOldest` | service/logging.go:108-127 | a whole rotation loses the oldest backup and nothing else |
| `RotatingLog.AppendExtendsChain` | service/logging.go:146-147 | appending to the current file appends to the log |
| `RotatingLog.LimitHoldsExactlyWithBackups` | service/logging.go:129-152 | all files stay within the limit over all writes if and only if there is a backup or the limit is zero |
| `RotatingLog.Log.OpenCurrent` | service/logging.go:79-95 | opens the existing file or creates an empty one, as the system decides; a failure may still have created it |
| `RotatingLog.Log.Remove` | service/logging.go:115-117 | a removal takes effect or not, and a missing file is told apart from a failure |
| `RotatingLog.Log.Rename` | service/logging.go:118-124 | a rename moves the whole file or nothing, and a missing source is told apart from a failure |
| `RotatingLog.Log.ShiftInto` | service/logging.go:113-125 | one turn of the loop goes through exactly when its two operations do; cut short anywhere it leaves the end of the log within the limit |
| `RotatingLog.Log.RotateFiles` | service/logging.go:108-127 | it succeeds exactly when the close, every turn and the opening do, and is then a whole rotation with an empty open file; the handle is ruined exactly by a failed close, and then no file is touched; every other failure leaves the end of the log; foreign files are untouched |
| `RotatingLog.Log.MakeRoom` | service/logging.go:132-141 | reopening and rotating leave room for the message exactly when every operation they need works, and ruin the handle exactly by a failed close |
| `RotatingLog.Log.Write` | service/logging.go:129-152 | success means the whole message (as much as one file may hold) follows at most one rotation, and comes about exactly when every operation the write needs works; what a failing write stores is determined; the handle is ruined exactly by a failed close, and a ruined one stores nothing |
| `RotatingLog.Log.Append` | service/logging.go:146-150 | the write appends everything, or a prefix and reports an error, and the size follows the file |
| `RotatingLog.Log.Close` | service/logging.go:154-167 | closing forgets the handle and changes no file |
| `RotatingLog.Session` | service/logging.go:79-152 | for any writes and any failing operations the files hold the end of the initial log followed by every byte stored, within the limit when there is a backup, and the record says of every message whether it was stored, how much, and whether its close ruined the handle |
| `RotatingLog.UsableExactly` | service/logging.go:108-152 | before any message the handle is ruined if and only if some close failed; a message written without faults is stored if and only if none did, whatever else failed; after one nothing is stored and no file changes |
| `RotatingLog.OneFailure` | service/logging.go:108-111 | the failing input: after a failed close the next message is lost although nothing fails any more; after a failed removal it is stored |
| `InstalledAppsWorker.StepMovesLine` | client/installed_apps.go:57-127 | a step adds one accepted request at the end, removes one answered request at the front, and moves nobody else |
| `InstalledAppsWorker.FirstInFirstOut` | client/installed_apps.go:57-127 | in every reachable state the accepted requests are those answered, being written, waiting as results, being collected and queued, in this order |
| `InstalledAppsWorker.ApplyKeepsPending` | client/installed_apps.go:57-127 | pending identifiers are always somewhere in the pipeline, busy notices included |
| `InstalledAppsWorker.PendingBounded` | client/installed_apps.go:57-74 | at most 4 + 1 + 8 + 1 identifiers are pending |
| `InstalledAppsWorker.ApplyKeepsExactly` | client/installed_apps.go:113-127 | a step keeps the table exact if and only if it does not clear a busy notice for a request in flight |
| `InstalledAppsWorker.DuplicatesSuppressedExactly` | client/installed_apps.go:57-74 | told at submit: as long as no request is accepted while its own busy notice is on its way the table names exactly the requests in flight, none twice; over a run whose notices are all gone this is if and only if |
| `InstalledAppsWorker.ExactUntilForgotten` | client/installed_apps.go:113-127 | inside the writer: the table stays exact if and only if no busy notice is cleared while its request is in flight |
| `InstalledAppsWorker.DoomStays` | client/installed_apps.go:113-127 | a busy notice ahead of the reply to its own request stays ahead until it is cleared, and that forgets the request |
| `InstalledAppsWorker.BusyNoticeForgetsLaterJob` | client/installed_apps.go:63-72 | a run in which a queued request has lost its entry |
| `InstalledAppsWorker.PatientPeerIsForgotten` | client/installed_apps.go:118-124 | a run in which a peer waits for its busy notice, asks again, and its queued request has lost its entry |
| `InstalledAppsWorker.Worker.Submit` | client/installed_apps.go:57-74 | submit never waits and is the machine's step: duplicates dropped, queue, busy notice or nothing |
| `InstalledAppsWorker.Worker.Collect` | client/installed_apps.go:75-84 | the collector takes the oldest job |
| `InstalledAppsWorker.Worker.Deliver` | client/installed_apps.go:94-110 | its result goes to the end of the result queue |
| `InstalledAppsWorker.Worker.Receive` | client/installed_apps.go:113-119 | the writer takes the oldest reply |
| `InstalledAppsWorker.Worker.Sent` | client/installed_apps.go:119-121 | the send is over, however it ended |
| `InstalledAppsWorker.Worker.Clear` | client/installed_apps.go:120-125 | the locked delete after the send, however it ended |
| `Inventory.KeyTextInjective` | installedapps/collector.go:74-75 | two products never share a key text in the table of seen entries |
| `Inventory.Collector.Add` | installedapps/collector.go:55-85 | an entry is refused exactly when the context is cancelled, or it is the 10001st, or it brings the 2001st product; otherwise the table and list stand for the products seen |
| `Inventory.CollectWith` | installedapps/collector.go:47-100 | succeeds if and only if both views can be read, both limits hold and the context outlives every look at it, and returns the sorted list with one application per product |
| `Inventory.Sort` | installedapps/collector.go:90-98 | a sorted arrangement of the same applications |
| `Inventory.TiesAreIdentical` | installedapps/collector.go:90-98 | two applications of which neither comes first are the same |
| `Inventory.UniqueArrangement` | installedapps/collector.go:90-98 | a collection has one sorted arrangement, so the unstable sort has a unique result |
| `Inventory.InventoryDetermined` | installedapps/collector.go:47-100 | the inventory depends only on which products there are |
| `Inventory.OrderDoesNotMatter` | installedapps/collector.go:51-58 | neither products nor the fact of an error depend on the order of entries or on the view that shows them |
| `Inventory.CollectionIsCanonical` | installedapps/collector.go:47-100 | two collections of the same entries, in whatever order and from whichever view, are both errors or the same list |
| `Inventory.MirroredViewAddsNothing` | installedapps/collector.go:31-36 | a second view with the same entries changes nothing |
| `Inventory.InventoryBounded` | installedapps/collector.go:63-73 | one application per product, each named and every field within its bound |
| `Antivirus.OneScanAtATime` | antivirus/scan.go:91-105 | in every interleaving at most one scan is in flight |
| `Antivirus.EventsComeInPairs` | antivirus/scan.go:104-122 | apart from rejections the events are pairs of a start and its own result with at most one open start |
| `Antivirus.CloseReachesTheScan` | antivirus/scan.go:125-132 | after the locked part of Close the scan in flight is cancelled, however often the cancel function was overwritten, and its result says so |
| `Antivirus.NothingAfterClose` | antivirus/scan.go:125-133 | after Close has returned no scan runs or starts and nothing more is sent |
| `Antivirus.Manager.Submit` | antivirus/scan.go:91-105 | the locked section of Submit is the machine's step |
| `Antivirus.Manager.Finish` | antivirus/scan.go:104-107 | the deferred reset of the busy flag is the machine's step |
| `Antivirus.Manager.Close` | antivirus/scan.go:125-131 | the locked section cancels whatever scan is in flight |
| `ServiceHost.Handler.Execute` | internal/servicehost/host_windows.go:33-108 | the event loop, updating its variables case by case, reports and returns exactly what the specification says for every ordering of events |
| `ServiceHost.Handler.Serve` | internal/servicehost/host_windows.go:66-106 | each case of the select updates the variables and reports as one turn of the specification |
| `ServiceHost.Handler.BeginStop` | internal/servicehost/host_windows.go:53-64 | a stop is begun once: reported, the runtime cancelled, the stop timer set |
| `ServiceHost.NothingAfterExit` | internal/servicehost/host_windows.go:95-106 | once the loop has returned no event does anything |
| `ServiceHost.ReportsInOrder` | internal/servicehost/host_windows.go:33-108 | reports are start-pending, then running, then stop-pending, checkpoints never decrease within a phase, and a stop begins at most once |
| `ServiceHost.NoRunningAfterStop` | internal/servicehost/host_windows.go:53-74 | once a stop has begun every further report is stop-pending |
| `ServiceHost.ExitIsHonest` | internal/servicehost/host_windows.go:95-105 | exit code 2 only after a stop was reported; 0 or 1 exactly as the first result of the runtime says |
| `ServiceHost.DeadlineOnlyBeforeReady` | internal/servicehost/host_windows.go:67-89 | the startup deadline can only stop a service that never became ready |
| `StreamCommand.NextKeepsInv` | client/client.go:325-336 | every step of the sender and of the consumer keeps the channel and the consumer in agreement with the commands given |
| `StreamCommand.FinalSendNeverBlocks` | client/client.go:325-336 | with one sender the last send of a call always finds room, with or without a consumer |
| `StreamCommand.CallsReturn` | client/client.go:325-336 | a call ends within three steps of its own whatever the consumer does in between |
| `StreamCommand.LatestCommandWins` | client/client.go:325-336 | between calls the last command is in the channel, or is held or obeyed by the consumer that took it |
| `StreamCommand.NothingStale` | client/client.go:325-336 | commands are received in order, none twice, each with its own value |
| `StreamCommand.PublishesOnlyWhileStarted` | client/performance.go:51-74 | a periodic message is only published while the last command received said start |
| `StreamCommand.Settles` | client/performance.go:51-74 | once calls stop a live consumer ends up doing what the last command says |
| `StreamCommand.Stream.Consume` | client/performance.go:51-74 | one turn of the consumer's loop is the machine's step |
| `StreamCommand.Stream.SetStreamState` | client/client.go:325-336 | one call with any interference of the consumer is a run of the machine and never waits |
| `Base64.DecodeEncode` | internal/agentauth/protocol.go:68-76 | bytes survive encoding and strict decoding |
| `Base64.EncodeDecode` | internal/agentauth/protocol.go:72-74 | whatever strict decoding accepts is what encoding produces, so padding and trailing bits leave no second form |
| `Base64.StrictDecodeIsCanonical` | internal/agentauth/protocol.go:68-76 | a text decodes to bytes and has their encoded length if and only if it is their encoding |
| `Base64.NewlinesAreSkipped` | internal/agentauth/protocol.go:72 | strict decoding alone accepts a line feed anywhere, which is what the length check removes |
| `AgentAuth.DecodeExactly` | internal/agentauth/protocol.go:68-76 | decoding gives certain bytes if and only if they have the wanted size and the text is their canonical encoding |
| `AgentAuth.ReencodingNeverRejects` | internal/agentauth/protocol.go:72-74 | the comparison with the re-encoded text never rejects what the length and the strict decoder let through |
| `AgentAuth.CanonicalIDExactly` | internal/agentauth/protocol.go:53-66 | an identifier is accepted if and only if it is five groups of hexadecimal digits in the 8-4-4-4-12 form |
| `AgentAuth.CanonicalIDIdempotent` | internal/agentauth/protocol.go:53-66 | canonical identifiers are fixed points and differ from the input in letter case only |
| `AgentAuth.SameCanonicalID` | internal/agentauth/protocol.go:53-66 | two identifiers share a canonical form if and only if they differ in letter case only |
| `AgentAuth.Transcript` | internal/agentauth/protocol.go:100-123 | the loop writes the five fields of valid inputs and rejects every other input |
| `AgentAuth.ParseFrame` | internal/agentauth/protocol.go:97-99 | an independent length-prefix reader recovers any list of fields |
| `AgentAuth.TranscriptReadable` | internal/agentauth/protocol.go:97-123 | a transcript is always 176 bytes and the reader gets all five fields back |
| `AgentAuth.TranscriptInjective` | internal/agentauth/protocol.go:100-123 | different identifiers, challenges or nonces are never signed as the same bytes |
| `AgentAuth.TranscriptExactly` | internal/agentauth/protocol.go:100-117 | a transcript exists if and only if the identifier is canonical and the three values are canonical encodings of 32 bytes |

## Left out

- Data protection, Ed25519, SHA-256, JSON and UUID parsing are function values with the laws named in the models; that Go matches JSON keys to struct fields without regard to letter case is not modelled.
- In the migration the key buffers cleared on return are not modelled; clearing is modelled for loading a key only.
- Temporary names are parameters, fresh when they are used; that random names are unlikely to collide is not modelled.
- Changes by privileged outsiders while a migration, a rotation or a start-up check runs are outside the trust boundary.
- The lock file's own creation is one step; handles, sharing modes and final-path queries are reduced to whether an object opens and how it inspects.
- The check of whether a boundary permits a rotation is one call of the script.
- Download requests, retries, redirects, tokens, progress percentages and the disk-space check are reduced to a body that arrives in pieces or a failure.
- Sending a result can fail silently in the code; the models count the attempt.
- Letter-case folding and the table of device names are parameters of the path model; only Windows paths are modelled, and links along a destination are not.
- Inventory.Sort: stands in for the library's unstable sort; the uniqueness of the sorted arrangement makes the two equivalent.
- RootPolicy.AcceptedRootsKeepApart: containment of a tree whose own names hold a colon or a device name is excluded only as far as the policy sees it; RootPolicy.AncestorRejectedExactly says what happens otherwise.
- Short-name aliases of directories and files (8.3 names such as LONGSU~1) are not modelled: a place is known by its names up to letter case only. Such an alias is a second name of a directory or file that the form of temporary names and the disjointness of roots do not see.
- DownloadPublication.PublicationSafe: needs that no job publishes under another's temporary name; DownloadPublication.SafeExactlyWithoutCollision shows the need.
- DownloadPublication.OneHonestResult: the clause about matching bytes needs the same; DownloadPublication.HonestExactlyWithSameHash shows how much of it is needed for the hash.
- DownloadService.RepeatedAnswersAreHonest: the clauses about what was published need that no accepted command has the form of another's temporary names, for the same reason.
- StateFile.Directory.ReadPath: whether a file is regular and properly protected is decided by the system at each read, not by what the directory holds.
- StreamCommand.FinalSendNeverBlocks: covers the one sender and at most one consumer a connection has, not several senders on one channel.
- Timers are nondeterministic steps: durations, and the wrap-around of the 32-bit checkpoint after more than four billion ticks, are not modelled.
- The contexts that end all goroutines of a connection are not modelled for the inventory pipeline.
- Retry back-off, enrollment requests, screen streaming, process commands, configuration loading, the desktop helper, installers and the event log are not modelled.
