# Verified model of the control center

This project models the stateful core of the control center and proves what its workflows
promise. Everything is Dafny; `dafny verify dfyconfig.toml` checks the whole project.

The model follows the program's own modules:

- **Rotating audit log** (`AuditRotation`, `AuditRetention`, `AuditSink`). The numbered files are
  an array of optional segments, and every unlink and replace of a rotation is one step. Runs
  contain writes that stop after any step and any number of restarts, and they carry the history of
  all accepted records.
- **Approval store** (`Approvals`, `ApprovalStore`). Requests are built, swept for expiry, decided,
  saved and reloaded. A save either replaces the snapshot or fails and leaves it alone.
- **Plans and manifests** (`Digests`, `Manifest`, `Operations`, `OperationRules`, `OperationService`,
  `OperationRecords`). Hashes are terms, so two hashes are equal exactly when the hashed values are.
  The operation service moves a plan, its manifest and its approval request together; its plans are
  saved as records and read back by the next process.
- **Approval to execution** (`Policy`, `ExecutionChain`, `ControlledExecution`, `Pipeline`). The
  planner, the dry run, the gate and the controlled service re-check each other before one provider
  call.
- **Release workflow** (`Backups`, `ServiceActivation`, `Deployments`, `Rollbacks`, `ReleaseStore`,
  `ReleaseProofs`, `ReleaseRuns`, `ReleaseWorkflow`). The managers decide, the release store keeps
  directories and one CURRENT file per project; any step of the store may fail.
- **Archives** (`Trees`, `Paths`, `Archive`, `FilesystemBackup`). A directory tree, with hard links
  and with directories that cannot be listed, is walked into archive members and extracted again. The
  provider keeps such archives for the backup catalog.
- **Login** (`LoginLimiter`, `Numerals`, `Totp`). The pruned list of failures is compared with the
  full history of attempts; one-time codes with section 5.3 of RFC 4226 and sections 4.2 and 5.2 of
  RFC 6238.
- **Catalog and V3 service** (`PublishedProjects`, `V3Records`, `V3Insights`). Id allocation over a
  directory listing, and six collections saved as one list of documents.

`Texts` and `Sets` hold what several of them share.

Classes stand for the objects whose methods update their fields: `JsonlAuditSink`,
`MetadataAuditLog`, `JsonApprovalStore`, `Service`, `ControlledExecutionService`,
`ExecutionPipelineService`, `BackupManager`, `DeploymentManager`, `RollbackManager`,
`FilesystemBackupProvider`, `FilesystemReleaseProvider`, `AuthService`, `TotpVerifier`,
`ReadSafePublishedProjectsProvider` and `V3InsightsService`. Each method is tied to a function of
the old state, and the lemmas are about that function and about runs of it.

Text is `string`. The two screens (secret-like content, raw stream content) and the redactor are
functions of which only four laws are used (`Texts.Lawful`): redaction leaves text without a secret
alone and marks the rest, nothing is flagged without a colon, an equals sign or both a dash and a
space, and stripping flags nothing new. Times of the stores are integers, times of the login code
are reals. Clock readings, generated ids, replies of providers and the success of each save are
parameters.

Nine properties that one would expect do not hold of the code. The model follows the code and states
what does hold:

- The audit log writes a record with a blank field, which its own loader then refuses
  (`BlankFieldIsWrittenButNotReadable`). A reload fails exactly when such a record is retained
  (`ReloadFailsOnlyOnUndecodableRecords`).
- An approval request with a blank actor, action, reason or decider is saved and cannot be reloaded
  (`BlankReasonIsSavedButNotReadable`). The exact conditions are `BuiltStorableExactly` and
  `DecidedStorableExactly`.
- An operation plan of a user with a blank id is saved and cannot be reloaded
  (`BlankUserIdIsSavedButNotReadable`). The exact condition is `OperationRecords.EveryRunReloadsExactly`.
- A file whose printed path is blank, longer than 256 characters or holds NUL, CR or LF is archived
  and cannot be restored (`BlankNameIsArchivedButNotRestored`).
- A file with two names in the tree is archived, its second name as a link, and the archive cannot be
  restored (`HardLinkIsArchivedButNotRestored`). `BackupRoundTrip` shows that this and the previous
  case are the only ones.
- A directory that cannot be listed is archived and released as if it were empty
  (`UnlistedFileIsNotArchived`). Archive and release are complete exactly when no such directory holds
  a file (`BackupRoundTrip`, `ImageComplete`).
- A commit name with a slash may be published inside an earlier release and alters it
  (`NestedCommitAltersARelease`; `NestedCommitIsAccepted` is a run of two admitted deploys).
  `DeployAltersExactly` says which directories a deploy alters, and with single-component names no
  release is ever altered (`EveryFlatRunKeepsReleases`).
- A rollback accepts any existing directory of the project, so that CURRENT may name no release
  (`RollbackNeedsNoRelease`). CURRENT always names one exactly when every rollback is given the path of
  one (`CurrentNamesAReleaseExactly`).
- The login limit counts since the last login only. A window of full length may hold more failures
  than the limit when a login lies in it; `EveryWindow` gives the bound for every window, and
  `LimitHoldsExactly` shows that the plain bound holds for limits zero and one only.

A deployment whose final save fails can be executed again and then calls the provider twice
(`LostSaveDeploysAgain`); without a failing save it is called at most once
(`SavedRunsDeployAtMostOnce`). `Deployments.StepSound` and `Rollbacks.StepSound` keep the exact number
of calls in every case.

## Model

| member | source | states |
|---|---|---|
| Texts.StripIdempotent | control_center/v3.py:434-439 | Stripping twice is stripping once, never lengthens, and empties exactly the blank texts the checks refuse |
| Texts.StripKeepsSafe | control_center/published_projects.py:379-389 | A text that passed the text check passes it again after stripping, and stripping it again changes nothing |
| Texts.SafeExactly | control_center/published_projects.py:379-389 | A text is safe exactly when some character is no white space, it is short enough, neither screen flags it and no character lies below the space |
| AuditRotation.StageShape | control_center/audit.py:345-365 | After any number of rotation steps, from any pattern of missing files, the unmoved files are in place, one slot is free and the moved files are one place up |
| AuditRotation.RotationNeverOverwrites | control_center/audit.py:345-365 | The target of every replace is free when the replace happens |
| AuditRotation.RotationLosesOnlyTheOldest | core_operator/audit.py:288-306 | Stopped after any step, a rotation has lost at most the oldest file; what a reader sees is otherwise unchanged and in order |
| AuditRotation.WriteRetains | control_center/audit.py:78-124 | Every outcome of a write, crashed or not, leaves a suffix of what was readable, with the record appended when it was written, and never empties a non-empty log |
| AuditRotation.WriteExactly | control_center/audit.py:78-124 | A write is refused exactly for an unsafe or oversized line; it is written exactly when the append works and the current file has room or every file operation of the rotation works; the current file then grows by the record, or a new one holding it takes its place above the others |
| AuditRotation.StepKeeps | control_center/audit.py:162-229 | One append or restart keeps disk, memory and history in suffix order and every file within its size |
| AuditRotation.TotalBound | control_center/audit.py:108-116 | Files that each respect the limit together respect the limit times their number |
| AuditRotation.EveryRunKeepsASuffix | control_center/audit.py:126-150 | Over every run with crashes and restarts the readable log is a suffix of memory and of the history, is not empty once a record was accepted, and all files together stay within retention + 1 times the limit |
| AuditRetention.PairSum | control_center/audit.py:108-116 | Files of which neighbours overflow the limit hold one overflow per pair |
| AuditRetention.RotateDense | control_center/audit.py:345-365 | A completed rotation and the append after it keep the neighbour overflow, because the rotation happened for that overflow |
| AuditRetention.DroppedOnlyAfterManyNewerBytes | control_center/audit.py:78-124 | In every crash-free run a record leaves the log only after more than floor((retention + 1) / 2) full files of newer accepted records |
| AuditRetention.HistoryIds | control_center/audit.py:190-222 | With fresh record ids the history never repeats an id |
| AuditRetention.HistoryIsEveryAcceptableRecord | control_center/audit.py:78-124 | Over every crash-free run the history is exactly the attempted records that are safe and fit a file, in order |
| AuditRetention.MemoryAfterRestart | control_center/audit.py:153-156 | A restart leaves disk and history alone and makes memory what the disk holds |
| AuditRetention.DecodableMeans | control_center/audit.py:248-318 | A record decodes exactly when no text in it is blank, it is safe, and its duration, if any, lies within one day |
| AuditRetention.ReloadFailsOnlyOnUndecodableRecords | control_center/audit.py:126-150 | Over every run with fresh ids a reload succeeds exactly when every retained record decodes: the size check and the duplicate check never fire |
| AuditRetention.BlankFieldIsWrittenButNotReadable | control_center/audit.py:248-318 | A concrete record with a blank field that is accepted, retained and then refused by the loader |
| AuditSink.JsonlAuditSink.Rotate | control_center/audit.py:345-365 | The downward loop leaves exactly the stage reached by the operations that succeeded |
| AuditSink.JsonlAuditSink.Write | control_center/audit.py:78-124 | A write is refused, written or failed, and leaves the files, exactly as `WriteExactly` says for the operations that worked |
| AuditSink.JsonlAuditSink.Read | control_center/audit.py:126-150 | Reading returns the retained records oldest first, or refuses exactly when a file is too large, a record does not decode or an id repeats |
| AuditSink.JsonlAuditSink.ReadFile | control_center/audit.py:138-147 | One file extends the older records exactly when all of them together are loadable |
| AuditSink.MetadataAuditLog.Append | control_center/audit.py:162-229 | Memory grows by the record exactly when the sink wrote it |
| AuditSink.MetadataAuditLog.Restart | control_center/audit.py:153-156 | A new process holds exactly what the sink still holds, or does not start |
| Trees.CountsGrow | control_center/filesystem_backup.py:145-174 | The running file and byte counters never decrease, so a limit passed at the end was never exceeded on the way |
| Trees.AcceptedWalksExactly | control_center/filesystem_backup.py:145-174 | A walk is accepted exactly when it meets only directories and regular files, no protected part, no file of unsafe content or size, and both totals stay within their limits |
| Trees.WalkComplete | control_center/filesystem_backup.py:145-174 | The walk yields only files of the tree, each as it is there, and all of them exactly when every directory that cannot be listed holds no file |
| Trees.FilesHaveNoChildren | control_center/filesystem_backup.py:176-203 | No file of a tree lies below another one, so no extraction step collides |
| Paths.PosixRoundTrip | control_center/filesystem_backup.py:224-232 | Parsing a printed path of proper names gives the path back |
| Paths.PartsSplit | control_center/filesystem_backup.py:224-232 | A text falls into two at every slash, and a piece without a slash is one part unless it is empty or a single dot |
| Paths.AcceptedNamesExactly | control_center/filesystem_backup.py:224-237 | A name is accepted exactly when it is a relative path of visible printable text within the length limit, with no part that leaves the root or is protected |
| Paths.AcceptedNamesAreStable | control_center/filesystem_release.py:126-141 | An accepted name stands for proper safe parts, and printing and reading them again changes nothing |
| Paths.PrintedNameAccepted | control_center/filesystem_backup.py:224-232 | The printed form of an accepted name is accepted for the same path, unless it is blank |
| Archive.WriteArchive | control_center/filesystem_backup.py:145-174 | The loop accepts exactly the allowed walks within both limits and returns their members and totals, a second name of an archived file as a link |
| Archive.ExtractArchive | control_center/filesystem_backup.py:176-203 | The loop rebuilds exactly what the members describe, or refuses at the first bad one or above the member limit |
| Archive.NameAccepted | control_center/filesystem_backup.py:267-271 | A member name printed from a proper path is accepted for that path exactly when it is restorable: not blank, at most 256 characters and free of NUL, CR and LF |
| Archive.UnpackMirrors | control_center/filesystem_backup.py:176-203 | Extraction of an accepted walk gives its files and totals if every path is restorable and no file has two names, and refuses otherwise |
| Archive.UnpacksExactly | control_center/filesystem_backup.py:176-203 | For every archive, whoever wrote it, the extraction succeeds exactly when every member lands in a free place of its own and the files together are small enough, and it leaves exactly the files of the archive |
| Archive.WalkFileMap | control_center/filesystem_backup.py:145-174 | The files met by the walk are the files that the scans of its directories deliver |
| Archive.WalkCount | control_center/filesystem_backup.py:163-174 | The reported count is the number of files that the scans deliver, which is the number of files of the tree exactly when no directory hides one |
| Archive.BackupRoundTrip | control_center/filesystem_backup.py:145-203 | For every tree the writer accepts, extraction succeeds exactly when every scanned path is restorable and no file has two of them; it then gives the same path-to-content map of the scanned files, count and byte total, and these are all files of the tree exactly when no directory that cannot be listed holds one |
| Archive.BlankNameIsArchivedButNotRestored | control_center/filesystem_backup.py:224-232 | A concrete accepted tree whose archive cannot be extracted |
| Archive.HardLinkIsArchivedButNotRestored | control_center/filesystem_backup.py:145-192 | Two names of one file are accepted, the second is stored as a link, and the extraction refuses the archive |
| Archive.UnlistedFileIsNotArchived | control_center/filesystem_backup.py:145-174 | A directory that cannot be listed is accepted, and the file in it is missing from the archive |
| ReleaseStore.CopyTree | control_center/filesystem_release.py:143-174 | The copy loop builds exactly the image of the walk with its counts, or refuses at the first disallowed entry or exceeded limit |
| ReleaseStore.GraftAt | control_center/filesystem_release.py:66-77 | A renamed stage changes exactly the entries below the new directory |
| ReleaseStore.FilesystemReleaseProvider.Deploy | control_center/filesystem_release.py:56-81 | A deploy changes the release root exactly as specified for the step at which it failed, and reports ready only after CURRENT is switched |
| ReleaseStore.FilesystemReleaseProvider.Rollback | control_center/filesystem_release.py:107-124 | A rollback changes at most CURRENT, to an existing directory of the project, and reports what it did |
| ReleaseStore.FilesystemReleaseProvider.Validate | control_center/filesystem_release.py:83-105 | Verified exactly when the release directory exists and CURRENT reads as its name |
| ReleaseProofs.DeployKeeps | control_center/filesystem_release.py:56-81 | Under a failure at any step every CURRENT still names an existing directory and no directory disappears |
| ReleaseProofs.RollbackKeeps | control_center/filesystem_release.py:107-124 | A rollback keeps every CURRENT resolving and every directory |
| ReleaseProofs.DeployAltersExactly | control_center/filesystem_release.py:56-81 | A deploy alters something below a directory exactly when it publishes into it or creates the project in it |
| ReleaseProofs.RollbackAltersExactly | control_center/filesystem_release.py:107-124 | A rollback alters something below a directory exactly when it really switches a CURRENT there |
| ReleaseProofs.ImageComplete | control_center/filesystem_release.py:143-174 | A copy holds exactly the files that the scans of the artifact deliver, with their contents, and all files of the artifact exactly when no directory that cannot be listed holds one |
| ReleaseProofs.DeployPointer | control_center/filesystem_release.py:177-211 | After a failed deploy CURRENT is the old one or names the new release, which holds exactly the copied visits; after a ready one it reads as the new name |
| ReleaseProofs.DeployReadyExactly | control_center/filesystem_release.py:56-81 | A deploy is ready exactly when only directories lie on the way to the project, the place of the release is free in an existing directory, the artifact is accepted, no operation fails, CURRENT can be placed and the name reads back |
| ReleaseProofs.RollbackVerifiedExactly | control_center/filesystem_release.py:107-124 | A rollback is verified exactly when its target is an existing directory of the project, CURRENT can be replaced and reads back; only CURRENT then changes |
| ReleaseRuns.EveryRunKeepsPointers | control_center/filesystem_release.py:56-124 | Over every sequence of deploys and rollbacks with any failures the root stays a tree in which every CURRENT names an existing directory of its project |
| ReleaseRuns.EveryFlatRunKeepsReleases | control_center/filesystem_release.py:56-124 | With single-component names, every release ever published is intact after every run and every CURRENT names one of them |
| ReleaseRuns.RollbackReleased | control_center/filesystem_release.py:107-124 | If every CURRENT named a published release before a rollback, all do after it exactly when its target, if it switched anything, is the path of a published release |
| ReleaseRuns.CurrentNamesAReleaseExactly | control_center/filesystem_release.py:56-124 | Over every run with any names and failures, every CURRENT names a published release at every moment exactly when every rollback that switched one was given the path of such a release |
| ReleaseRuns.RollbackNeedsNoRelease | control_center/filesystem_release.py:107-124 | A concrete run in which nothing was ever published and a rollback to `.` is reported verified, with CURRENT naming the project directory |
| ReleaseRuns.NestedCommitAltersARelease | control_center/filesystem_release.py:66-77 | Every accepted commit that lies inside an intact release alters it |
| ReleaseRuns.NestedCommitIsAccepted | control_center/filesystem_release.py:126-141 | A concrete run in which the names `app` and `v1/x` are admitted after `v1` was deployed, and the first release is then no longer what was deployed |
| ReleaseRuns.RollbackUndoesDeploy | control_center/filesystem_release.py:107-124 | Rolling back to the name that CURRENT held restores it and nothing else |
| ServiceActivation.Preflight | control_center/service_activation.py:98-149 | Ready exactly for an enabled service with a runner and a safe request for the fixed unit and project by two different people |
| ServiceActivation.ReadyExactly | control_center/service_activation.py:98-183 | Ready exactly when the service is enabled, has a runner, every text of the request is safe, and two people ask for the one unit of the one project |
| ServiceActivation.ActivatedExactly | control_center/service_activation.py:123-206 | Activated exactly when it is ready and the runner reports this very unit and operation as activated, in safe text |
| ServiceActivation.ActivationAcceptedExactly | control_center/deployments.py:425-443 | The managers accept activation evidence exactly when it was given, names their operation and unit, is affirmative and safe |
| ServiceActivation.Activate | control_center/service_activation.py:123-206 | Activated exactly when the preflight is ready and the runner's evidence is valid for the request |
| Backups.BackupManager.Handle | control_center/backups.py:125-288 | Prepare with its metadata checks, verify and restore test change the records exactly as specified, and not at all when the save fails |
| Backups.PrepareExactly | control_center/backups.py:125-209 | A saved preparation adds a record of the safe metadata given, with the checksum that the provider reports, prepared unless a configured provider gave no evidence, and then blocked |
| Backups.VerifyExactly | control_center/backups.py:211-248 | A saved verification makes a prepared record verified, or blocked exactly when a configured provider does not affirm it |
| Backups.TestExactly | control_center/backups.py:250-288 | A saved restore test makes a verified record restore-tested when the provider affirms it, and blocked otherwise |
| Backups.StepCoherent | control_center/backups.py:211-288 | Verification flags always agree with the state, declared metadata stays safe and unchanged, no record disappears, and states move only along the allowed edges |
| Backups.VerifiedMeansConfirmed | control_center/backups.py:211-248 | With a provider configured, a backup starts to count as verified only by a saved verification of a prepared one with valid positive evidence |
| FilesystemBackup.FilesystemBackupProvider.Prepare | control_center/filesystem_backup.py:49-93 | An archive is written exactly when all checks pass, its name is free and the tree is accepted; an existing archive is never touched |
| FilesystemBackup.PreparedExactly | control_center/filesystem_backup.py:49-93 | When an archive is written and when it is also reported, in terms of the texts, the directory, the destination, the walk and the failures of the disk |
| FilesystemBackup.DestinationExactly | control_center/filesystem_backup.py:131-143 | An archive may be put exactly at an accepted relative name in an existing directory that ends in `.tar.gz` behind a stem |
| FilesystemBackup.FilesystemBackupProvider.Verify | control_center/filesystem_backup.py:95-103 | Positive exactly when an archive with the recorded checksum is in its place |
| FilesystemBackup.FilesystemBackupProvider.TestRestore | control_center/filesystem_backup.py:105-121 | Positive exactly when such an archive can be extracted, with the totals of the extraction |
| FilesystemBackup.RestoreTestExactly | control_center/filesystem_backup.py:105-203 | The restore test of an untouched backup succeeds, with the file count and byte total of its preparation, exactly when every scanned path of its tree is restorable and no file has two of them |
| FilesystemBackup.EveryRunKeepsBackups | control_center/filesystem_backup.py:49-121 | Over every run of catalog and provider, with failing writes and saves, every backup that is not blocked has the archive it was prepared with, and a restore-tested one can be extracted |
| FilesystemBackup.EveryPreparedBackupVerifies | control_center/backups.py:211-248 | After every run a prepared backup becomes verified when it is asked for |
| FilesystemBackup.EveryVerifiedBackupRestoresExactly | control_center/backups.py:250-288 | After every run a verified backup becomes restore-tested exactly when its tree can be extracted, and is blocked otherwise |
| FilesystemBackup.ChangedArchiveIsNoticed | control_center/filesystem_backup.py:95-103 | With a digest that never repeats, a verification is positive only for the very archive that was prepared |
| Deployments.Judge | control_center/deployments.py:227-340 | The provider is called exactly for a deployable plan, a plan becomes verified exactly when it is deployable and all evidence is valid, every move ends in a terminal state and a terminal plan raises |
| Deployments.PreparedExactly | control_center/deployments.py:128-199 | A plan is prepared exactly for safe texts and a known backup; it waits for approval exactly when each of the eight checks was given as true and a backup that counts as verified is named, and is blocked otherwise; its stored checks are the given ones, the two about the backup only with that backup |
| Deployments.DeployableExactly | control_center/deployments.py:227-275 | The provider is called exactly for an approved plan with every collaborator, a verified backup and, with activation, its own ready answer |
| Deployments.ConfirmedExactly | control_center/deployments.py:276-340 | Beyond that a plan is verified exactly when provider, validator and, if configured, activation each affirm it in safe text |
| Deployments.ApprovalExactly | control_center/deployments.py:201-225 | A saved approval makes a waiting plan of somebody else approved and changes nothing besides |
| Deployments.JudgeExactly | control_center/deployments.py:227-340 | An execution that does not verify its plan ends blocked or failed: blocked for what was never approved or is not configured, failed for bad evidence unless it says that activation is blocked by default |
| Deployments.ExecutionExactly | control_center/deployments.py:300-340 | A saved execution stores the judged state, the times, and the health and rollback flag that go with them |
| Deployments.DeploymentManager.PrepareDeployment | control_center/deployments.py:128-199 | Stores the plan that `PreparedExactly` describes when the save succeeds, and nothing otherwise |
| Deployments.DeploymentManager.ApproveDeployment | control_center/deployments.py:201-225 | Succeeds exactly for a saved approval of a waiting plan by somebody other than its requester |
| Deployments.DeploymentManager.ExecuteDeployment | control_center/deployments.py:227-340 | The provider call and the stored plan are those of the judged plan; nothing is stored when the save fails |
| Deployments.StepSound | control_center/deployments.py:144-340 | Every call keeps: a plan past approval has all eight checks and a different approver, calls are of such plans, and the number of calls of a plan is exactly one per execution lost after its call plus one if its stored result comes from a call |
| Deployments.TerminalPlansStay | control_center/deployments.py:227-232 | A blocked, failed or verified plan is never changed again |
| Deployments.LostSaveDeploysAgain | control_center/deployments.py:300-340 | After a failed final save the same plan can be deployed a second time |
| Rollbacks.Judge | control_center/rollbacks.py:145-207 | The provider is called exactly for a revertible plan, and a plan becomes verified exactly when it is revertible and all evidence is valid |
| Rollbacks.RevertibleExactly | control_center/rollbacks.py:145-207 | The provider is called exactly for an approved plan with an enabled provider and, with activation, its own ready answer |
| Rollbacks.ConfirmedExactly | control_center/rollbacks.py:265-297 | Beyond that a plan is verified exactly when provider and, if configured, activation affirm it in safe text |
| Rollbacks.PrepareExactly | control_center/rollbacks.py:89-119 | A saved preparation adds a waiting plan exactly when its three texts are safe |
| Rollbacks.ApprovalExactly | control_center/rollbacks.py:121-143 | A saved approval makes a waiting plan of somebody else approved and changes nothing besides |
| Rollbacks.ExecutionExactly | control_center/rollbacks.py:145-207 | A saved execution makes a plan that is neither blocked nor verified verified exactly when it is revertible and confirmed, and blocked otherwise |
| Rollbacks.RollbackManager.Handle | control_center/rollbacks.py:89-207 | Prepare, approve and execute change the plans exactly as specified, and not at all when the save fails |
| Rollbacks.StepSound | control_center/rollbacks.py:121-207 | Every call keeps independent approval and the exact number of provider calls per plan: one per execution lost after its call plus one if its stored result comes from a call |
| ReleaseWorkflow.EveryRunIsSound | control_center/deployments.py:95-340 | Over every run of managers, backups and release store together, the books stay sound and every CURRENT names an existing directory of its project |
| ReleaseWorkflow.SavedRunsDeployAtMostOnce | control_center/deployments.py:227-340 | In every run without a failing save each deployment plan and each rollback plan called its provider exactly once if its stored result comes from a call and never otherwise; verified plans are among the former |
| ReleaseWorkflow.VerifiedWasJudged | control_center/deployments.py:300-340 | A plan becomes verified only by an execution that was deployable and confirmed |
| ReleaseWorkflow.ConfirmedMeansReleased | control_center/deployments.py:276-318 | Confirmed evidence of the file system provider means that CURRENT names the commit and the release is exactly the copy of the artifact, complete exactly when the artifact hides no file in a directory that cannot be listed |
| ReleaseWorkflow.ConfirmedMeansActivated | control_center/deployments.py:425-443 | With activation configured, confirmation needs valid runner evidence for this plan |
| ReleaseWorkflow.VerifiedMeansReleased | control_center/deployments.py:227-340 | At the moment a plan becomes verified it had all checks, an independent approver, a verified backup, exactly the copy of the artifact under CURRENT, complete exactly when the artifact hides no file, and, when configured, verified activation |
| ReleaseWorkflow.EveryPlanWasPrepared | control_center/deployments.py:128-199 | Over every run each plan goes back to its saved preparation, whose texts, backup and checks it still holds |
| ReleaseWorkflow.EveryVerifiedPlanPassedItsChecks | control_center/deployments.py:128-340 | Over every run a VERIFIED plan was prepared with all eight checks given as true and with a backup that counted as verified then, and somebody else approved it |
| ReleaseWorkflow.DeploymentVerifiesExactly | control_center/deployments.py:227-340 | An approved plan whose execution is saved becomes VERIFIED exactly when every collaborator is configured, its backup counts as verified, the deploy succeeds on the disk with acceptable texts and, with the fixed activation, the preflight is ready and the runner confirms |
| ReleaseWorkflow.RollbackVerifiesExactly | control_center/rollbacks.py:145-207 | An approved rollback whose execution is saved becomes VERIFIED exactly when the provider is enabled, the rollback succeeds on the disk with acceptable texts and, with the fixed activation, the preflight is ready and the runner confirms |
| ReleaseWorkflow.PreflightOfPlanExactly | control_center/service_activation.py:138-183 | With the fixed activation a deployment passes the preflight exactly when the service is enabled and has a runner, the project is the control center, somebody else approved it and its texts are safe |
| ReleaseWorkflow.PreflightOfRollbackExactly | control_center/service_activation.py:138-183 | The same for a rollback |
| ReleaseWorkflow.DiskIsHistory | control_center/filesystem_release.py:56-124 | The release root after a run of the workflow is what its provider calls alone make of an empty root |
| ReleaseWorkflow.EveryVerifiedWasPublished | control_center/filesystem_release.py:56-81 | Over every run the artifact of each verified plan was published in its place |
| ReleaseWorkflow.EveryFlatRunKeepsVerifiedReleases | control_center/deployments.py:227-340 | With single-component names, the release of a deployment that was verified at some moment is intact after every longer run of the joined workflow, and the plan is unchanged |
| ReleaseWorkflow.VerifiedMeansRolledBack | control_center/rollbacks.py:145-207 | At the moment a rollback becomes verified it had an independent approver, CURRENT reads as its existing target, nothing else on the disk changed and, when configured, activation is verified |
| ReleaseWorkflow.ConfirmedMeansSwitched | control_center/filesystem_release.py:107-124 | A rollback that the provider confirms switched CURRENT to an existing directory and changed nothing else |
| ReleaseWorkflow.DefaultCompositionChangesNothing | api/readonly_server.py:2233 | With activation that is not enabled or has no runner, no run ever calls a provider, changes the release root or verifies a plan |
| Policy.Evaluate | core_operator/policy.py:62-87 | Allows exactly the known read-safe commands for actions that do not modify, always at low risk |
| Policy.EvaluateExactly | core_operator/policy.py:62-87 | Decision and risk for a modifying action, for an unknown command and for each class of known command |
| Manifest.FromDict | control_center/operation_manifest.py:323-381 | Whatever is accepted is valid and carries its own current hashes, and a document with hashes carries exactly those |
| Manifest.ValidExactly | control_center/operation_manifest.py:75-125 | A manifest is accepted exactly when each of its texts, optional texts, lists and hashes meets its own bound |
| Manifest.RiskLevelsExactly | control_center/operation_manifest.py:306-320 | The risk labels that are understood, apart from letter case and surrounding white space, and the level each one means |
| Manifest.StagesExactly | control_center/operation_manifest.py:202-237 | Which hashes a sealed manifest carries in which status |
| Manifest.SealedManifestsRoundTrip | control_center/operation_manifest.py:239-286 | A sealed valid manifest is read back unchanged exactly when its risk level is one of the normal forms |
| Manifest.AcceptedDocumentsAreUntampered | control_center/operation_manifest.py:372-381 | A document with the operation hash of a manifest is accepted only if it describes that very manifest |
| Manifest.ChainsStaySealed | control_center/operation_manifest.py:197-237 | After any chain of status changes all hashes are current and approval and execution hashes exist exactly in their stages |
| Manifest.RewindRecoversTheApprovedHash | control_center/operation_manifest.py:202-237 | Undoing status, approval time and backup id gives the operation hash of the start |
| Manifest.RiskLevelIsNormal | control_center/operation_manifest.py:306-320 | Every derived risk level is a normal form |
| Approvals.DecodeInvertsEncode | core_operator/approvals.py:797-946 | A stored request is read back unchanged exactly when it is storable, and is refused otherwise |
| Approvals.BuiltExactly | core_operator/approvals.py:587-688 | A request is built exactly for safe snapshot texts, lists of at most 128, permissions that are visible and stay distinct when stripped, at least one of them when versioned, and an expiry that can be read |
| Approvals.BuiltContents | core_operator/approvals.py:587-688 | What is built: pending, or denied at once by the policy, with redacted texts, the declared snapshot, and an expiry one day ahead unless one is given |
| Approvals.DecidedExactly | core_operator/approvals.py:480-550 | A request is decided exactly when it is pending, the decider is not its actor and the role is safe; the hash is over the decided request, and the rest stays |
| Approvals.SealCovers | core_operator/approvals.py:1026-1057 | Two approval hashes differ exactly when the requests differ in a member other than the time stamps, the plan id, the execution hash and the approval hash itself |
| Approvals.AcceptedRecordsAreUntampered | core_operator/approvals.py:831-946 | A stored record that is decided and carries a hash is accepted only with the hash of the very request it decodes to |
| Approvals.BuiltStorableExactly | core_operator/approvals.py:587-688 | A created request survives a reload exactly when its redacted texts are readable and a denial carries no foreign hash |
| Approvals.DecidedStorableExactly | core_operator/approvals.py:480-550 | A decided request survives a reload exactly when decider and reason are readable; its hash is the one the reload recomputes |
| Approvals.ExpiredStorable | core_operator/approvals.py:559-585 | Expiry keeps a request storable |
| Approvals.BlankReasonIsSavedButNotReadable | core_operator/approvals.py:239-301 | A request with a blank reason is accepted and then refused by the reload |
| ApprovalStore.Gathered | core_operator/approvals.py:731-753 | The loader returns one request per entry, in order, with distinct ids |
| ApprovalStore.JsonApprovalStore.Persist | core_operator/approvals.py:755-794 | A save replaces the whole snapshot or leaves it alone |
| ApprovalStore.JsonApprovalStore.RefreshExpired | core_operator/approvals.py:559-585 | The batch expiry changes memory and file together or neither |
| ApprovalStore.JsonApprovalStore.Get | core_operator/approvals.py:236-237 | A read never returns a pending or approved request whose expiry is at or before the moment of that read |
| ApprovalStore.JsonApprovalStore.CreateRequest | core_operator/approvals.py:239-366 | A creation changes memory and file together or neither, and returns the built request |
| ApprovalStore.JsonApprovalStore.DecideRequest | core_operator/approvals.py:480-550 | A decision changes memory and file together or neither, after the expiry sweep |
| ApprovalStore.JsonApprovalStore.Reload | core_operator/approvals.py:731-753 | A new process holds exactly what the file decodes to, or refuses it |
| ApprovalStore.SweptIsFresh | core_operator/approvals.py:559-585 | After a successful sweep at some moment a pending or approved request has no expiry or one later than that moment |
| ApprovalStore.SweepExactly | core_operator/approvals.py:559-585 | A sweep makes exactly those pending and approved requests expired whose expiry is at or before now or cannot be read, and changes no other; it fails, changing nothing, exactly when one is due and cannot be saved |
| ApprovalStore.CreateExactly | core_operator/approvals.py:239-366 | A creation succeeds exactly when the request can be built and saved, and then adds it at the end |
| ApprovalStore.DecideExactly | core_operator/approvals.py:480-557 | A decision succeeds exactly when the sweep does, the request is there after it and can be decided, and the snapshot is saved; it then replaces that request and no other |
| ApprovalStore.NextKeeps | core_operator/approvals.py:480-585 | Every call moves each request only along the lifecycle, leaves its snapshot alone and keeps approvals sealed by somebody else |
| ApprovalStore.EveryRunEvolves | core_operator/approvals.py:480-585 | Between any two points of every run each request evolved only along the lifecycle |
| ApprovalStore.LoadInvertsEncode | core_operator/approvals.py:731-828 | Reading a saved store of storable requests with distinct ids gives it back |
| ApprovalStore.SavedStoreReloadsExactly | core_operator/approvals.py:731-946 | A saved store reloads exactly when every request in it is storable |
| ApprovalStore.EveryRunReloads | core_operator/approvals.py:731-946 | With fresh ids and readable texts, after every run the file rebuilds exactly the requests in memory |
| ApprovalStore.EveryRunReloadsExactly | core_operator/approvals.py:731-946 | After every run with fresh ids, whatever texts were entered, the file rebuilds the requests exactly when all of them are storable and is refused otherwise |
| Operations.TransitionHolds | control_center/operations.py:432-449 | A transition keeps manifest and plan in step and leaves the rewound manifest as it was |
| Operations.DecisionSeals | control_center/operations.py:209-233 | A successful approval leaves the linked request sealed as approved by another user |
| Operations.LinkSurvives | control_center/operations.py:209-270 | Nothing that happens in the approval store breaks the link of a plan |
| Operations.StepKeeps | control_center/operations.py:87-270 | Every call keeps plan, manifest and approval in lockstep |
| Operations.EveryRunIsInLockstep | control_center/operations.py:87-270 | Over every run the manifest status is the image of the plan state, its hashes are current, its execution hash is empty, the linked request holds the hash of the rewound manifest, and approved or ready plans were approved |
| Operations.BlockedPlansStayBlocked | control_center/operations.py:256-270 | No call moves a plan out of the default block |
| OperationRules.AssessedRule | control_center/operations.py:272-282 | A sensitive action needs approval at high risk; without a command any other action is denied; with one, a modifying action is denied at high risk and otherwise the class of the command decides; only an unknown command of an action that is neither is refused |
| OperationRules.PlanExactly | control_center/operations.py:87-207 | A stored plan takes over its request, follows these rules, and starts PLANNED exactly for a known read-safe command of an action that is neither sensitive nor modifying, and REJECTED or waiting exactly by its decision; one pending request with the hashes of its manifest is added exactly when it waits |
| OperationRules.StoredExactly | control_center/operations.py:87-207 | A plan is stored exactly when its request is safe text, its command is known unless the action alone decides, the manifest and any approval request are accepted and every save works |
| OperationRules.CreateExactly | control_center/operation_manifest.py:137-195 | The manifest of a safe request is refused exactly for the caller's name, the generated id and time, the configured sentences, or a list that is too long |
| OperationRules.ApprovalExactly | control_center/operations.py:209-233 | An approval succeeds exactly when somebody else gives a safe reason for a waiting plan, the approval store accepts the decision and the plan can be saved |
| OperationRules.AttachmentExactly | control_center/operations.py:235-254 | A backup is attached exactly to an approved plan when it counts as verified, if there is a catalog, its id is safe text and the plan can be saved |
| OperationRules.ExecutionExactly | control_center/operations.py:256-270 | An execution always blocks a plan that is there and can be saved, with the fixed reason and a sealed blocked manifest |
| OperationRules.EveryRunIsRuled | control_center/operations.py:87-282 | Over every run, whatever fails, decision and risk of each plan are those of its action and command, its manifest says the same, and it is linked to a request exactly if it needs approval |
| OperationRules.EveryPlanWasPlanned | control_center/operations.py:87-207 | Over every run each plan goes back to the call that planned it and, if it needs approval, to the pending request that this call made |
| OperationRules.SensitivePlansNeedApproval | control_center/operations.py:109-175 | Over every run a plan for a sensitive action needs approval at high risk, says level L3 and approval required in its manifest, never starts planned or rejected, and its request was made pending by the call that planned it |
| OperationRecords.RecordReadableExactly | control_center/operations.py:354-429 | A saved plan of the service is read back unchanged exactly when its unchecked texts (actor id, role, reason, request id, permissions, steps) are safe, and is refused otherwise |
| OperationRecords.EveryRunIsDocumented | control_center/operations.py:87-270 | Over every run each plan repeats its manifest, which is sealed, valid and on the L1 to L4 scale |
| OperationRecords.EveryRunReloadsExactly | control_center/operations.py:60-80 | After every run, in whatever order the plans were saved, a new process holds exactly those plans when all their unchecked texts are safe, and refuses to start otherwise |
| OperationRecords.BlankUserIdIsSavedButNotReadable | control_center/operations.py:377-407 | A user whose id is one space may plan, and every plan stored for that user is refused by the loader |
| OperationService.Service.PlanOperation | control_center/operations.py:87-207 | Creates request and plan as `PlanExactly` and `StoredExactly` describe, and keeps the lockstep |
| OperationService.Service.ApproveOperation | control_center/operations.py:209-233 | Approves as specified, only by another user, and keeps the lockstep |
| OperationService.Service.AttachVerifiedBackup | control_center/operations.py:235-254 | Attaches only a backup that is verified at that moment, and keeps the lockstep |
| OperationService.Service.ExecuteOperation | control_center/operations.py:256-270 | Ends in the default block and keeps the lockstep |
| ExecutionChain.BuildPlan | core_operator/approved_execution.py:57-224 | A plan is ready exactly under the flat plan conditions, and no plan is returned unless its audit event was accepted |
| ExecutionChain.DryOutcome | core_operator/approved_plan_dry_runner.py:40-152 | A dry run completes exactly for a ready, secret-free plan that the policy still allows at the same risk |
| ExecutionChain.RunDry | core_operator/approved_plan_dry_runner.py:40-152 | Its result is returned only after its events were accepted, two when it completes and one when it is blocked |
| ExecutionChain.GateVerdictExactly | core_operator/execution_gate.py:43-203 | For any plan and any dry run, its own or not, the gate is eligible exactly for a completed secret-free dry run of this very plan, with its ids and hashes, that the policy still allows at the same risk, and rejects exactly what the policy denies by then |
| ExecutionChain.EvaluateGate | core_operator/execution_gate.py:43-203 | For a plan and its own dry run, eligibility depends only on completion, the approval's texts, completeness and expiry, and on both audit events being accepted |
| ControlledExecution.RequiredPermission | control_center/execution.py:249-269 | The read-safe permission suffices exactly for a read of a known read-safe command |
| ControlledExecution.Submit | control_center/execution.py:92-176 | A provider call happens exactly under one conjunction, with the gated arguments, and completes exactly on valid evidence |
| ControlledExecution.SubmitExactly | control_center/execution.py:92-247 | A request ends nowhere without the permission, rejected unless it passes, blocked without a provider, and otherwise completed exactly on visible clean evidence with a duration within one day |
| ControlledExecution.PermissionExactly | control_center/execution.py:249-269 | The permission that each action and command needs |
| ControlledExecution.ControlledExecutionService.Put | control_center/execution.py:178-201 | The record joins memory before the save and stays there when the save fails |
| ControlledExecution.ControlledExecutionService.Request | control_center/execution.py:92-213 | One record per authorized request, with the state of the submission; the provider is called exactly as it says, and the record is returned only when saved and audited but stays in any case |
| Pipeline.ReadyPlansNeverMismatch | core_operator/execution_gate.py:184-203 | For a plan the planner found ready, no later comparison and no later policy decision stops the run |
| Pipeline.EligibleMeans | core_operator/execution_gate.py:43-149 | The gate is eligible exactly under the planner's conditions, five accepted audit appends and a complete unexpired approval, and then names the planned actor and command at low risk |
| Pipeline.CalledMeans | control_center/pipeline.py:95-137 | A provider call implies the flat predicate, has the approval's actor and command, and is preceded by exactly the ready, started, completed, evaluated and eligible events |
| Pipeline.ProviderCalledExactly | control_center/pipeline.py:95-137 | The staged checks equal one flat predicate, accepted audit events included: the provider is called if and only if it holds |
| Pipeline.TwoReadsAgree | core_operator/approvals.py:552-585 | Two reads of one store agree on id, actor and snapshot, and are equal when the later one is still live |
| Pipeline.CalledOnlyForAnApprovedRequest | control_center/pipeline.py:95-137 | Over one store a call is made only for a request approved and unexpired at the second read, for its own command, whose permissions are those of the account of its actor, or of the session user when there is no such account, and whose expiry is later than the gate's clock; a first read that returned gave the same request, and after one that raised the actor is the session user |
| Pipeline.CalledOnlyWhenSomebodyElseApproved | control_center/pipeline.py:95-137 | After every history of the approval store a call is made only for a request that somebody other than its actor decided, and that still carries the hash computed over it at that decision |
| Pipeline.ExecutionPipelineService.Execute | control_center/pipeline.py:95-137 | A run leaves exactly the specified events and calls the provider if and only if the written-out conditions on user, account, approval, command and audit hold |
| Pipeline.ExecutionPipelineService.Inspect | control_center/pipeline.py:115-129 | Planner, dry run and gate append exactly their events in order |
| LoginLimiter.PruneTwice | control_center/auth.py:474-480 | Pruning twice under a clock that does not go back is pruning once |
| LoginLimiter.ListedAtMostLimit | control_center/auth.py:403-416 | The list never holds more failures than the limit |
| LoginLimiter.WindowBudget | control_center/auth.py:403-416 | A stretch that fits one window keeps its budget of failures, one below the limit for each login |
| LoginLimiter.EveryWindow | control_center/auth.py:403-416 | Every closed window holds at most the limit of failures without a login in it, and one below the limit more for each login |
| LoginLimiter.LimitHoldsExactly | control_center/auth.py:403-417 | Counting across logins the plain limit holds for every window of every history exactly for limits zero and one |
| LoginLimiter.LockoutEnds | control_center/auth.py:403-408 | A lockout ends exactly when the oldest listed failure leaves the window, whatever is tried meanwhile |
| LoginLimiter.AuthService.PruneAttempts | control_center/auth.py:474-480 | The pruned list is the failures since the last login that are still in the window, and other user names keep theirs |
| LoginLimiter.AuthService.Login | control_center/auth.py:403-425 | The outcome is decided by the full history; only wrong credentials are recorded, a missing second factor or a raising verifier changes nothing else and a login forgets the list |
| Numerals.DecimalInjective | control_center/published_projects.py:340-349 | Different suffix numbers have different texts |
| Numerals.ZeroFilled | control_center/auth.py:504-511 | A number below the power of ten is written with exactly that many digits and can be read back |
| Totp.BytesRoundTrip | control_center/auth.py:504-511 | The counter has eight bytes exactly below their range, and they read back as the counter |
| Totp.Offset | control_center/auth.py:504-511 | The four bytes at the offset always lie inside the digest |
| Totp.TruncationIsStandard | control_center/auth.py:504-511 | The masked slice is the dynamic truncation of section 5.3 of RFC 4226, a 31-bit number |
| Totp.CodeShape | control_center/auth.py:504-511 | A code exists exactly below the counter range, has exactly the configured digits and spells the truncated digest modulo the power of ten |
| Totp.CountersNearby | control_center/auth.py:193-202 | Times at most the allowed periods apart have counters at most the allowed steps apart |
| Totp.WindowStarts | control_center/auth.py:193-202 | Every counter of the window starts less than one period more than the allowed steps away |
| Totp.AcceptedNearby | control_center/auth.py:193-202 | A code made at one time is accepted by the verifier at every time within the allowed steps of periods |
| Totp.TotpVerifier.Verify | control_center/auth.py:193-202 | Accepts exactly the code of some counter in the window of the user's secret; raises only for digits outside ASCII or a counter beyond its range |
| PublishedProjects.SuffixesDiffer | control_center/published_projects.py:340-349 | Candidates with different suffixes differ |
| PublishedProjects.SomeCandidateIsFree | control_center/published_projects.py:340-349 | No more suffixed candidates can be taken than there are ids in use |
| PublishedProjects.ProjectId | control_center/published_projects.py:340-349 | The first free candidate, found after at most one suffix more than there are ids in use, and at most 120 characters long |
| PublishedProjects.SlugOfPlainName | control_center/published_projects.py:340-349 | A plain name without dots or dashes at its ends becomes itself, letter by letter in lower case |
| PublishedProjects.SlugWithoutEdges | control_center/published_projects.py:340-349 | All dots and dashes at the ends of a plain name fall away, and nothing else does |
| PublishedProjects.GapIsOneDash | control_center/published_projects.py:340-349 | Other characters between two plain texts become one dash |
| PublishedProjects.SlugOfNothing | control_center/published_projects.py:340-349 | A name whose plain characters are all dots and dashes, if it has any, becomes the fallback |
| PublishedProjects.CandidateExactly | control_center/published_projects.py:340-349 | The k-th retry ends in a dash and the number k + 1, behind as much of the base as 120 characters hold |
| PublishedProjects.KindsExactly | control_center/published_projects.py:322-337 | The first language whose marker shows decides the kind, then a web page, then a repository |
| PublishedProjects.MarkersExactly | control_center/published_projects.py:314-320 | The markers of an entry are its known names, and none when it cannot be read |
| PublishedProjects.ValidateEvidence | control_center/published_projects.py:352-376 | Accepts exactly evidence of the right scope with a safe root, a count of skipped entries and at most 256 safe projects with distinct ids, matching paths, safe kinds, known markers and typed flags |
| PublishedProjects.ReadSafePublishedProjectsProvider.ProjectOf | control_center/published_projects.py:149-161 | The project of an entry mirrors it under a fresh short id that passes the text check |
| PublishedProjects.ReadSafePublishedProjectsProvider.Collect | control_center/published_projects.py:123-171 | One project per listed entry in order, projects and skipped entries add up, ids are distinct and short, the own validation always passes, and it is refused exactly for an unsafe root or listed name |
| V3Records.DecodeInvertsEncode | control_center/v3.py:476-709 | Every record that the service holds is read back unchanged |
| V3Records.DecodeSettles | control_center/v3.py:569-709 | Whatever a document decodes to is a record the service could hold |
| V3Records.ReadableExactly | control_center/v3.py:476-709 | A record survives writing and reading exactly when it meets the bounds of its kind |
| V3Records.TwinSettles | control_center/v3.py:167-197 | A registered twin meets the bounds that the loader checks |
| V3Records.CorrelationSettles | control_center/v3.py:199-234 | A recorded correlation has a share between zero and one and bounded clean labels |
| V3Records.PredictionSettles | control_center/v3.py:236-274 | A predictive report has a bounded clean trend, findings and confidence |
| V3Records.TwinExactly | control_center/v3.py:167-197 | A twin holds the stripped texts of the request, node by node and relation by relation, and is built exactly when all of them are safe, it is not too large, and every relation joins its nodes |
| V3Records.CorrelationExactly | control_center/v3.py:199-234 | A correlation is built exactly for safe texts and lists that are not too long, and its labels and share are those of the two lists |
| V3Records.PredictionExactly | control_center/v3.py:236-274 | The trend says per metric whether it rose or fell by more than five from the first to the last snapshot, the findings are last values of 90 or more, or of 70 or more after a rise of 20, and the confidence grows with the number of snapshots up to 0.95 |
| V3Records.AutonomyExactly | control_center/v3.py:276-301 | A profile is made exactly for a safe project name and a level from 0 to 5, and holds what was given |
| V3Records.ServerExactly | control_center/v3.py:303-319 | A server record holds the stripped texts of its request, and is built exactly when they are safe |
| V3Records.RecoveryExactly | control_center/v3.py:321-351 | A recovery plan takes over its four texts, the backup if one is named, and the user who asks for it |
| V3Insights.SavedBooksReload | control_center/v3.py:378-427 | The grouped list of documents rebuilds all six collections with the same records in the same order |
| V3Insights.LoadedIsSound | control_center/v3.py:393-427 | Whatever the loader accepts is a state the service could hold |
| V3Insights.V3InsightsService.Persist | control_center/v3.py:378-391 | A save replaces the whole list, or refuses above 1024 records and leaves it alone |
| V3Insights.V3InsightsService.Store | control_center/v3.py:366-376 | An assignment whose save fails or exceeds the limit leaves memory and file exactly as before, order included |
| V3Insights.StoredExactly | control_center/v3.py:366-376 | A record is stored exactly when there are at most 1024 then and the save works, or there is no state store; it replaces the record with its key in place, or joins the end of its collection |
| V3Insights.V3InsightsService.Handle | control_center/v3.py:167-351 | Every request is all or nothing in memory and on disk, which stay in agreement; the record is returned only when its audit append succeeds, and stays stored when it does not |
| V3Insights.V3InsightsService.LoadState | control_center/v3.py:393-427 | A new process holds exactly what the documents describe, or refuses them |
| V3Insights.EveryRunReloads | control_center/v3.py:366-427 | After every run the file rebuilds exactly the six collections, within the limit |

## Left out

- The regular expressions of the screens and of the redactor: four laws about them are assumed, their matching is not modelled.
- JSON, SHA-256, HMAC, gzip and tar: documents are records, hashes are terms, the MAC is any function with 20-byte results, an archive is a list of members.
- Text of timestamps: a stored time is an instant, or a text that the parser does not accept.
- Torn lines, chmod failures after a replace, symbolic links (also above the temporary directory) and file locks: a file operation happens completely or not at all.
- AuditRotation.EveryRunKeepsASuffix: does not cover an append whose fsync or chmod fails after the line was written; the file then holds a record that memory lacks.
- Directory trees that change while they are walked, copied or archived, and the refusal of a source label that names no directory, which is a parameter.
- Several processes on one file and interleaved threads: each store has a single writer.
- The in-memory approval store: it is the stored one whose saves always succeed.
- Older approval and plan entries with missing members: the loader's defaults are modelled only as far as entries written by this version need them.
- The screen that the shared state store puts on a whole snapshot: it is part of whether a save succeeds.
- Reloading deployment and rollback plans: their joined result text may exceed the limit of the decoder.
- The sentences that the program writes itself (reasons, results, modes) are enumerations or parameters, and are taken to pass the screens.
- Tables of the policy engine (commands, modifying actions) are parameters; the pipeline theorem uses that a read is not a modifying action and that no command id is empty or holds a bracket.
- The audit appends that the approval store, the operation service and the deployment, rollback and backup managers make after a change: one that raises ends the call with the change already kept.
- Roles: an account carries its permissions, and managers and services other than the pipeline are called by permitted users.
- Password hashing, sessions, cookies, identity storage and the decoding of base-32 secrets.
- The catalog service around the published projects provider, case folding and the exclusion list, which are one given predicate on names.
- The order of items inside a saved mapping: mappings are compared by content.
- Float rounding in the login clock and in the V3 confidence: times and shares are real numbers.
- HTTP server, command line, user interface, chat, inventory, monitoring, incidents, agents, test and build providers: plumbing, foreign calls or flat records.
- ExecutionChain.BuildPlan: does not model the reason texts, which are sentences of the program.
- PublishedProjects.ProjectId: states the length of 120 for at most 256 ids in use, which is the most the provider ever has.
