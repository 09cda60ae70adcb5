# HostForge control plane: a verified model

HostForge keeps its state in SQLite and does its background work through a durable operations queue. This
project models that queue together with everything that must stay in step with it, and six smaller protocols
of the control plane, and proves what they promise.

**The queue** (`Tables`, `Transitions`, `StateMachine`, `Invariants`, `BulkInvariants`, `Runs`, `Causes`,
`Histories`, `Theorems`, `Projections`, `Ordering`, `Deployments`, `Recovery`, `Backups`, `Retention`, `Requests`,
`TransferLimit`, `Scenarios`, `Repository`).
`Db` holds the rows of the eight tables involved. `Transitions` says what each repository transaction makes of
them; `StateMachine` lists the 23 steps and the runs they form. `Invariants` and `BulkInvariants` prove one
invariant for every step: the authoritative `operations` row and its `database_operations` mirror agree, lock
keys exclude each other, leases exist exactly while running, attempts stay within bounds, deployments match
their event timelines, and instances being deleted have no work. The remaining modules prove theorems about
whole runs. `Repository.Store` runs each transaction statement by statement, with loops over rows for the set
updates and explicit rollbacks, and every method is proved to reach the state `Transitions` gives.

**The smaller protocols**, one module each: the resumable build-log stream (`LogStream`), the frame layer of
encrypted backups (`BackupFrames`), keyset pagination (`Pagination`), the fixed-window limiter (`RateLimits`),
the platform-domain move (`PlatformDomains`), and gateway endpoints with external credentials (`Gateways`).

## What the model assumes

- A timestamp is an integer number of seconds, and comparing two of them compares times. The program compares strings
  instead, and their order can differ from time order within one second: RFC3339Nano drops trailing zeros, so ".1Z"
  sorts after ".12Z", and rows queued under one lock mix whole-second and fractional stamps
  (internal/repository/database_services.go:867 and 899). "Earlier" in the ordering results means earlier as
  compared. Row ids are numbers in place of random strings; only equality and order matter.
- Each repository method is one step. Reads a method makes before its transaction belong to that step.
- `EnqueueOperation` inserts queued or terminal rows, with at least one attempt and for services without database
  instances. A deployment's operation has one attempt, as `EnqueueDeployOperation` gives it.
- `UpdateDatabaseOperation` is called with `running` or a terminal status, for an operation that is running.
  `Theorems.ReportKeepsRowIff` says exactly which reports are harmless to a row without that.
- `UpdateDeploymentStatus` is called with a status that may follow the current one, and with BUILDING only while
  the deploy runs. `Invariants.UpdateKeepsTimelinesIff` shows that the first half is exactly what the timeline needs.
- Generated ids are fresh. `CreateServiceDeployment` and `CancelDeployment` write their event in the same step.
- All writers of the instance, backup, restore and upgrade rows are steps. A desired state other than deleted is written
  by `UpdateDatabaseInstanceState` and `CommitDatabaseInstanceUpgrade` only while an operation of the service runs, as
  the handlers do it, and a container id only for an undeleted instance. `UpdateDatabaseInstanceState` writes back the
  desired state it has read; that read belongs to its step here.
- Worker owner strings are distinct and not empty, and every deployment's service row exists (the event insert joins it).
- Text arguments are already trimmed and lower-cased where the program does that first.
- The build log is only appended to; the backup cipher's open undoes its seal.
- Gateway endpoints share one port, and the gateway worker re-activates or rolls back only unrevoked connections.
  `Gateways.StatusKeepsGuardIff` and `Gateways.RollbackKeepsGuardIff` say exactly when that matters.

## Where the code does less than one might expect

- `UpdateDeploymentStatus` protects only CANCELLED. A deploy that was promoted and then fails to activate writes
  FAILED over SUCCESS (internal/services/deploy.go:444-453), and its timeline then holds two terminal events:
  `Scenarios.SuccessCanBeOverwritten` is such a run, `Invariants.UpdateKeepsTimelinesIff` the exact condition.
- `UpdateDatabaseOperation` is not fenced by the lease owner. In `Scenarios.SupersededHandlerEndsTheRun` the handler of
  a worker that lost its operation ends the run of the worker that took over; `Theorems.ReportLeavesHolderIff` says
  exactly which reports leave the holder's run alone. Recovery runs only when a process starts, so that run needs the
  old process to be alive still, on the same database; the fence of the other calls covers that case, this call does not.
- After one credential rotation has been rolled back, a connection never gets another credential: the failed row keeps
  its generation, the next attempt asks for the same one, and UNIQUE(connection_id, generation) refuses it.
  `Gateways.RollbackBlocksRotation` is such a run; `Gateways.NewCredentialIffNeverRolledBack` shows that rollbacks are
  the only cause.
- `RollbackDatabaseExternalCredentialRotation` does not look at the connection's status. In
  `Gateways.RollbackCanReviveRevoked` it makes a revoked connection active on an endpoint that is being torn down;
  `Gateways.RollbackKeepsGuardIff` is the exact condition.
- A backup stream cut right after a length or a nonce ends without an error at the frame layer:
  `BackupFrames.DecodePrefix`.
- Moving the platform domain there and back, or by way of a third domain, can move an endpoint that was never under the
  first one: `PlatformDomains.MovingBackRestores` and `PlatformDomains.EndpointMovesComposeIff` say exactly when,
  `PlatformDomains.MovingBackCanCarryAlong` and `PlatformDomains.EndpointsDependOnTheWay` give an endpoint. With several
  endpoints the move can depend on the order in which the database visits the rows: `PlatformDomains.EveryOrderIff`,
  `PlatformDomains.OrderCanMatter`. None of this arises with the one endpoint row the program writes today, "postgres."
  under the platform domain (cmd/server/api_database_gateways.go:110): `PlatformDomains.EndpointUnderDomainFollows`,
  `PlatformDomains.SingleEndpointMoves`.
- A page cursor whose row is deleted ends the listing early, and rows are missed whenever that happens:
  `Pagination.DeletionKeepsRestIff`, `Pagination.DeletedCursorLosesRows`.

## Model

| member | source | states |
|---|---|---|
| `Sql.Update` | internal/repository/operations.go:598-659 | a row-by-row UPDATE ... WHERE, in any order, changes exactly the selected rows and returns their number |
| `Repository.SelectCandidate` | internal/repository/operations.go:266-294 | the ORDER BY ... LIMIT 1 query returns a runnable operation of the highest priority, the oldest of those, and of those the one with the least id, and nothing only if none is runnable |
| `Repository.CountRecentTransfers` | internal/repository/database_backups.go:579-594 | the counted rows are exactly the backups and restores created in the last hour or later |
| `Repository.Store.ClaimNextOperation` | internal/repository/operations.go:250-319 | claims the unique next operation (no other runnable one has a higher priority, or the same and is older), for this owner and lease, and carries lease and attempt into the mirror and the deployment, or changes nothing |
| `Repository.Store.RenewOperationLease` | internal/repository/operations.go:329-363 | sets the lease to now + lease in both tables only for its holder, and reports whether cancellation was requested |
| `Repository.Store.DeferOperation` | internal/repository/operations.go:470-509 | the holder puts the operation back, unavailable until the delay has passed, with its attempt returned; anyone else changes nothing |
| `Repository.Store.CompleteOperation` | internal/repository/operations.go:525-574 | the holder's terminal status, error code and message reach the queue row, its mirror and the deployment; anyone else, or a status that is not terminal, changes nothing |
| `Repository.Store.RequestOperationCancellation` | internal/repository/operations.go:401-445 | marks a running operation once, makes a queued one terminal with both read models, and reports which rows changed |
| `Repository.Store.RequestServiceOperationCancellation` | internal/repository/operations.go:449-459 | marks every unmarked running operation of the service and returns how many |
| `Repository.Store.EnqueueOperation` | internal/repository/operations.go:84-184 | inserts one row with the program's defaults, or fails without a trace |
| `Repository.Store.EnqueueDeployOperation` | internal/repository/operations_deploy.go:48-60 | the deployment's operation is queued with exactly one attempt |
| `Repository.Store.InsertPair` | internal/repository/operations.go:136-162 | the queue row is derived from the mirror row, lock key included |
| `Repository.Store.ProjectDeployClaim` | internal/repository/operations_deploy.go:82-93 | QUEUED becomes BUILDING with one event; any other status is left alone |
| `Repository.Store.ProjectDeployDefer` | internal/repository/operations_deploy.go:104-115 | BUILDING becomes QUEUED with one event; any other status is left alone |
| `Repository.Store.ProjectDeployComplete` | internal/repository/operations_deploy.go:129-160 | an open deployment takes the matching terminal status with one event; a terminal one is left alone |
| `Repository.Store.ProjectExhaustedDeploys` | internal/repository/operations_deploy.go:171-191 | every open deployment of an exhausted operation is failed, with one event each |
| `Repository.Store.SweepOrphanedDeployments` | internal/repository/operations_deploy.go:202-223 | every open deployment without live work is failed, with one event each, and counted |
| `Repository.Store.RecoverOperations` | internal/repository/operations.go:585-677 | the fixed statement order amounts to one recovery step, and the two numbers returned are those counts; `Recovery.RecoveryOutcome`, `Recovery.CompanionsRecover` and `Recovery.DeploymentsRecover` say in columns what that step writes |
| `Repository.Store.UpdateDatabaseOperation` | internal/repository/database_services.go:959-1019 | the report reaches both tables, or nothing changes |
| `Repository.Store.UpdateDatabaseInstanceState` | internal/repository/database_services.go:1174-1216 | writes container, desired state and status as far as given, to this instance only |
| `Repository.Store.CommitDatabaseInstanceUpgrade` | internal/repository/database_services.go:938-948 | succeeds exactly for an undeleted instance still on the previous image |
| `Repository.Store.MarkDatabaseBackupRunning` | internal/repository/database_backups.go:435-445 | succeeds exactly for a queued backup |
| `Repository.Store.CompleteDatabaseBackup` | internal/repository/database_backups.go:420-433 | succeeds exactly for a known backup and a terminal status |
| `Repository.Store.MarkDatabaseBackupDeleting` | internal/repository/database_backups.go:467-470 | marks a succeeded backup only |
| `Repository.Store.DeleteDatabaseBackupRecord` | internal/repository/database_backups.go:501-510 | deletes exactly a backup that is being deleted, failed or cancelled and that no restore job refers to |
| `Repository.Store.UpdateDatabaseRestoreJobStatus` | internal/repository/database_backups.go:606-609 | writes the job's status, which the schema restricts |
| `Repository.Store.UpdateDatabaseUpgradeJobStatus` | internal/repository/database_services.go:923-936 | succeeds exactly for a known job and one of the four statuses |
| `Repository.Store.QueueDatabaseInstanceOperation` | internal/repository/database_services.go:818-877 | refuses unknown, deleted or containerless instances, else sets the desired state and queues the pair |
| `Repository.Store.QueueDatabaseUpgrade` | internal/repository/database_services.go:879-913 | queues the pair and its job row for a healthy instance and a new image of the same version |
| `Repository.Store.QueueDatabaseBackup` | internal/repository/database_backups.go:315-368 | queues the pair and the backup row if the instance is ready and the hourly limit allows it |
| `Repository.Store.QueueDatabaseRestore` | internal/repository/database_backups.go:517-577 | queues the pair and the restore row for a readable, compatible backup under the mode's own conditions |
| `Repository.Store.CreateDatabaseService` | internal/repository/database_services.go:216-415 | each new instance gets its provisioning pair |
| `Repository.Store.BeginDatabaseServiceDeletion` | internal/repository/database_services.go:1247-1300 | succeeds exactly with an undeleted instance and no running work, cancelling queued work and closing every instance together; with running work it asks that to stop |
| `Repository.Store.FinalizeDatabaseServiceDeletion` | internal/repository/database_services.go:1302-1350 | succeeds exactly without live work and with an instance awaiting it, and stamps all such instances |
| `Repository.Store.RestoreDeletedDatabaseService` | internal/repository/database_services.go:1359-1407 | one restore step, refused exactly if the listing is empty, an id is taken or some instance is not deleted and within retention; `Retention.RestoreIffInTime` says in columns what the step does and when |
| `Repository.Store.PurgeDatabaseServiceRecords` | internal/repository/database_services.go:1442-1456 | deletes the service's rows, with the schema's cascades and nulled references, exactly if every instance is due |
| `Repository.Store.CreateServiceDeployment` | internal/repository/deployments_v2.go:27-83 | the new row and its QUEUED event |
| `Repository.Store.CancelDeployment` | internal/repository/deployments_v2.go:164-177 | succeeds exactly on an open deployment |
| `Repository.Store.UpdateDeploymentStatus` | internal/repository/store.go:35-67 | writes any status over anything but CANCELLED |
| `Invariants.UpdateKeepsTimelinesIff` | internal/repository/store.go:35-67 | the timeline stays a walk exactly if the row is absent or cancelled, or the new status may follow the current one |
| `Invariants.ClaimKeeps` | internal/repository/operations.go:250-319 | a claim keeps the whole invariant, mutual exclusion on lock keys in particular |
| `Invariants.DeferKeeps` | internal/repository/operations.go:470-509 | a deferral keeps the whole invariant and gives back exactly one attempt |
| `Invariants.CompleteKeeps` | internal/repository/operations.go:525-574 | a completion keeps the whole invariant |
| `Invariants.PairsKeep` | internal/repository/database_services.go:1378-1400 | queueing any list of operation pairs keeps the whole invariant |
| `BulkInvariants.RecoveryKeepsMirrors` | internal/repository/operations.go:594-659 | both set updates of recovery keep every mirror row in agreement |
| `BulkInvariants.RecoveryKeepsDeployments` | internal/repository/operations_deploy.go:171-223 | recovery leaves no deployment BUILDING |
| `BulkInvariants.RecoveryExtendsTimeline` | internal/repository/operations_deploy.go:171-223 | each interrupted deployment gets exactly one more event, and no other gets any |
| `BulkInvariants.RecoverKeeps` | internal/repository/operations.go:585-677 | recovery keeps the whole invariant |
| `BulkInvariants.BeginDeletionKeeps` | internal/repository/database_services.go:1247-1300 | deletion keeps the whole invariant: no instance marked deleted has work left |
| `BulkInvariants.PurgeKeeps` | internal/repository/database_services.go:1442-1456 | the cascading delete keeps the whole invariant |
| `BulkInvariants.InstanceWriteKeeps` | internal/repository/database_services.go:1174-1216 | the instance writes of handlers and reconciler keep the whole invariant: they neither undo nor begin a deletion |
| `Runs.StepKeeps` | internal/repository/operations.go:84-689 | each of the 23 steps keeps the invariant and makes only permitted row changes |
| `Runs.ReachableMirrorsAgree` | internal/repository/operations.go:136-162 | in every reachable state the two queue tables agree on every shared column |
| `Runs.ReachableLeases` | internal/repository/operations.go:268-318 | in every reachable state at most one operation runs per lock key, and an owner is recorded exactly while running |
| `Runs.ReachableAttempts` | internal/repository/operations.go:297-302 | in every reachable state attempts are within bounds and a queued operation has one left |
| `Runs.ReachableTimeline` | internal/repository/operations_deploy.go:62-160 | in every reachable state a deployment's events start QUEUED, end at its status, return to QUEUED only from BUILDING, and hold no terminal event before the last |
| `Runs.ReachableBuilding` | internal/repository/operations_deploy.go:82-93 | BUILDING implies a running operation |
| `Runs.ReachableDeleted` | internal/repository/database_services.go:1247-1300 | a service with an instance to be deleted has no queued or running work |
| `Theorems.LeaseComesFromClaim` | internal/repository/operations.go:297-302 | a worker holds an operation only through its own claim |
| `Theorems.SupersededWorkerIsFenced` | internal/repository/operations.go:485-557 | a worker that lost an operation cannot affect any table through it until it claims it again, in any run |
| `Theorems.TerminalReportEndsAnyRun` | internal/repository/database_services.go:959-1019 | a terminal report ends the current run whoever sends it, and the holder's completion is then refused |
| `Theorems.ReportLeavesHolderIff` | internal/repository/database_services.go:959-1019 | a report leaves the holder's run alone exactly if it is refused or says running |
| `Theorems.ReportKeepsRowIff` | internal/repository/database_services.go:959-1019 | a report is a permitted change to a consistent row exactly if the row was not terminal and the report ends it or repeats its status, or if nothing changes |
| `Scenarios.SupersededHandlerEndsTheRun` | internal/repository/database_services.go:959-1019 | a run in which a handler whose worker lost the operation completes it under the worker that took over |
| `Theorems.AttemptsAreClaimsMinusDeferrals` | internal/repository/operations.go:461-490 | in any run, attempt equals the number of claims minus the number of deferrals |
| `Theorems.ClampNeverBites` | internal/repository/operations.go:485-490 | MAX(attempt-1,0) is always attempt-1 |
| `Theorems.SingleAttemptStartsOnce` | internal/repository/operations_deploy.go:46-60 | an operation with one attempt starts at most once more than it is deferred and is never requeued |
| `Theorems.RunTransitionBound` | internal/repository/operations.go:297-655 | in any run, claims, requeues, completions and queued cancellations together number at most twice the allowed attempts plus the deferrals |
| `Histories.WeightOfMove` | internal/repository/operations.go:297-655 | every such transition strictly decreases an operation's weight, a deferral adds exactly one, nothing else changes it |
| `Histories.RequestsPersist` | internal/repository/operations.go:401-415 | a recorded cancellation request is never lost, and a terminal row never changes |
| `Causes.MovesHaveCauses` | internal/repository/operations.go:297-490 | over all 23 steps: only the claim that chose an operation starts it, only its holder's deferral puts it off and for exactly the time asked, leases end when the claim or renewal says, and an operation ends only by its holder's completion or a report, with their status and error, by a cancellation while queued, or by recovery with no attempt left |
| `Theorems.EndHasCause` | internal/repository/operations.go:416-675 | in any run, a terminal status goes back to the one call that gave it, and has stood since |
| `Theorems.LeaseIsTheLastOne` | internal/repository/operations.go:296-345 | in any run, the lease of a running operation is the one its holder's last claim or renewal asked for |
| `Projections.ClaimReachesAllTables` | internal/repository/operations.go:250-319 | a claim gives row and mirror the same owner, lease and attempt, keeps the first start time, moves a QUEUED deployment to BUILDING with one event, and touches no other row |
| `Projections.RenewalExtendsBothLeases` | internal/repository/operations.go:329-363 | a renewal changes the lease, to now + lease, and nothing else in both tables |
| `Projections.DeferralReachesAllTables` | internal/repository/operations.go:470-509 | a deferral requeues row, mirror and BUILDING deployment, not available before now + delay, with one attempt returned |
| `Projections.CompletionReachesAllTables` | internal/repository/operations.go:525-574 | a completion gives row and mirror its own status, error and message, an open deployment the matching terminal status with one event, and touches no other row |
| `Projections.CompletionExplainsDeployment` | internal/repository/operations_deploy.go:129-160 | success and failure leave their message on the deployment, a cancellation its time |
| `Projections.ReportReachesBothTables` | internal/repository/database_services.go:959-1019 | a report gives both rows its status, step, percentage and error; only a terminal one releases the lease |
| `Projections.NewWorkDefaults` | internal/repository/operations.go:84-124 | new work has priority 100 and five attempts unless told otherwise, and has spent none |
| `Projections.CancelDeploymentColumns` | internal/repository/deployments_v2.go:164-177 | an open deployment becomes CANCELLED, stamped, with one event; any other call changes nothing |
| `Projections.StatusWriteColumns` | internal/repository/store.go:35-67 | status and message are replaced, with one event, unless the deployment is cancelled or absent |
| `Projections.StateWriteColumns` | internal/repository/database_services.go:1174-1216 | clearing the container goes before setting one, and what is not given stays |
| `Projections.UpgradeCommitColumns` | internal/repository/database_services.go:938-948 | image and container are written only over the previous image of an undeleted instance |
| `Ordering.PrecedesIsStrictTotal` | internal/repository/operations.go:292-294 | priority, age and id order any two operations, strictly |
| `Ordering.NextMayRun` | internal/repository/operations.go:266-286 | what a claim returns is queued, available, has an attempt left, has the priority and kind asked for, and no running operation has its lock key |
| `Ordering.NextComesFirst` | internal/repository/operations.go:266-294 | any other operation with those columns has a lower priority, or the same and is younger, or the same age and a greater id |
| `Ordering.NothingRunnable` | internal/repository/operations.go:266-286 | an operation that cannot be claimed is delayed, out of attempts, of too low a priority or another kind, or behind a running one with its lock key |
| `Ordering.NextIsUnique` | internal/repository/operations.go:266-294 | the claim query determines its result |
| `Ordering.FirstComeFirstClaimed` | internal/repository/operations.go:268-294 | with the same lock key and priority, the operation created earlier (or at the same time with the smaller id) is claimed first in any run, unless it is cancelled, not yet available, or of a kind the claiming worker does not handle |
| `Ordering.DeferralDelaysClaim` | internal/repository/operations.go:470-490 | in any run, the first claim after a deferral comes no sooner than the time asked for |
| `Ordering.CancellationReachesEveryRenewal` | internal/repository/operations.go:329-388 | a recorded request is reported by every later renewal, through deferral, recovery and re-claim |
| `Ordering.RequestsAreRecorded` | internal/repository/operations.go:401-459 | each of the three calls that ask running work to stop records the request |
| `Ordering.CancellingQueuedClosesAll` | internal/repository/operations.go:416-445 | a queued operation becomes terminal together with its mirror and its deployment |
| `Deployments.TerminalKept` | internal/repository/operations_deploy.go:82-160 | no step changes a terminal deployment's row |
| `Deployments.TerminalForever` | internal/repository/operations_deploy.go:82-160 | a terminal deployment's row is the same in every later state |
| `Deployments.CancelledForever` | internal/repository/deployments_v2.go:164-177 | once CANCELLED the row never changes, even with unrestricted calls of UpdateDeploymentStatus interleaved |
| `Scenarios.SuccessCanBeOverwritten` | internal/repository/store.go:35-67 | a run to a promoted deployment over whose SUCCESS FAILED is then written, breaking its timeline |
| `Recovery.RecoveryOutcome` | internal/repository/operations.go:598-659 | nothing runs afterwards; exactly the exhausted operations fail, as interrupted, and exactly the other running ones wait again, without delay and with their attempts as they were |
| `Recovery.NoLeaseSurvivesRecovery` | internal/repository/operations.go:598-659 | no worker holds anything after recovery |
| `Recovery.OpenDeploymentsHaveWork` | internal/repository/operations_deploy.go:198-223 | every deployment recovery leaves open has a queued operation |
| `Recovery.PhasesCompose` | internal/repository/operations.go:594-675 | the phases in the code's order do to each row what its own state before recovery calls for |
| `Recovery.CountsAreExact` | internal/repository/operations.go:585-677 | the two counts are the numbers of distinct ids requeued and failed, a deploy failed in two tables counting once |
| `Recovery.RecoveryIsIdempotent` | internal/repository/operations.go:576-677 | a second pass reports (0, 0) and changes nothing |
| `Recovery.CompanionsRecover` | internal/repository/operations.go:594-659 | no companion runs afterwards; open ones of an operation with no attempt left are failed, running ones of an operation with an attempt left are queued, every other row is untouched |
| `Recovery.DeploymentsRecover` | internal/repository/operations_deploy.go:171-223 | exactly the open deployments without a queued operation are failed, as interrupted |
| `Backups.JobsHaveCauses` | internal/repository/database_backups.go:420-510 | over all 23 steps, what changes the status of a backup and from which to which, when backup rows come and go, and that restore jobs keep the backups they were queued with |
| `Backups.BackupStatusWritten` | internal/repository/database_backups.go:420-510 | a queued backup is started, any is completed with the status given, a succeeded one is marked for deletion, and one is deleted exactly if unusable and unused |
| `Backups.JobStatusWritten` | internal/repository/database_backups.go:606-609 | restore and upgrade jobs take exactly the statuses their writers accept |
| `Backups.SuccessWasReported` | internal/repository/database_backups.go:420-433 | in any run, a backup counts as succeeded only because its completion said so, and nothing has happened to it since |
| `Backups.RestoreFollowsSuccess` | internal/repository/database_backups.go:517-560 | in any run, a restore is queued only from a backup that was completed as succeeded before and was not touched in between |
| `Backups.UsedBackupsStay` | internal/repository/database_backups.go:501-510 | in every reachable state, each backup a restore job refers to is on record |
| `Recovery.ParentsFirstStrandsCompanions` | internal/repository/operations.go:594-659 | with the parents updated first, no companion would be changed |
| `Retention.StampsHaveCauses` | internal/repository/database_services.go:1302-1350 | over all 23 steps, only a finalisation writes a deletion stamp, at its own time with its own retention |
| `Retention.StampedSince` | internal/repository/database_services.go:1302-1350 | every stamp in a reachable state goes back to one finalisation, with no restore since |
| `Retention.PurgeRespectsRetention` | internal/repository/database_services.go:1442-1456 | a purge at t removes an instance only if it was finalised at some t0 with t0 + retention <= t and not restored in between |
| `Retention.BusyDeletionAsksToStop` | internal/repository/database_services.go:1257-1275 | with work running, deletion changes nothing but asks that work to stop |
| `Retention.DeletionCloses` | internal/repository/database_services.go:1247-1300 | without running work, deletion marks every undeleted instance and cancels every queued operation of the service in both tables, and nothing of another service |
| `Retention.FinalizeIffIdle` | internal/repository/database_services.go:1302-1350 | finalisation goes through exactly without live work and with an instance awaiting it, and stamps now and now + retention on those instances only |
| `Retention.RestoreIffInTime` | internal/repository/database_services.go:1359-1407 | with fresh ids, a restore at t reopens every instance and queues its work under its own lock exactly if all are deleted and t lies before each purge date; otherwise nothing changes |
| `Retention.PurgeIffDue` | internal/repository/database_services.go:1442-1456 | a purge at t removes the service's instances exactly if each has a purge date of t or earlier; otherwise nothing changes |
| `Retention.PurgeLeavesNoReference` | internal/repository/database_services.go:1442-1456 | mirrors, restore and upgrade jobs that refer to what was purged go with it, backups lose the reference, nothing else changes |
| `Retention.ReachableSameStamps` | internal/repository/database_services.go:1302-1350 | in every reachable state the instances of a service carry the same deletion time and purge date |
| `Retention.RestoreOrPurge` | internal/repository/database_services.go:1359-1456 | in any run, a service deleted at t0 can be restored before t0 + retention and purged from then on, never both at once and always one |
| `TransferLimit.TransfersStayLimited` | internal/repository/database_backups.go:579-594 | in any run whose callers pass a limit of at most max, no closed hour holds more than max of the backups and restores on record, even if the clock steps back |
| `Scenarios.SecondBackupRefused` | internal/repository/database_backups.go:315-368 | a run from the empty database in which one backup is admitted and the next is refused at the limit |
| `Scenarios.AllWorkCanBeQueued` | internal/repository/database_services.go:818-913 | a run after which a runtime action, an upgrade, a backup and a restore can each be queued |
| `TransferLimit.AdmissionKeepsLimit` | internal/repository/database_backups.go:579-594 | a transfer admitted by the count keeps every hour that contains it within the limit |
| `TransferLimit.AdmittedIff` | internal/repository/database_backups.go:579-594 | a transfer is admitted exactly if the last 3600 seconds hold fewer backups and restores than the limit |
| `Requests.ActionIff` | internal/repository/database_services.go:818-877 | what a runtime action needs, the desired state it sets, and the work it queues under the instance's lock |
| `Requests.UpgradeIff` | internal/repository/database_services.go:879-913 | an upgrade needs a healthy running instance and a new image of the same version, and queues its work and job row |
| `Requests.BackupIff` | internal/repository/database_backups.go:315-368 | a backup needs a healthy running instance, a valid retention and room in the hour, and queues its work and backup row |
| `Requests.RestoreIff` | internal/repository/database_backups.go:517-577 | what each restore mode needs of backup, target and safety backup, and the work and restore row it queues |
| `Requests.ServiceStarts` | internal/repository/database_services.go:216-415 | each instance of a new service is to run, has no container yet, and has its provisioning queued under its lock |
| `LogStream.EmitChunks` | cmd/server/deployment_logs_live.go:416-440 | splits data into chunks of at most 48 KiB with absolute ends, and stops at the first failed write with an exact position |
| `LogStream.EmitCatchUp` | cmd/server/deployment_logs_live.go:442-476 | sends exactly [start, end) of a file that grows meanwhile, or an exact prefix of it on failure |
| `LogStream.Poll` | internal/logs/files.go:272-289 | one poll sends exactly the bytes between the offset and the size it saw; after a failure the offset is still exact |
| `LogStream.FollowFileFromOffset` | internal/logs/files.go:182-292 | after any number of polls the chunks sent tile the file up to the offset reported; undisturbed, one poll is enough to reach the size the file had |
| `LogStream.StreamBuildLog` | cmd/server/deployment_logs_live.go:300-410 | the bytes received are exactly file[start..upto), a complete stream reaches the final size it reports, and a client that takes every frame is greeted with its cursor or a resync first and told last how the stream ended |
| `LogStream.TiledBytes` | cmd/server/deployment_logs_live.go:416-440 | chunks that tile a range carry exactly its bytes |
| `LogStream.ResumeIsSeamless` | cmd/server/deployment_logs_live.go:300-351 | resuming from the end of any received chunk loses no byte and repeats none |
| `BackupFrames.ChunkEncryptWriter.Write` | internal/backups/encryption.go:89-113 | appends one frame for a non-empty chunk, nothing for an empty one, refuses one whose length does not fit, and leaves a proper part of the frame if the destination fails |
| `BackupFrames.EncryptChunks` | internal/backups/encryption.go:123-148 | the object is the header and the frames of the non-empty chunks; after a failure it still decodes to exactly the chunks that went through |
| `BackupFrames.DecodeBroken` | internal/backups/encryption.go:38-113 | what a failed write leaves behind decodes to the chunks framed before it |
| `BackupFrames.Source.ReadFull` | internal/backups/encryption.go:42-60 | all the bytes asked for, end of file if there are none, an unexpected end in between |
| `BackupFrames.DecodeFrames` | internal/backups/encryption.go:38-68 | the read loop emits and ends as the format's definition says for any input |
| `BackupFrames.DecryptObject` | internal/backups/encryption.go:24-68 | decodes only what carries the header |
| `BackupFrames.LengthRoundTrip` | internal/backups/encryption.go:101-102 | the four-byte length is big-endian and decodes to what was encoded |
| `BackupFrames.RoundTrip` | internal/backups/encryption.go:38-113 | decoding an encoded stream returns its chunks and a clean end |
| `BackupFrames.PlaintextSurvives` | internal/backups/encryption.go:24-148 | the decompressor is given exactly the bytes the compressor wrote |
| `BackupFrames.DecodePrefix` | internal/backups/encryption.go:38-68 | any prefix decodes to whole chunks only, and its end looks clean exactly at a frame boundary, after a length or after a nonce |
| `Pagination.SelectRows` | internal/repository/deployments_v2.go:196-247 | the first n candidates, newest first |
| `Pagination.ListServiceDeploymentsFiltered` | internal/repository/deployments_v2.go:192-258 | the newest candidates up to the limit (100 outside 1..500) and the cursor of the next page; `Pagination.PageIsNewest` and `Pagination.CandidateColumns` say so in columns |
| `Pagination.PageSplits` | internal/repository/deployments_v2.go:227-258 | a page and what its next cursor selects make up what the page's own cursor selects |
| `Pagination.PagesAreTheListing` | internal/repository/deployments_v2.go:192-258 | following the cursor gives the whole filtered list, by created_at and then id descending, each row once, whatever changes before the cursor meanwhile |
| `Pagination.ListedIsSorted` | internal/repository/deployments_v2.go:234-235 | the listing is complete, and each row is newer than the next, or as old with the greater id |
| `Pagination.CandidateColumns` | internal/repository/deployments_v2.go:196-233 | which rows a query lists, filter by filter, and that a cursor leaves the older ones |
| `Pagination.PageIsNewest` | internal/repository/deployments_v2.go:234-258 | a page that leaves rows for later is full, and every row on it comes before every row left |
| `Pagination.FollowingEnds` | internal/repository/deployments_v2.go:252-257 | following the cursor on a table that holds still ends |
| `Pagination.DeletionKeepsRestIff` | internal/repository/deployments_v2.go:227-233 | after rows up to the cursor are deleted, the rest is listed unchanged exactly if the cursor's row stays or nothing was left |
| `Pagination.DeletedCursorLosesRows` | internal/repository/deployments_v2.go:227-257 | deleting the row a page ends with makes the next page empty and last although rows are left |
| `Pagination.RowLostAtCursor` | internal/repository/deployments_v2.go:227-257 | two rows, one to a page, of which the second is missed |
| `RateLimits.FixedWindowLimiter.Allow` | cmd/server/main.go:883-901 | one call changes one client's entry, and its verdict follows from that client's earlier calls |
| `RateLimits.CountedAlways` | cmd/server/main.go:890-900 | with a clock that does not step back, the entry counts exactly what its window let through |
| `RateLimits.ClientsAreApart` | cmd/server/main.go:883-889 | two addresses share an entry exactly if they are equal, or one is blank and the other reads unknown |
| `RateLimits.TwiceTheLimit` | cmd/server/main.go:883-901 | at most twice the limit is let through in any closed interval of one window length |
| `RateLimits.RefusedOnlyAtTheLimit` | cmd/server/main.go:894-897 | a call is refused only if the full limit was let through less than one window ago |
| `RateLimits.TwiceIsReached` | cmd/server/main.go:890-900 | for every limit and window, calls that reach the bound of twice the limit |
| `PlatformDomains.MoveManagedRows` | internal/repository/onboarding.go:100-108 | with UNIQUE checked row by row in any order, the update fails exactly if a custom domain has one of the new names |
| `PlatformDomains.MoveEndpointRows` | internal/repository/onboarding.go:109-114 | visiting the rows in a given order, the update succeeds exactly if each new hostname is free in its turn, and then has moved exactly the endpoints under the old domain |
| `PlatformDomains.MoveInOrderIff` | internal/repository/onboarding.go:109-114 | the same of the update as a function of the order |
| `PlatformDomains.EveryOrderIff` | internal/repository/onboarding.go:109-114 | every order succeeds exactly if no row moves to a hostname that another row has |
| `PlatformDomains.SingleEndpointMoves` | internal/repository/onboarding.go:109-114 | with at most one endpoint the update cannot fail |
| `PlatformDomains.DomainStore.UpdatePlatformDomain` | internal/repository/onboarding.go:62-124 | moves every managed name and endpoint or nothing, and succeeds exactly if gateways are quiet, no custom domain is in the way and the endpoint rows can move in their order |
| `PlatformDomains.DomainStore.CheckDatabaseGatewayDomainChangeAllowed` | internal/repository/database_gateways.go:1242-1265 | passes exactly if no connection, endpoint or gateway work is live |
| `PlatformDomains.DomainStore.EnsurePlatformServiceDomain` | internal/repository/domains_v2.go:212-265 | returns the existing name, does nothing exactly without one and without a platform domain, or adds one row with the first free label of twelve; fails only if all are taken |
| `PlatformDomains.DomainStore.UpdateServiceDomain` | internal/repository/domains_v2.go:107-145 | never renames a managed row |
| `PlatformDomains.DomainStore.DeleteServiceDomain` | internal/repository/domains_v2.go:147-164 | never deletes a managed row |
| `PlatformDomains.DomainStore.CreateServiceDomain` | internal/repository/domains_v2.go:39-69 | adds a custom row exactly if its name is free |
| `PlatformDomains.DomainStore.RestoreServiceDomain` | internal/repository/domains_v2.go:166-182 | succeeds exactly if the uniqueness constraints allow it, and leaves the names sound exactly if the row is custom or lies under the current platform domain |
| `PlatformDomains.MoveKeepsNames` | internal/repository/onboarding.go:100-108 | after a move every managed name is one label under the new domain, the label unchanged, and names are still unique |
| `PlatformDomains.MovingBackRestores` | internal/repository/onboarding.go:62-124 | moving back is allowed and restores every name, and every endpoint exactly if none lay only under the new domain |
| `PlatformDomains.MovingBackCanCarryAlong` | internal/repository/onboarding.go:109-114 | an endpoint that does not come back |
| `PlatformDomains.EndpointUnderDomainFollows` | internal/repository/onboarding.go:109-114 | endpoints that lie under the platform domain follow every move, come back, and do not depend on the way |
| `PlatformDomains.MovesCompose` | internal/repository/onboarding.go:100-108 | managed names do not depend on the domains passed through |
| `PlatformDomains.EndpointMovesComposeIff` | internal/repository/onboarding.go:109-114 | moving endpoints by way of a third domain is the direct move exactly if none lies under it without lying under the first |
| `PlatformDomains.EndpointsDependOnTheWay` | internal/repository/onboarding.go:109-114 | an endpoint for which it is not |
| `PlatformDomains.OrderCanMatter` | internal/repository/onboarding.go:109-114 | two endpoints whose move fails in one order and succeeds in the other |
| `Gateways.GatewayStore.QueueDatabaseGatewayTeardown` | internal/repository/database_gateways.go:375-405 | marks the endpoint for deletion exactly if all its connections are revoked and no teardown is pending |
| `Gateways.GatewayStore.CreateDatabaseExternalConnection` | internal/repository/database_gateways.go:407-521 | refuses an endpoint that is being deleted, else adds the connection and reactivates the endpoint |
| `Gateways.GatewayStore.QueueDatabaseExternalConnectionAction` | internal/repository/database_gateways.go:726-783 | each action is accepted exactly in the statuses it is meant for |
| `Gateways.GatewayStore.CreateDatabaseExternalCredentialWithIdentity` | internal/repository/database_gateways.go:821-855 | adds the next generation's credential, unless that generation is taken |
| `Gateways.GatewayStore.RollbackDatabaseExternalCredentialRotation` | internal/repository/database_gateways.go:952-985 | erases the failed credential and returns to the earlier generation, or changes nothing |
| `Gateways.GatewayStore.CompleteDatabaseExternalCredentialRotation` | internal/repository/database_gateways.go:1301-1322 | moves the old credential to grace and the connection to active exactly from pending, rotating or failed, else changes nothing |
| `Gateways.GatewayStore.FinalizeDatabaseExternalConnectionRevocation` | internal/repository/database_gateways.go:1324-1342 | erases every credential of the connection with its revocation |
| `Gateways.StepMovesForward` | internal/repository/database_gateways.go:821-911 | over all 18 gateway steps credentials only move active, grace, revoked, and secrets are empty exactly when revoked |
| `Gateways.ConnectionMoves` | internal/repository/database_gateways.go:726-783 | over all 18 gateway steps, what can change a connection's status, from which and to which |
| `Gateways.RequestIff` | internal/repository/database_gateways.go:726-783 | disable, enable, rotate and revoke are queued, and change the status, exactly from the statuses they are meant for |
| `Gateways.CreationIff` | internal/repository/database_gateways.go:407-521 | a connection is created, pending, exactly on an endpoint that is not being deleted and with an expiry still to come |
| `Gateways.CredentialIff` | internal/repository/database_gateways.go:821-855 | a credential is created exactly if sealed and if the generation after its connection's is free, which the connection then takes |
| `Gateways.RollbackIff` | internal/repository/database_gateways.go:955-985 | a rollback goes through exactly to an earlier generation, and erases the failed credential only |
| `Gateways.TeardownIff` | internal/repository/database_gateways.go:375-405 | a teardown is queued exactly if all the engine's connections are revoked and none is pending |
| `Gateways.EndsTakeEffect` | internal/repository/database_gateways.go:1301-1342 | a completed rotation puts the old credential in grace until its deadline, a finalised revocation erases all credentials of the connection and no other |
| `Gateways.CredentialsOnlyMoveForward` | internal/repository/database_gateways.go:821-911 | the same over any stretch of a run through which the credential is kept |
| `Gateways.CredentialGoesWithConnection` | internal/database/migrations/0022_database_gateway_foundation.sql:33-92 | a credential disappears only with its connection, when the service is purged |
| `Gateways.Reachable` | internal/repository/database_gateways.go:375-405 | in every reachable state an endpoint being deleted has no unrevoked connection |
| `Gateways.StatusKeepsGuardIff` | internal/repository/database_gateways.go:987-996 | a status write keeps that guard exactly if the endpoint is not being deleted or the status is 'revoked' |
| `Gateways.RollbackKeepsGuardIff` | internal/repository/database_gateways.go:955-985 | a rollback keeps that guard exactly if the endpoint is not being deleted |
| `Gateways.RollbackCanReviveRevoked` | internal/repository/database_gateways.go:955-985 | a run that revokes a connection during a rotation and queues its endpoint's teardown, after which that rotation's rollback breaks the guard |
| `Gateways.StuckIffRolledBack` | internal/repository/database_gateways.go:955-985 | in any run a connection's next generation is taken exactly if one of its rotations was rolled back since it was created |
| `Gateways.NewCredentialIffNeverRolledBack` | internal/repository/database_gateways.go:808-855 | in any run a well-formed new credential is accepted exactly if no rotation of the connection was rolled back before |
| `Gateways.RollbackBlocksRotation` | internal/repository/database_gateways.go:955-985 | the worker's own sequence of a failed rotation, after which every new credential is refused |

## Left out

- HTTP handlers, sessions, JSON, the user interface, Docker, S3, Caddy, GitHub and git: calls to other programs, or plumbing around the methods modelled.
- The older writers of `database_operations` alone (internal/repository/database_services.go:1021-1172): the running program uses the queue instead.
- Companion rows in step with their operations over whole runs: cancelling a queued operation and starting a deletion do not touch them, so `Recovery.CompanionsRecover` is about recovery only, and `Backups` follows each backup by itself.
- Bindings, credentials, actors and environments of database services.
- The order of a restore after its safety backup: both are queued with stamps that may tie.
- The deploy handler and the worker loop; they appear as any sequence of the calls they may make.
- Columns that no decision reads: image, commit, branch and builder of a deployment, certificate and publication state of a domain, metadata of gateway operations.
- `LogStream.StreamBuildLog`: log rotation and deletion of the file; invalid UTF-8 at a chunk boundary, which the JSON encoder replaces; the timers, of which only the order of events is kept.
- `Repository.Store.QueueDatabaseBackup`: the look-ups of destination, service and credential are one given answer.
- `Repository.Store.QueueDatabaseRestore`: whether the backup is readable and its engine compatible are given answers.
- `Repository.Store.CreateDatabaseService`: the checks of name, environment, configuration and bindings, which come before any row is written; only the instances and their operations are modelled.
- `Repository.Store.BeginDatabaseServiceDeletion`: the bindings that go with a deletion.
- `Repository.Store.CreateServiceDeployment`: the check that service and environment belong together, before the row is written.
- `LogStream.FollowFileFromOffset`: a missing or replaced file, and errors of the rotation callback.
- `BackupFrames.DecodeFrames`: compression, key handling and the strength of the cipher.
- `Pagination.ListServiceDeploymentsFiltered`: the join that finds a deployment's application is a column of the row.
- `BackupFrames.EncryptChunks`: a destination that refuses even the header.
- `PlatformDomains.DomainStore.UpdatePlatformDomain`: LIKE wildcards and letter case in domain names.
- `PlatformDomains.DomainStore.EnsurePlatformServiceDomain`: another process creating the same row between two attempts.
- `RateLimits.TwiceTheLimit`: a clock that steps back.
- `Gateways.GatewayStore.CreateDatabaseExternalConnection`: the checks of name, profile, address ranges and instance are one given answer.
- Gateway operations' own leases and progress, routes, CIDR lists and pool budgets; `QueueDueDatabaseExternalConnectionExpirations` and `QueueDueDatabaseExternalCredentialRetirements` as sweeps (one expiry is the step `ConnectionExpired`); `FailQueuedInitialDatabaseExternalConnections`.
- Cron parsing, configuration, DNS guidance, metrics, catalog look-ups: library-bound or single-branch.
