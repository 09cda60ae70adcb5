/** The repository's transactions, statement by statement, proved against the state functions.

    Each method is one transaction: what it leaves in the tables is committed, and a path that
    reports an error leaves every table as it was. Clocks and generated ids are parameters. */
module Repository {
  import opened Tables
  import opened Transitions
  import opened StateMachine
  import opened Invariants
  import opened Recovery
  import Sql

  /** SELECT ... ORDER BY priority DESC, created_at, id LIMIT 1: one pass over the rows. */
  method SelectCandidate(ops: map<Id, Operation>, options: ClaimOptions, now: Time) returns (best: Option<Id>)
    ensures best.None? ==> forall id | id in ops :: !Runnable(ops, id, options, now)
    ensures best.Some? ==> IsNext(ops, best.value, options, now)
    ensures best.Some? ==>
      forall other | other in ops && other != best.value && Runnable(ops, other, options, now) ::
        || ops[best.value].priority > ops[other].priority
        || (ops[best.value].priority == ops[other].priority
            && (|| ops[best.value].createdAt < ops[other].createdAt
                || (ops[best.value].createdAt == ops[other].createdAt && best.value < other)))
  {
    best := None;
    var todo := ops.Keys;
    while todo != {}
      invariant todo <= ops.Keys
      invariant best.None? ==> forall id | id in ops && id !in todo :: !Runnable(ops, id, options, now)
      invariant best.Some? ==> Runnable(ops, best.value, options, now)
      invariant best.Some? ==>
        forall id | id in ops && id !in todo && Runnable(ops, id, options, now) ::
          id == best.value || Precedes(ops, best.value, id)
    {
      var id :| id in todo;
      if Runnable(ops, id, options, now) && (best.None? || Precedes(ops, id, best.value)) {
        best := Some(id);
      }
      todo := todo - {id};
    }
  }

  /** SELECT COUNT(*) of the backups and restores created since then. */
  method CountRecentTransfers(rows: map<Id, DatabaseOperation>, since: Time) returns (recent: nat)
    ensures recent == |RecentTransfers(rows, since)|
  {
    hide RecentTransfers;
    recent := 0;
    var todo := rows.Keys;
    RecentAreRows(rows, since);
    while todo != {}
      invariant todo <= rows.Keys
      invariant recent == |RecentTransfers(rows, since) - todo|
    {
      var k :| k in todo;
      RecentStep(rows, since, todo, k);
      if (rows[k].operationType == BackupType || rows[k].operationType == RestoreType) && rows[k].createdAt >= since {
        recent := recent + 1;
      }
      todo := todo - {k};
    }
    assert RecentTransfers(rows, since) - todo == RecentTransfers(rows, since);
  }

  lemma RecentAreRows(rows: map<Id, DatabaseOperation>, since: Time)
    ensures RecentTransfers(rows, since) - rows.Keys == {}
  {}

  lemma RecentStep(rows: map<Id, DatabaseOperation>, since: Time, todo: set<Id>, k: Id)
    requires k in todo && k in rows
    ensures |RecentTransfers(rows, since) - (todo - {k})| == |RecentTransfers(rows, since) - todo|
      + if (rows[k].operationType == BackupType || rows[k].operationType == RestoreType) && rows[k].createdAt >= since
          then 1 else 0
  {
    var all := RecentTransfers(rows, since);
    assert all - (todo - {k}) == all - todo + if k in all then {k} else {};
  }

  class Store {
    var operations: map<Id, Operation>
    var databaseOperations: map<Id, DatabaseOperation>
    var deployments: map<Id, Deployment>
    var databaseBackups: map<Id, Companion>
    var databaseRestoreJobs: map<Id, Companion>
    var databaseUpgradeJobs: map<Id, Companion>
    var platformEvents: seq<Event>
    var databaseInstances: map<string, Instance>

    ghost function State(): Db
      reads this
    {
      Db(operations, databaseOperations, deployments, databaseBackups, databaseRestoreJobs, databaseUpgradeJobs,
         platformEvents, databaseInstances)
    }

    constructor ()
      ensures State() == EMPTY
    {
      operations, databaseOperations, deployments := map[], map[], map[];
      databaseBackups, databaseRestoreJobs, databaseUpgradeJobs := map[], map[], map[];
      platformEvents, databaseInstances := [], map[];
    }

    // ----- deployments ----------------------------------------------------

    method RecordDeploymentStatusEvent(id: Id, status: DeployStatus, detail: Note, now: Time)
      modifies this`platformEvents
      ensures platformEvents == old(platformEvents) + [Event(id, status, detail, now)]
    {
      platformEvents := platformEvents + [Event(id, status, detail, now)];
    }

    method ProjectDeployClaim(id: Id, now: Time)
      modifies this`deployments, this`platformEvents
      ensures deployments == PutDeployment(old(deployments), id, BuildingDeployment(old(deployments), id, now))
      ensures platformEvents == PutEvent(old(platformEvents), id, BuildingDeployment(old(deployments), id, now),
          Blank, now)
    {
      if id in deployments && deployments[id].status == DeployQueued {
        deployments := deployments[id := deployments[id].(status := DeployBuilding, updatedAt := now)];
        RecordDeploymentStatusEvent(id, DeployBuilding, Blank, now);
      }
    }

    method ProjectDeployDefer(id: Id, now: Time)
      modifies this`deployments, this`platformEvents
      ensures deployments == PutDeployment(old(deployments), id, RequeuedDeployment(old(deployments), id, now))
      ensures platformEvents == PutEvent(old(platformEvents), id, RequeuedDeployment(old(deployments), id, now),
          Blank, now)
    {
      if id in deployments && deployments[id].status == DeployBuilding {
        deployments := deployments[id := deployments[id].(status := DeployQueued, updatedAt := now)];
        RecordDeploymentStatusEvent(id, DeployQueued, Blank, now);
      }
    }

    method ProjectDeployComplete(id: Id, status: Status, message: Note, now: Time)
      requires status.Terminal()
      modifies this`deployments, this`platformEvents
      ensures deployments == PutDeployment(old(deployments), id,
          FinishedDeployment(old(deployments), id, status, message, now))
      ensures platformEvents == PutEvent(old(platformEvents), id,
          FinishedDeployment(old(deployments), id, status, message, now), message, now)
    {
      var deployStatus := match status
        case Success => DeploySuccess
        case Failed => DeployFailed
        case _ => DeployCancelled;
      if id in deployments && deployments[id].status in {DeployQueued, DeployBuilding} {
        if deployStatus == DeployCancelled {
          deployments := deployments[id := deployments[id].(status := deployStatus, cancelledAt := Some(now),
              updatedAt := now)];
        } else {
          deployments := deployments[id := deployments[id].(status := deployStatus, errorMessage := message,
              updatedAt := now)];
        }
        RecordDeploymentStatusEvent(id, deployStatus, message, now);
      }
    }

    method CreateServiceDeployment(id: Id, service: string, now: Time)
      requires Unused(State(), id)
      modifies this`deployments, this`platformEvents
      ensures State() == DeploymentCreated(old(State()), id, service, now)
    {
      deployments := deployments[id := Deployment(service, DeployQueued, Blank, None, now, now)];
      RecordDeploymentStatusEvent(id, DeployQueued, Blank, now);
    }

    method CancelDeployment(id: Id, now: Time) returns (cancelled: bool)
      modifies this`deployments, this`platformEvents
      ensures State() == DeploymentCancelled(old(State()), id, now)
      ensures cancelled <==> id in old(deployments) && !old(deployments)[id].status.Terminal()
    {
      cancelled := id in deployments && deployments[id].status in {DeployQueued, DeployBuilding};
      if cancelled {
        deployments := deployments[id := deployments[id].(status := DeployCancelled, cancelledAt := Some(now),
            updatedAt := now)];
        RecordDeploymentStatusEvent(id, DeployCancelled, CancelledByOperator, now);
      }
    }

    method UpdateDeploymentStatus(id: Id, status: DeployStatus, message: Note, now: Time) returns (r: Result<()>)
      modifies this`deployments, this`platformEvents
      ensures State() == DeploymentUpdated(old(State()), id, status, message, now)
      ensures r == if id in old(deployments) && old(deployments)[id].status != DeployCancelled then Ok(()) else NoRows
    {
      if id !in deployments || deployments[id].status == DeployCancelled { return NoRows; }
      deployments := deployments[id := deployments[id].(status := status, errorMessage := message, updatedAt := now)];
      RecordDeploymentStatusEvent(id, status, message, now);
      r := Ok(());
    }

    // ----- enqueue --------------------------------------------------------

    method EnqueueOperation(id: Id, input: NewOperation, now: Time) returns (r: Result<()>)
      modifies this`operations
      ensures State() == Enqueued(old(State()), id, input, now)
      ensures r.Ok? <==> id !in old(operations) && id in operations
    {
      if input.kind == NamedKind("") || input.lockKey == NamedLock("") { return Rejected; }
      var priority := if input.priority == 0 then DEFAULT_PRIORITY else input.priority;
      var maxAttempts := if input.maxAttempts == 0 then DEFAULT_MAX_ATTEMPTS else input.maxAttempts;
      var completed: Option<Time>, percent := None, 0;
      if input.status == Success || input.status == Failed || input.status == Cancelled {
        completed := Some(now);
        if input.status == Success { percent := 100; }
      }
      if id in operations || maxAttempts < 1 { return Rejected; }   // PRIMARY KEY, CHECK(max_attempts >= 1)
      operations := operations[id :=
        Operation(input.kind, input.lockKey, input.status, priority, input.step, percent, None, 0, maxAttempts,
                  "", None, None, input.serviceId, Blank, Blank, None, completed, now, now)];
      r := Ok(());
    }

    method EnqueueDeployOperation(deployment: Id, lockKey: LockKey, service: string, priority: int, now: Time)
      returns (r: Result<()>)
      modifies this`operations
      ensures State() == Enqueued(old(State()), deployment,
          NewOperation(NamedKind("deploy"), lockKey, Queued, priority, 1, NoStep, service), now)
      ensures r.Ok? ==> deployment in operations
      ensures r.Ok? ==> operations[deployment].maxAttempts == 1 && operations[deployment].status == Queued
    {
      r := EnqueueOperation(deployment,
          NewOperation(NamedKind("deploy"), lockKey, Queued, priority, 1, NoStep, service), now);
    }

    /** The read-model row, then the queue row derived from it. */
    method InsertPair(id: Id, m: DatabaseOperation)
      modifies this`operations, this`databaseOperations
      ensures operations == old(operations)[id := QueueRow(m)] && databaseOperations == old(databaseOperations)[id := m]
    {
      databaseOperations := databaseOperations[id := m];
      var op := databaseOperations[id];
      var lock := match op.instanceId
        case Some(instance) => if instance != "" then InstanceLock(instance) else ServiceLock(op.serviceId)
        case None => ServiceLock(op.serviceId);
      operations := operations[id :=
        Operation(DatabaseKind(op.operationType), lock, op.status, DEFAULT_PRIORITY, op.step, op.percent, None, 0,
            DEFAULT_MAX_ATTEMPTS,
                  "", None, None, op.serviceId, Blank, Blank, op.startedAt, op.completedAt, op.createdAt,
                      op.updatedAt)];
    }

    method QueueDatabaseInstanceOperation(id: Id, instance: string, action: OperationType, now: Time)
      returns (r: Result<()>)
      modifies this`operations, this`databaseOperations, this`databaseInstances
      ensures State() == InstanceActionQueued(old(State()), id, instance, action, now)
      ensures r.Ok? <==> InstanceActionAllowed(old(State()), id, instance, action)
    {
      if action !in {StartType, StopType, RestartType, RotateCredentialsType} { return Rejected; }
      if instance !in databaseInstances { return NoRows; }
      var row := databaseInstances[instance];
      if row.deletedAt.Some? || row.desired == DesiredDeleted { return Rejected; }
      if row.containerId == "" { return Rejected; }
      if id in databaseOperations || id in operations { return Rejected; }
      var desired, status := DesiredRunning, Starting;
      if action == StopType { desired, status := DesiredStopped, Stopping; }
      if action != RotateCredentialsType {
        databaseInstances := databaseInstances[instance := row.(desired := desired, status := status,
            updatedAt := now)];
      }
      InsertPair(id, QueuedMirror(row.serviceId, instance, action, StepQueued, now));
      r := Ok(());
    }

    method QueueDatabaseUpgrade(id: Id, instance: string, version: string, image: string, now: Time)
      returns (r: Result<()>)
      modifies this`operations, this`databaseOperations, this`databaseUpgradeJobs
      ensures State() == UpgradeQueued(old(State()), id, instance, version, image, now)
      ensures r.Ok? <==> UpgradeAllowed(old(State()), id, instance, version, image)
    {
      if instance !in databaseInstances { return NoRows; }
      var row := databaseInstances[instance];
      if row.deletedAt.Some? || row.desired != DesiredRunning || row.status != Healthy || row.containerId == "" {
        return Rejected;
      }
      if version == "" || version != row.engineVersion || image == "" || image == row.imageRef { return Rejected; }
      if id in databaseOperations || id in operations || id in databaseUpgradeJobs { return Rejected; }
      databaseUpgradeJobs := databaseUpgradeJobs[id := Companion(Some(id), instance, NoTrigger, JobQueued, {}, now)];
      InsertPair(id, QueuedMirror(row.serviceId, instance, UpgradeType, StepQueued, now));
      r := Ok(());
    }

    method EnforceDatabaseTransferRateLimit(now: Time, maxPerHour: int) returns (ok: bool)
      ensures ok <==> TransferAdmitted(State(), now, maxPerHour)
    {
      if maxPerHour < 1 { return false; }
      var recent := CountRecentTransfers(databaseOperations, now - 3600);
      ok := recent < maxPerHour;
    }

    method QueueDatabaseBackup(id: Id, b: BackupRequest, now: Time) returns (r: Result<()>)
      modifies this`operations, this`databaseOperations, this`databaseBackups
      ensures State() == BackupQueued(old(State()), id, b, now)
      ensures r.Ok? <==> BackupAllowed(old(State()), id, b, now)
    {
      if b.instance !in databaseInstances || !b.known { return NoRows; }
      var row := databaseInstances[b.instance];
      if row.status != Healthy || row.desired != DesiredRunning || row.deletedAt.Some? { return Rejected; }
      if b.trigger == NoTrigger || b.retentionDays < 1 || b.retentionDays > 3650 { return Rejected; }
      var admitted := EnforceDatabaseTransferRateLimit(now, b.maxPerHour);
      if !admitted || id in databaseOperations || id in operations || b.backupId in databaseBackups { return Rejected; }
      databaseBackups := databaseBackups[b.backupId := Companion(Some(id), b.instance, b.trigger, JobQueued, {}, now)];
      InsertPair(id, QueuedMirror(row.serviceId, b.instance, BackupType, StepQueued, now));
      r := Ok(());
    }

    method QueueDatabaseRestore(id: Id, q: RestoreRequest, now: Time) returns (r: Result<()>)
      modifies this`operations, this`databaseOperations, this`databaseRestoreJobs
      ensures State() == RestoreQueued(old(State()), id, q, now)
      ensures r.Ok? <==> RestoreAllowed(old(State()), id, q, now)
    {
      if q.backupId !in databaseBackups || databaseBackups[q.backupId].status != JobSuccess || !q.readable {
        return Rejected;
      }
      if q.target !in databaseInstances { return NoRows; }
      var target := databaseInstances[q.target];
      if target.deletedAt.Some? || target.desired != DesiredRunning { return Rejected; }
      if q.mode == ReplaceCurrent && (target.status != Healthy || target.containerId == "") { return Rejected; }
      if q.mode == NewService && target.status != Provisioning && target.status != Starting
          && target.status != Healthy {
        return Rejected;
      }
      if !q.compatible || (q.mode != NewService && q.mode != ReplaceCurrent) { return Rejected; }
      if q.mode == ReplaceCurrent {
        if q.safetyId !in databaseBackups || databaseBackups[q.safetyId].instanceId != q.target
           || databaseBackups[q.safetyId].trigger != Safety { return Rejected; }
      }
      var admitted := EnforceDatabaseTransferRateLimit(now, q.maxPerHour);
      if !admitted || id in databaseOperations || id in operations || id in databaseRestoreJobs { return Rejected; }
      databaseRestoreJobs := databaseRestoreJobs[id := Companion(Some(id), q.target, NoTrigger, JobQueued,
          if q.mode == ReplaceCurrent then {q.backupId, q.safetyId} else {q.backupId}, now)];
      InsertPair(id, QueuedMirror(target.serviceId, q.target, RestoreType, StepWaitingForTarget, now));
      r := Ok(());
    }

    /** One instance row and one provision pair for each requested environment. */
    method CreateDatabaseService(service: string, news: seq<NewInstance>, now: Time)
      requires Enabled(State(), StateMachine.CreateDatabaseService(service, news, now))
      modifies this`operations, this`databaseOperations, this`databaseInstances
      ensures State() == ServiceCreated(old(State()), service, news, now)
    {
      hide QueuedMirror, QueueRow, PairsQueued, NewInstanceRow;
      ghost var s := State();
      NoPairs(s, service, ProvisionType, StepReserved, now);
      for k := 0 to |news|
        invariant databaseInstances == WithInstances(old(databaseInstances), service, news[..k], now)
        invariant operations == PairsQueued(s, service, ItemsOf(news)[..k], ProvisionType, StepReserved, now).ops
        invariant databaseOperations
            == PairsQueued(s, service, ItemsOf(news)[..k], ProvisionType, StepReserved, now).mirrors
      {
        assert news[..k + 1][..k] == news[..k];
        PairsNext(s, service, ItemsOf(news), k, ProvisionType, StepReserved, now);
        databaseInstances := databaseInstances[news[k].item.instance := NewInstanceRow(service, news[k], now)];
        InsertPair(news[k].item.operation,
            QueuedMirror(service, news[k].item.instance, ProvisionType, StepReserved, now));
      }
      assert news[..|news|] == news && ItemsOf(news)[..|news|] == ItemsOf(news);
      PairsIgnoreInstances(s, databaseInstances, service, ItemsOf(news), ProvisionType, StepReserved, now);
    }

    // ----- claim ----------------------------------------------------------

    method ProjectOperationClaim(id: Id, owner: string, expires: Time, now: Time)
      modifies this`databaseOperations
      ensures databaseOperations == PutMirror(old(databaseOperations), id,
        if id in old(databaseOperations) then Some(ClaimedMirror(old(databaseOperations)[id], owner, expires, now))
            else None)
    {
      if id in databaseOperations {
        var m := databaseOperations[id];
        databaseOperations := databaseOperations[id :=
          m.(status := Running, step := StepStarting, percent := 1, startedAt := if m.startedAt.None? then Some(now)
              else m.startedAt,
             owner := owner, leaseExpiresAt := Some(expires), attemptCount := m.attemptCount + 1, updatedAt := now)];
      }
    }

    /** The id returned is the runnable operation no other runnable one precedes. */
    method ClaimNextOperation(options: ClaimOptions, now: Time) returns (r: Result<Id>)
      modifies this`operations, this`databaseOperations, this`deployments, this`platformEvents
      ensures r.Rejected? <==> !options.Valid()
      ensures r.Ok? ==>
        IsNext(old(operations), r.value, options, now) && State() == Claimed(old(State()), r.value, options, now)
      ensures r.Ok? ==>
        var before, o := old(operations), operations[r.value];
        && o.status == Running && o.owner == options.owner && o.leaseExpiresAt == Some(now + options.lease)
        && o.attempt == before[r.value].attempt + 1
        && forall other | other in before && other != r.value && Runnable(before, other, options, now) ::
          || o.priority > before[other].priority
          || (o.priority == before[other].priority
              && (|| o.createdAt < before[other].createdAt
                  || (o.createdAt == before[other].createdAt && r.value < other)))
      ensures r.NoRows? ==> forall id | id in operations :: !Runnable(operations, id, options, now)
      ensures !r.Ok? ==> State() == old(State())
    {
      if options.owner == "" || options.lease < 1 { return Rejected; }
      var candidate := SelectCandidate(operations, options, now);
      if candidate.None? { return NoRows; }
      var id := candidate.value;
      var o := operations[id];
      var expires := now + options.lease;
      operations := operations[id :=
        o.(status := Running, step := StepStarting, percent := 1, startedAt := if o.startedAt.None? then Some(now)
            else o.startedAt,
           owner := options.owner, leaseExpiresAt := Some(expires), attempt := o.attempt + 1, updatedAt := now)];
      ProjectOperationClaim(id, options.owner, expires, now);
      ProjectDeployClaim(id, now);
      r := Ok(id);
    }

    // ----- the lease holder's calls ---------------------------------------

    /** Extends the lease and reports whether cancellation was requested. */
    method RenewOperationLease(id: Id, owner: string, lease: int, now: Time) returns (r: Result<bool>)
      modifies this`operations, this`databaseOperations
      ensures State() == Renewed(old(State()), id, owner, lease, now)
      ensures r.Ok? <==> Holds(old(State()), id, owner)
      ensures r.Ok? ==> (r.value <==> id in old(operations) && old(operations)[id].cancelRequestedAt.Some?)
      ensures r.Ok? ==> operations[id].leaseExpiresAt == Some(now + lease)
    {
      if id !in operations || operations[id].status != Running || operations[id].owner != owner { return NoRows; }
      operations := operations[id := operations[id].(leaseExpiresAt := Some(now + lease), updatedAt := now)];
      if id in databaseOperations {
        databaseOperations := databaseOperations[id := databaseOperations[id].(leaseExpiresAt := Some(now + lease),
            updatedAt := now)];
      }
      r := Ok(operations[id].cancelRequestedAt.Some?);
    }

    method DeferOperation(id: Id, owner: string, retryAfter: int, now: Time) returns (r: Result<()>)
      modifies this`operations, this`databaseOperations, this`deployments, this`platformEvents
      ensures State() == Deferred(old(State()), id, owner, retryAfter, now)
      ensures r.Ok? <==> Holds(old(State()), id, owner)
      ensures r.Ok? ==>
        operations[id].status == Queued
        && operations[id].availableAt == Some(if retryAfter > 0 then now + retryAfter else now)
    {
      var delay := if retryAfter < 0 then 0 else retryAfter;
      if id !in operations || operations[id].status != Running || operations[id].owner != owner { return NoRows; }
      var o := operations[id];
      operations := operations[id :=
        o.(status := Queued, step := StepWaiting, percent := 0, availableAt := Some(now + delay),
           attempt := Max(o.attempt - 1, 0), owner := "", leaseExpiresAt := None, updatedAt := now)];
      if id in databaseOperations {
        var m := databaseOperations[id];
        databaseOperations := databaseOperations[id :=
          m.(status := Queued, step := StepWaiting, percent := 0,
             attemptCount := Max(m.attemptCount - 1, 0), owner := "", leaseExpiresAt := None, updatedAt := now)];
      }
      ProjectDeployDefer(id, now);
      r := Ok(());
    }

    method CompleteOperation(id: Id, owner: string, c: Completion, now: Time) returns (r: Result<()>)
      modifies this`operations, this`databaseOperations, this`deployments, this`platformEvents
      ensures State() == Completed(old(State()), id, owner, c, now)
      ensures r.Rejected? <==> !c.status.Terminal()
      ensures r.Ok? <==> c.status.Terminal() && Holds(old(State()), id, owner)
      ensures r.Ok? ==>
        operations[id].status == c.status && operations[id].owner == ""
        && operations[id].errorCode == c.errorCode && operations[id].errorMessage == c.errorMessage
      ensures r.Ok? && id in databaseOperations ==> databaseOperations[id].status == c.status
    {
      if c.status != Success && c.status != Failed && c.status != Cancelled { return Rejected; }
      if id !in operations || operations[id].status != Running || operations[id].owner != owner { return NoRows; }
      var o := operations[id];
      operations := operations[id :=
        o.(status := c.status, step := if c.step == NoStep then o.step else c.step,
           percent := if c.status == Success then 100 else o.percent,
           errorCode := c.errorCode, errorMessage := c.errorMessage, completedAt := Some(now),
           owner := "", leaseExpiresAt := None, updatedAt := now)];
      if id in databaseOperations {
        var m := databaseOperations[id];
        databaseOperations := databaseOperations[id :=
          m.(status := c.status, step := if c.step == NoStep then m.step else c.step,
             percent := if c.status == Success then 100 else m.percent,
             errorCode := c.errorCode, errorMessage := c.errorMessage, completedAt := Some(now),
             owner := "", leaseExpiresAt := None, updatedAt := now)];
      }
      ProjectDeployComplete(id, c.status, c.errorMessage, now);
      r := Ok(());
    }

    /** A handler's report, written to both tables whoever holds the lease. */
    method UpdateDatabaseOperation(id: Id, report: Report, now: Time) returns (r: Result<()>)
      modifies this`operations, this`databaseOperations
      ensures State() == ReportApplied(old(State()), id, report, now)
      ensures r.Ok? <==> 0 <= report.percent <= 100 && id in old(databaseOperations)
    {
      if report.percent < 0 || report.percent > 100 { return Rejected; }
      if id !in databaseOperations { return NoRows; }
      var terminal := report.status == Success || report.status == Failed || report.status == Cancelled;
      var m := databaseOperations[id];
      databaseOperations := databaseOperations[id :=
        m.(status := report.status, step := report.step, percent := report.percent,
           errorCode := report.errorCode, errorMessage := report.errorMessage,
           startedAt := if m.startedAt.None? && report.status == Running then Some(now) else m.startedAt,
           completedAt := if terminal then Some(now) else m.completedAt,
           owner := if terminal then "" else m.owner,
           leaseExpiresAt := if terminal then None else m.leaseExpiresAt, updatedAt := now)];
      if id in operations {
        var o := operations[id];
        operations := operations[id :=
          o.(status := report.status, step := report.step, percent := report.percent,
             errorCode := report.errorCode, errorMessage := report.errorMessage,
             startedAt := if o.startedAt.None? && report.status == Running then Some(now) else o.startedAt,
             completedAt := if terminal then Some(now) else o.completedAt,
             owner := if terminal then "" else o.owner,
             leaseExpiresAt := if terminal then None else o.leaseExpiresAt, updatedAt := now)];
      }
      r := Ok(());
    }

    // ----- instances and jobs ---------------------------------------------

    method UpdateDatabaseInstanceState(instance: string, clearContainer: bool, container: string,
        desired: Option<DesiredState>,
                                       status: Option<InstanceStatus>, now: Time)
      returns (r: Result<()>)
      modifies this`databaseInstances
      ensures State() == InstanceWritten(old(State()), instance,
          StateChange(clearContainer, container, desired, status), now)
      ensures r == if instance in old(databaseInstances) then Ok(()) else NoRows
    {
      if instance !in databaseInstances { return NoRows; }
      var current := databaseInstances[instance];
      if clearContainer {
        current := current.(containerId := "");
      } else if container != "" {
        current := current.(containerId := container);
      }
      if desired.Some? { current := current.(desired := desired.value); }
      if status.Some? { current := current.(status := status.value); }
      databaseInstances := databaseInstances[instance := current.(updatedAt := now)];
      r := Ok(());
    }

    method CommitDatabaseInstanceUpgrade(instance: string, previousImage: string, targetImage: string,
        container: string, now: Time)
      returns (r: Result<()>)
      modifies this`databaseInstances
      ensures State() == InstanceWritten(old(State()), instance, UpgradeCommit(previousImage, targetImage, container),
          now)
      ensures r.Ok? <==> ChangeApplies(old(databaseInstances), instance,
          UpgradeCommit(previousImage, targetImage, container))
    {
      if instance !in databaseInstances || databaseInstances[instance].imageRef != previousImage
         || databaseInstances[instance].deletedAt.Some? { return Rejected; }
      databaseInstances := databaseInstances[instance :=
        databaseInstances[instance].(imageRef := targetImage, containerId := container, desired := DesiredRunning,
            status := Healthy, updatedAt := now)];
      r := Ok(());
    }

    method MarkDatabaseBackupRunning(id: Id, now: Time) returns (r: Result<()>)
      modifies this`databaseBackups
      ensures State() == JobWritten(old(State()), BackupStarted(id), now)
      ensures r.Ok? <==> JobWriteApplies(old(State()), BackupStarted(id))
    {
      if id !in databaseBackups || databaseBackups[id].status != JobQueued { return NoRows; }
      databaseBackups := databaseBackups[id := databaseBackups[id].(status := JobRunning, updatedAt := now)];
      r := Ok(());
    }

    method CompleteDatabaseBackup(id: Id, status: JobStatus, now: Time) returns (r: Result<()>)
      modifies this`databaseBackups
      ensures State() == JobWritten(old(State()), BackupCompleted(id, status), now)
      ensures r.Ok? <==> JobWriteApplies(old(State()), BackupCompleted(id, status))
    {
      if status != JobSuccess && status != JobFailed && status != JobCancelled { return Rejected; }
      if id !in databaseBackups { return NoRows; }
      databaseBackups := databaseBackups[id := databaseBackups[id].(status := status, updatedAt := now)];
      r := Ok(());
    }

    method MarkDatabaseBackupDeleting(id: Id, now: Time)
      modifies this`databaseBackups
      ensures State() == JobWritten(old(State()), BackupDeleting(id), now)
    {
      if id in databaseBackups
          && (databaseBackups[id].status == JobSuccess || databaseBackups[id].status == JobDeleting) {
        databaseBackups := databaseBackups[id := databaseBackups[id].(status := JobDeleting, updatedAt := now)];
      }
    }

    /** A backup that a restore job refers to is kept by its foreign key. */
    method DeleteDatabaseBackupRecord(id: Id, now: Time) returns (r: Result<()>)
      modifies this`databaseBackups
      ensures State() == JobWritten(old(State()), BackupDeleted(id), now)
      ensures r.Ok? <==> JobWriteApplies(old(State()), BackupDeleted(id))
    {
      if id !in databaseBackups { return NoRows; }
      var status := databaseBackups[id].status;
      if status != JobDeleting && status != JobFailed && status != JobCancelled { return NoRows; }
      if exists k | k in databaseRestoreJobs :: id in databaseRestoreJobs[k].uses { return Rejected; }
      databaseBackups := databaseBackups - {id};
      r := Ok(());
    }

    method UpdateDatabaseRestoreJobStatus(operation: Id, status: JobStatus, now: Time) returns (r: Result<()>)
      modifies this`databaseRestoreJobs
      ensures State() == JobWritten(old(State()), RestoreStatus(operation, status), now)
    {
      if operation !in databaseRestoreJobs { return Ok(()); }
      if status !in {JobQueued, JobRunning, JobSuccess, JobFailed} { return Rejected; }   // CHECK(status IN ...)
      databaseRestoreJobs := databaseRestoreJobs[operation := databaseRestoreJobs[operation].(status := status,
          updatedAt := now)];
      r := Ok(());
    }

    method UpdateDatabaseUpgradeJobStatus(operation: Id, status: JobStatus, now: Time) returns (r: Result<()>)
      modifies this`databaseUpgradeJobs
      ensures State() == JobWritten(old(State()), UpgradeStatus(operation, status), now)
      ensures r.Ok? <==> JobWriteApplies(old(State()), UpgradeStatus(operation, status))
    {
      if status !in {JobRunning, JobSuccess, JobFailed, JobRolledBack} { return Rejected; }
      if operation !in databaseUpgradeJobs { return NoRows; }
      databaseUpgradeJobs := databaseUpgradeJobs[operation := databaseUpgradeJobs[operation].(status := status,
          updatedAt := now)];
      r := Ok(());
    }

    // ----- cancellation ---------------------------------------------------

    method OperationCancellationRequested(id: Id) returns (requested: bool)
      ensures requested <==>
        id in operations && operations[id].status == Running && operations[id].cancelRequestedAt.Some?
    {
      requested := id in operations && operations[id].status == Running && operations[id].cancelRequestedAt.Some?;
    }

    /** Reports whether anything changed. */
    method RequestOperationCancellation(id: Id, now: Time) returns (changed: bool)
      modifies this`operations, this`databaseOperations, this`deployments, this`platformEvents
      ensures State() == CancelRequested(old(State()), id, now)
      ensures changed <==> (
        && id in old(operations)
        && (|| old(operations)[id].status == Queued
            || (old(operations)[id].status == Running && old(operations)[id].cancelRequestedAt.None?)))
    {
      if id in operations && operations[id].status == Running && operations[id].cancelRequestedAt.None? {
        operations := operations[id := operations[id].(cancelRequestedAt := Some(now), updatedAt := now)];
        return true;
      }
      if id !in operations || operations[id].status != Queued { return false; }
      operations := operations[id :=
        operations[id].(status := Cancelled, step := StepCancelled, percent := 0,
                        completedAt := Some(now), cancelRequestedAt := Some(now), updatedAt := now)];
      if id in databaseOperations {
        databaseOperations := databaseOperations[id :=
          databaseOperations[id].(status := Cancelled, step := StepCancelled, percent := 0,
                                  completedAt := Some(now), owner := "", leaseExpiresAt := None, updatedAt := now)];
      }
      ProjectDeployComplete(id, Cancelled, Blank, now);
      changed := true;
    }

    method RequestServiceOperationCancellation(service: string, now: Time) returns (marked: nat)
      modifies this`operations
      ensures State() == ServiceCancelRequested(old(State()), service, now)
      ensures marked == |Unmarked(old(operations), service)|
    {
      ghost var before := operations;
      var where := (id: Id, o: Operation) => o.serviceId == service && o.status == Running && o.cancelRequestedAt.None?;
      operations, marked := Sql.Update(operations, where,
          (o: Operation) => o.(cancelRequestedAt := Some(now), updatedAt := now));
      assert operations == MarkedForCancel(before, service, now);
      assert Sql.Matching(before, where) == Unmarked(before, service);
    }

    // ----- recovery -------------------------------------------------------

    /** INSERT INTO platform_events ... SELECT: one interruption per deployment, in any order. */
    method RecordInterruptions(ids: set<Id>, now: Time) returns (ghost order: seq<Id>)
      modifies this`platformEvents
      ensures Lists(order, ids) && platformEvents == old(platformEvents) + Interruptions(order, now)
    {
      order := [];
      var todo := ids;
      while todo != {}
        invariant todo <= ids && Lists(order, ids - todo)
        invariant platformEvents == old(platformEvents) + Interruptions(order, now)
      {
        var id :| id in todo;
        RecordDeploymentStatusEvent(id, DeployFailed, Interrupted, now);
        ghost var longer := order + [id];
        assert longer[..|longer| - 1] == order;
        order, todo := longer, todo - {id};
      }
    }

    static method FailDeploymentRows(t: map<Id, Deployment>, ids: set<Id>, now: Time)
      returns (t': map<Id, Deployment>, affected: nat)
      requires ids <= t.Keys
      ensures t' == InterruptDeployments(t, ids, now) && affected == |ids|
    {
      var where := (id: Id, d: Deployment) => id in ids;
      t', affected := Sql.Update(t, where,
          (d: Deployment) => d.(status := DeployFailed, errorMessage := Interrupted, updatedAt := now));
      assert Sql.Matching(t, where) == ids;
    }

    /** The events first, then the UPDATE of the same rows. */
    method InterruptAll(ids: set<Id>, now: Time) returns (count: nat, ghost order: seq<Id>)
      requires ids <= deployments.Keys
      modifies this`deployments, this`platformEvents
      ensures Lists(order, ids) && count == |ids|
      ensures platformEvents == old(platformEvents) + Interruptions(order, now)
      ensures deployments == InterruptDeployments(old(deployments), ids, now)
    {
      hide Lists, Interruptions, InterruptDeployments;
      order := RecordInterruptions(ids, now);
      deployments, count := FailDeploymentRows(deployments, ids, now);
    }

    static method FailCompanionRows(t: map<Id, Companion>, ids: set<Id>, now: Time) returns (t': map<Id, Companion>)
      ensures t' == FailCompanions(t, ids, now)
    {
      var n;
      t', n := Sql.Update(t, (k: Id, c: Companion) => c.status in {JobQueued, JobRunning} && BelongsTo(c, ids),
                          (c: Companion) => c.(status := JobFailed, updatedAt := now));
    }

    static method RequeueCompanionRows(t: map<Id, Companion>, ids: set<Id>, now: Time) returns (t': map<Id, Companion>)
      ensures t' == RequeueCompanions(t, ids, now)
    {
      var n;
      t', n := Sql.Update(t, (k: Id, c: Companion) => c.status == JobRunning && BelongsTo(c, ids),
                          (c: Companion) => c.(status := JobQueued, updatedAt := now));
    }

    static method FailMirrorRows(t: map<Id, DatabaseOperation>, ids: set<Id>, now: Time)
      returns (t': map<Id, DatabaseOperation>)
      ensures t' == FailMirrors(t, ids, now)
    {
      var n;
      t', n := Sql.Update(t, (id: Id, m: DatabaseOperation) => id in ids,
                          (m: DatabaseOperation) => m.(status := Failed, step := StepInterrupted,
                              errorCode := Interrupted,
                                                       errorMessage := RetryLimitExceeded, completedAt := Some(now),
                                                       owner := "", leaseExpiresAt := None, updatedAt := now));
    }

    static method RequeueMirrorRows(t: map<Id, DatabaseOperation>, ids: set<Id>, now: Time)
      returns (t': map<Id, DatabaseOperation>)
      ensures t' == RequeueMirrors(t, ids, now)
    {
      var n;
      t', n := Sql.Update(t, (id: Id, m: DatabaseOperation) => id in ids,
                          (m: DatabaseOperation) => m.(status := Queued, step := StepRecovery, percent := 0,
                                                       owner := "", leaseExpiresAt := None, updatedAt := now));
    }

    static method FailOperationRows(t: map<Id, Operation>, now: Time) returns (t': map<Id, Operation>, affected: nat)
      ensures t' == FailOps(t, now) && affected == |Exhausted(t)|
    {
      var where := (id: Id, o: Operation) => o.status == Running && o.attempt >= o.maxAttempts;
      t', affected := Sql.Update(t, where,
                                 (o: Operation) => o.(status := Failed, step := StepInterrupted,
                                     errorCode := Interrupted,
                                                      errorMessage := RetryLimitExceeded, completedAt := Some(now),
                                                      owner := "", leaseExpiresAt := None, updatedAt := now));
      assert Sql.Matching(t, where) == Exhausted(t);
    }

    static method RequeueOperationRows(t: map<Id, Operation>, now: Time) returns (t': map<Id, Operation>, affected: nat)
      ensures t' == RequeueOps(t, now) && affected == |RunningIds(t)|
    {
      var where := (id: Id, o: Operation) => o.status == Running;
      t', affected := Sql.Update(t, where,
                                 (o: Operation) => o.(status := Queued, step := StepRecovery, percent := 0,
                                     availableAt := None,
                                                      owner := "", leaseExpiresAt := None, updatedAt := now));
      assert Sql.Matching(t, where) == RunningIds(t);
    }

    /** Before the operations are failed: their still open deployments, each with its event. `s` is the
        state recovery started from. */
    method ProjectExhaustedDeploys(ghost s: Db, now: Time) returns (ghost order: seq<Id>)
      requires operations == s.ops && deployments == s.deployments
      modifies this`deployments, this`platformEvents
      ensures Lists(order, ExhaustedDeploys(s))
      ensures deployments == InterruptDeployments(s.deployments, ExhaustedDeploys(s), now)
      ensures platformEvents == old(platformEvents) + Interruptions(order, now)
    {
      var open := set id | id in deployments && deployments[id].status in {DeployQueued, DeployBuilding}
          && id in Exhausted(operations);
      assert open == ExhaustedDeploys(s);
      var count;
      count, order := InterruptAll(open, now);
    }

    method FailExhausted(now: Time) returns (failed: nat, ghost order: seq<Id>)
      modifies this
      ensures Lists(order, ExhaustedDeploys(old(State()))) && State() == FailPhase(old(State()), now, order)
      ensures failed == |Exhausted(old(operations))|
    {
      ghost var s := State();
      databaseBackups := FailCompanionRows(databaseBackups, Exhausted(operations), now);
      databaseRestoreJobs := FailCompanionRows(databaseRestoreJobs, Exhausted(operations), now);
      databaseUpgradeJobs := FailCompanionRows(databaseUpgradeJobs, Exhausted(operations), now);
      databaseOperations := FailMirrorRows(databaseOperations, Exhausted(operations), now);
      order := ProjectExhaustedDeploys(s, now);
      operations, failed := FailOperationRows(operations, now);
    }

    method RequeueAbandoned(now: Time) returns (requeued: nat)
      modifies this`operations, this`databaseOperations, this`databaseBackups, this`databaseRestoreJobs,
          this`databaseUpgradeJobs
      ensures State() == RequeuePhase(old(State()), now) && requeued == |RunningIds(old(operations))|
    {
      databaseBackups := RequeueCompanionRows(databaseBackups, RunningIds(operations), now);
      databaseRestoreJobs := RequeueCompanionRows(databaseRestoreJobs, RunningIds(operations), now);
      databaseUpgradeJobs := RequeueCompanionRows(databaseUpgradeJobs, RunningIds(operations), now);
      databaseOperations := RequeueMirrorRows(databaseOperations, RunningIds(operations), now);
      operations, requeued := RequeueOperationRows(operations, now);
    }

    method SweepOrphanedDeployments(now: Time) returns (swept: nat, ghost order: seq<Id>)
      modifies this`deployments, this`platformEvents
      ensures Lists(order, OrphanDeploys(old(State()))) && State() == SweepPhase(old(State()), now, order)
      ensures swept == |OrphanDeploys(old(State()))|
    {
      var live := set id | id in operations && operations[id].status in {Queued, Running};
      var open := set id | id in deployments && deployments[id].status in {DeployQueued, DeployBuilding} && id !in live;
      assert open == OrphanDeploys(old(State()));
      swept, order := InterruptAll(open, now);
    }

    /** Called once, before any worker starts. Reports how many operations it requeued, and how many
        operations and orphaned deployments it failed. */
    method RecoverOperations(now: Time)
      returns (requeued: nat, failed: nat, ghost exhausted: seq<Id>, ghost orphans: seq<Id>)
      modifies this
      ensures Next(old(State()), StateMachine.Recover(now, exhausted, orphans), State())
      ensures requeued == RequeuedCount(old(State())) && failed == FailedCount(old(State()))
    {
      ghost var s := State();
      failed, exhausted := FailExhausted(now);
      requeued := RequeueAbandoned(now);
      CompanionPhases(s.ops, s.backups, now);
      SweptAreOrphans(s, now, exhausted);
      var swept;
      swept, orphans := SweepOrphanedDeployments(now);
      failed := failed + swept;
      PhasesCompose(s, now, exhausted, orphans);
    }

    // ----- deletion -------------------------------------------------------

    static method CancelMirrorRows(t: map<Id, DatabaseOperation>, service: string, now: Time)
      returns (t': map<Id, DatabaseOperation>)
      ensures t' == MirrorsCancelledByDelete(t, service, now)
    {
      var n;
      t', n := Sql.Update(t, (id: Id, m: DatabaseOperation) => m.serviceId == service && m.status == Queued,
                          (m: DatabaseOperation) => m.(status := Cancelled, step := StepCancelledByDelete,
                              completedAt := Some(now),
                                                       owner := "", leaseExpiresAt := None, updatedAt := now));
    }

    static method CancelOperationRows(t: map<Id, Operation>, service: string, now: Time)
      returns (t': map<Id, Operation>)
      ensures t' == CancelledByDelete(t, service, now)
    {
      var n;
      t', n := Sql.Update(t, (id: Id, o: Operation) => o.serviceId == service && o.status == Queued,
                          (o: Operation) => o.(status := Cancelled, step := StepCancelledByDelete,
                              completedAt := Some(now),
                                               owner := "", leaseExpiresAt := None, updatedAt := now));
    }

    static method DeleteInstanceRows(t: map<string, Instance>, service: string, now: Time)
      returns (t': map<string, Instance>, affected: nat)
      ensures t' == Deleting(t, service, now) && (affected == 0 <==> !Undeleted(t, service))
    {
      var where := (i: string, row: Instance) => row.serviceId == service && row.deletedAt.None?;
      t', affected := Sql.Update(t, where,
          (row: Instance) => row.(desired := DesiredDeleted, status := Stopping, updatedAt := now));
      NoRowsMeansNone(t, service);
      assert Sql.Matching(t, where) == UndeletedOf(t, service);
    }

    /** Atomically refuses new work and cancels queued operations, or asks running ones to stop and fails. */
    method BeginDatabaseServiceDeletion(service: string, now: Time) returns (r: Result<()>)
      modifies this`operations, this`databaseOperations, this`databaseInstances
      ensures State() == DeletionBegun(old(State()), service, now)
      ensures r.Ok? <==>
        Undeleted(old(databaseInstances), service) && OpsOfService(old(operations), service, Running) == {}
      ensures r.Ok? ==> forall i | i in databaseInstances && databaseInstances[i].serviceId == service ::
        databaseInstances[i].deletedAt.Some? || databaseInstances[i].desired == DesiredDeleted
    {
      UndeletedIsKnown(databaseInstances, service);
      hide ServiceKnown, Undeleted, CancelledByDelete, MirrorsCancelledByDelete;
      if !ServiceKnown(databaseInstances, service) { return NoRows; }
      var running := OpsOfService(operations, service, Running);
      if running != {} {
        var marked := RequestServiceOperationCancellation(service, now);
        return Rejected;
      }
      var operationsBefore, mirrorsBefore, instancesBefore := operations, databaseOperations, databaseInstances;
      databaseOperations := CancelMirrorRows(databaseOperations, service, now);
      operations := CancelOperationRows(operations, service, now);
      var n;
      databaseInstances, n := DeleteInstanceRows(databaseInstances, service, now);
      if n == 0 {
        // rollback
        operations, databaseOperations, databaseInstances := operationsBefore, mirrorsBefore, instancesBefore;
        return NoRows;
      }
      r := Ok(());
    }

    method FinalizeDatabaseServiceDeletion(audit: Id, service: string, retention: int, now: Time)
      returns (r: Result<()>)
      modifies this`operations, this`databaseOperations, this`databaseInstances
      ensures State() == DeletionFinalized(old(State()), audit, service, retention, now)
      ensures r.Ok? <==> FinalizeAllowed(old(State()), audit, service, retention)
    {
      if retention <= 0 { return Rejected; }
      if OpsOfService(operations, service, Queued) != {} || OpsOfService(operations, service, Running) != {} {
        return Rejected;
      }
      var instancesBefore := databaseInstances;
      var where := (i: string, row: Instance) => row.serviceId == service && row.deletedAt.None?
          && row.desired == DesiredDeleted;
      var n;
      databaseInstances, n := Sql.Update(databaseInstances, where,
        (row: Instance) => row.(containerId := "", desired := DesiredDeleted, status := Deleted,
                                deletedAt := Some(now), purgeAfter := Some(now + retention), updatedAt := now));
      assert databaseInstances == Retained(instancesBefore, service, retention, now);
      NoneAwaiting(instancesBefore, service);
      assert Sql.Matching(instancesBefore, where) == AwaitingOf(instancesBefore, service);
      if n == 0 || audit in databaseOperations || audit in operations {
        databaseInstances := instancesBefore;   // rollback
        return NoRows;
      }
      InsertPair(audit, DatabaseOperation(service, None, DeleteType, Success, StepVolumeRetained, 100, Blank, Blank,
          0, "", None,
                                          Some(now), Some(now), now, now));
      r := Ok(());
    }

    /** One instance of the service: back to provisioning if its retention has not run out, with an operation to do it.
        */
    method ReopenInstance(service: string, item: Item, now: Time) returns (ok: bool)
      requires item.instance in databaseInstances
      modifies this`operations, this`databaseOperations, this`databaseInstances
      ensures ok <==>
        WithinRetention(old(databaseInstances[item.instance]), now) && PairInsertable(old(State()), item.operation)
      ensures ok ==>
        var row := ReopenedRow(old(databaseInstances[item.instance]), now);
        databaseInstances == old(databaseInstances)[item.instance := row]
      ensures ok ==>
        var m := QueuedMirror(service, item.instance, RestoreDeletedType, StepVolumeReserved, now);
        databaseOperations == old(databaseOperations)[item.operation := m]
        && operations == old(operations)[item.operation := QueueRow(m)]
    {
      var row := databaseInstances[item.instance];
      if row.deletedAt.None? || row.purgeAfter.None? || row.purgeAfter.value <= now { return false; }
      if item.operation in databaseOperations || item.operation in operations { return false; }
      databaseInstances := databaseInstances[item.instance :=
        row.(desired := DesiredRunning, status := Provisioning, deletedAt := None, purgeAfter := None,
            updatedAt := now)];
      InsertPair(item.operation, QueuedMirror(service, item.instance, RestoreDeletedType, StepVolumeReserved, now));
      ok := true;
    }

    /** `items` lists the service's instances with the operation id each will get. */
    method RestoreDeletedDatabaseService(service: string, items: seq<Item>, now: Time) returns (r: Result<()>)
      requires ListsInstances(State(), service, items)
      modifies this`operations, this`databaseOperations, this`databaseInstances
      ensures State() == ServiceRestored(old(State()), service, items, now)
      ensures r.Ok? <==> RestoreDeletedAllowed(old(State()), items, now)
    {
      hide QueuedMirror, QueueRow, ReopenedRow, WithinRetention, PairsQueued, ServiceRestored, RestoreDeletedAllowed;
      RestoreRefused(State(), service, items, now);
      NoPairs(State(), service, RestoreDeletedType, StepVolumeReserved, now);
      RefusedWhenEmpty(State(), now);
      if items == [] { return NoRows; }
      ghost var s := State();
      var operationsBefore, mirrorsBefore, instancesBefore := operations, databaseOperations, databaseInstances;
      for k := 0 to |items|
        invariant forall j | 0 <= j < k ::
          WithinRetention(s.instances[items[j].instance], now) && PairInsertable(s, items[j].operation)
        invariant databaseInstances == ReopenedFirst(s.instances, items[..k], now)
        invariant operations == PairsQueued(s, service, items[..k], RestoreDeletedType, StepVolumeReserved, now).ops
        invariant databaseOperations
            == PairsQueued(s, service, items[..k], RestoreDeletedType, StepVolumeReserved, now).mirrors
      {
        PairsNext(s, service, items, k, RestoreDeletedType, StepVolumeReserved, now);
        PairsInsertable(s, service, items[..k], RestoreDeletedType, StepVolumeReserved, now, items[k].operation);
        ReopenedNext(s.instances, items, k, now);
        var ok := ReopenInstance(service, items[k], now);
        if !ok {
          // rollback
          operations, databaseOperations, databaseInstances := operationsBefore, mirrorsBefore, instancesBefore;
          RefusedAt(s, items, now, k);
          return Rejected;
        }
      }
      assert items[..|items|] == items;
      AllReopenable(s, items, now);
      RestoredFields(s, service, items, now);
      r := Ok(());
    }

    static method AllPurgeDue(rows: map<string, Instance>, service: string, at: Time) returns (due: bool)
      ensures due <==> forall i | i in rows && rows[i].serviceId == service :: PurgeDue(rows[i], at)
    {
      var todo := rows.Keys;
      while todo != {}
        invariant todo <= rows.Keys
        invariant forall i | i in rows && i !in todo && rows[i].serviceId == service :: PurgeDue(rows[i], at)
      {
        var i :| i in todo;
        if rows[i].serviceId == service
            && (rows[i].deletedAt.None? || rows[i].purgeAfter.None? || rows[i].purgeAfter.value > at) {
          return false;
        }
        todo := todo - {i};
      }
      due := true;
    }

    static method DetachRows(t: map<Id, Companion>, gone: set<Id>, instances: set<string>)
      returns (t': map<Id, Companion>)
      ensures t' == Detached(t, gone, instances)
    {
      var n;
      t', n := Sql.Update(t, (k: Id, c: Companion) => BelongsTo(c, gone), (c: Companion) => c.(operationId := None));
      ghost var half := t';
      t', n := Sql.Update(t', (k: Id, c: Companion) => c.instanceId in instances,
          (c: Companion) => c.(instanceId := ""));
      assert t' == Detached(t, gone, instances);
    }

    static method CascadeRows(t: map<Id, Companion>, gone: set<Id>, instances: set<string>)
      returns (t': map<Id, Companion>)
      ensures t' == Cascaded(t, gone, instances)
    {
      var hit := set k | k in t && (BelongsTo(t[k], gone) || t[k].instanceId in instances);
      t' := t - hit;
    }

    /** DELETE FROM services: the foreign keys carry it to the rows that refer to the service. */
    method DeleteServiceRecords(service: string)
      modifies this
      ensures State() == ServiceDeleted(old(State()), service)
    {
      hide Detached, Cascaded;
      var instances := set i | i in databaseInstances && databaseInstances[i].serviceId == service;
      var gone := set id | id in databaseOperations && Refers(databaseOperations[id], service, instances);
      assert instances == InstancesOf(databaseInstances, service)
          && gone == MirrorsOf(databaseOperations, service, instances);
      databaseBackups := DetachRows(databaseBackups, gone, instances);
      databaseRestoreJobs := CascadeRows(databaseRestoreJobs, gone, instances);
      databaseUpgradeJobs := CascadeRows(databaseUpgradeJobs, gone, instances);
      databaseOperations := databaseOperations - gone;
      databaseInstances := databaseInstances - instances;
    }

    method PurgeDatabaseServiceRecords(service: string, at: Time) returns (r: Result<()>)
      modifies this
      ensures State() == ServicePurged(old(State()), service, at)
      ensures r.Ok? <==> PurgeAllowed(old(State()), service, at)
    {
      if !ServiceKnown(databaseInstances, service) { return NoRows; }
      var due := AllPurgeDue(databaseInstances, service, at);
      if !due { return Rejected; }
      DeleteServiceRecords(service);
      r := Ok(());
    }
  }

  // ----- facts the methods use --------------------------------------------

  function UndeletedOf(instances: map<string, Instance>, service: string): set<string> {
    set i | i in instances && instances[i].serviceId == service && instances[i].deletedAt.None?
  }

  lemma NoRowsMeansNone(instances: map<string, Instance>, service: string)
    ensures |UndeletedOf(instances, service)| == 0 <==> !Undeleted(instances, service)
  {
    if Undeleted(instances, service) {
      var i :| i in instances && instances[i].serviceId == service && instances[i].deletedAt.None?;
      assert i in UndeletedOf(instances, service);
    } else {
      assert UndeletedOf(instances, service) == {};
    }
  }

  function AwaitingOf(instances: map<string, Instance>, service: string): set<string> {
    set i | i in instances && AwaitingFinalize(instances[i], service)
  }

  lemma NoneAwaiting(instances: map<string, Instance>, service: string)
    ensures |AwaitingOf(instances, service)| == 0 <==> !exists i | i in instances ::
      AwaitingFinalize(instances[i], service)
  {
    if i :| i in instances && AwaitingFinalize(instances[i], service) {
      assert i in AwaitingOf(instances, service);
    } else {
      assert AwaitingOf(instances, service) == {};
    }
  }

  ghost function ReopenedFirst(instances: map<string, Instance>, items: seq<Item>, now: Time): map<string, Instance> {
    map i | i in instances ::
      if exists k | 0 <= k < |items| :: items[k].instance == i then ReopenedRow(instances[i], now) else instances[i]
  }

  lemma ReopenedNext(instances: map<string, Instance>, items: seq<Item>, n: nat, now: Time)
    requires n < |items| && items[n].instance in instances
    requires forall j, k | 0 <= j < k < |items| :: items[j].instance != items[k].instance
    ensures ReopenedFirst(instances, items[..n], now)[items[n].instance] == instances[items[n].instance]
    ensures ReopenedFirst(instances, items[..n + 1], now)
         == ReopenedFirst(instances, items[..n],
             now)[items[n].instance := ReopenedRow(instances[items[n].instance], now)]
  {
    var next := ReopenedFirst(instances, items[..n + 1], now);
    forall i | i in instances
        && i != items[n].instance ensures next[i] == ReopenedFirst(instances, items[..n], now)[i] {
      if k :| 0 <= k < n && items[k].instance == i {
        assert items[..n][k].instance == i && items[..n + 1][k].instance == i;
      }
    }
    assert items[..n + 1][n].instance == items[n].instance;
  }

  lemma ReopenedAll(s: Db, service: string, items: seq<Item>, now: Time)
    requires ListsInstances(s, service, items)
    ensures ReopenedFirst(s.instances, items, now) == Reopened(s.instances, service, now)
  {}

  lemma {:induction false} PairsInsertable(s: Db, service: string, items: seq<Item>, operationType: OperationType,
      step: StepName, now: Time, id: Id)
    requires forall k | 0 <= k < |items| :: items[k].operation != id
    ensures PairInsertable(PairsQueued(s, service, items, operationType, step, now), id) <==> PairInsertable(s, id)
  {
    if items != [] {
      PairsInsertable(s, service, items[..|items| - 1], operationType, step, now, id);
    }
  }

  lemma {:induction false} PairsIgnoreInstances(s: Db, instances: map<string, Instance>, service: string,
      items: seq<Item>,
                                                operationType: OperationType, step: StepName, now: Time)
    ensures PairsQueued(s.(instances := instances), service, items, operationType, step, now)
         == PairsQueued(s, service, items, operationType, step, now).(instances := instances)
    ensures var s' := PairsQueued(s, service, items, operationType, step, now);
      s' == s.(ops := s'.ops, mirrors := s'.mirrors)
  {
    if items != [] {
      PairsIgnoreInstances(s, instances, service, items[..|items| - 1], operationType, step, now);
    }
  }

  lemma PairsNext(s: Db, service: string, items: seq<Item>, k: nat, operationType: OperationType, step: StepName,
      now: Time)
    requires k < |items|
    ensures PairsQueued(s, service, items[..k + 1], operationType, step, now)
         == WithPair(PairsQueued(s, service, items[..k], operationType, step, now), items[k].operation,
                     QueuedMirror(service, items[k].instance, operationType, step, now))
  {
    assert items[..k + 1][..k] == items[..k];
  }

  lemma RefusedAt(s: Db, items: seq<Item>, now: Time, k: nat)
    requires k < |items| && items[k].instance in s.instances
    requires !WithinRetention(s.instances[items[k].instance], now) || !PairInsertable(s, items[k].operation)
    ensures !RestoreDeletedAllowed(s, items, now)
  {}

  lemma RefusedWhenEmpty(s: Db, now: Time)
    ensures !RestoreDeletedAllowed(s, [], now)
  {}

  lemma AllReopenable(s: Db, items: seq<Item>, now: Time)
    requires items != [] && forall k | 0 <= k < |items| :: items[k].instance in s.instances
    requires forall j | 0 <= j < |items| ::
      WithinRetention(s.instances[items[j].instance], now) && PairInsertable(s, items[j].operation)
    ensures RestoreDeletedAllowed(s, items, now)
  {}

  lemma RestoreRefused(s: Db, service: string, items: seq<Item>, now: Time)
    ensures !RestoreDeletedAllowed(s, items, now) ==> ServiceRestored(s, service, items, now) == s
  {}

  lemma NoPairs(s: Db, service: string, operationType: OperationType, step: StepName, now: Time)
    ensures PairsQueued(s, service, [], operationType, step, now) == s
  {}

  lemma RestoredFields(s: Db, service: string, items: seq<Item>, now: Time)
    requires ListsInstances(s, service, items) && RestoreDeletedAllowed(s, items, now)
    ensures var q := PairsQueued(s, service, items, RestoreDeletedType, StepVolumeReserved, now);
      ServiceRestored(s, service, items, now)
        == s.(ops := q.ops, mirrors := q.mirrors, instances := ReopenedFirst(s.instances, items, now))
  {
    hide QueuedMirror, QueueRow, ReopenedRow, WithinRetention;
    ReopenedAll(s, service, items, now);
    PairsIgnoreInstances(s, Reopened(s.instances, service, now), service, items, RestoreDeletedType,
        StepVolumeReserved, now);
  }

  lemma UndeletedIsKnown(instances: map<string, Instance>, service: string)
    ensures Undeleted(instances, service) ==> ServiceKnown(instances, service)
  {}
}
