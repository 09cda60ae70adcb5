/** What a worker's calls leave in the three tables that show one operation: the queue row, its mirror and its
    deployment, said in their columns. */
module Projections {
  import opened Tables
  import opened Transitions
  import opened StateMachine
  import opened Invariants

  /** No row with another id differs, and none of the remaining tables. */
  ghost predicate OnlyRow(s: Db, s': Db, id: Id) {
    && s'.ops.Keys == s.ops.Keys && s'.mirrors.Keys == s.mirrors.Keys && s'.deployments.Keys == s.deployments.Keys
    && (forall other | other in s.ops && other != id :: s'.ops[other] == s.ops[other])
    && (forall other | other in s.mirrors && other != id :: s'.mirrors[other] == s.mirrors[other])
    && (forall other | other in s.deployments && other != id :: s'.deployments[other] == s.deployments[other])
    && s'.backups == s.backups && s'.restores == s.restores && s'.upgrades == s.upgrades && s'.instances == s.instances
  }

  /** The deployment moved from one status to another, with the event that says so. */
  ghost predicate DeploymentMoved(s: Db, s': Db, id: Id, status: DeployStatus, now: Time) {
    && id in s.deployments && id in s'.deployments && s'.deployments[id].status == status
    && exists detail :: s'.events == s.events + [Event(id, status, detail, now)]
  }

  ghost predicate DeploymentStays(s: Db, s': Db) { s'.deployments == s.deployments && s'.events == s.events }

  lemma TouchedRows(s: Db, id: Id, o: Operation, m: Option<DatabaseOperation>, row: Option<Deployment>, detail: Note,
      now: Time)
    requires id in s.ops && (m.Some? ==> id in s.mirrors) && (row.Some? ==> id in s.deployments)
    ensures var s' := Touched(s, id, o, m, row, detail, now);
      && OnlyRow(s, s', id) && s'.ops[id] == o && (m.Some? ==> s'.mirrors[id] == m.value)
      && if row.Some? then DeploymentMoved(s, s', id, row.value.status, now) else DeploymentStays(s, s')
  {
    var s' := Touched(s, id, o, m, row, detail, now);
    if row.Some? { assert s'.events == s.events + [Event(id, row.value.status, detail, now)]; }
  }

  lemma ClaimReachesAllTables(s: Db, id: Id, options: ClaimOptions, now: Time)
    requires Inv(s) && IsNext(s.ops, id, options, now)
    ensures var s' := Claimed(s, id, options, now);
      && OnlyRow(s, s', id)
      && s'.ops[id].status == Running && s'.ops[id].owner == options.owner
      && s'.ops[id].leaseExpiresAt == Some(now + options.lease) && s'.ops[id].attempt == s.ops[id].attempt + 1
      && s'.ops[id].startedAt == (if s.ops[id].startedAt.Some? then s.ops[id].startedAt else Some(now))
      && s'.ops[id].errorCode == s.ops[id].errorCode && s'.ops[id].cancelRequestedAt == s.ops[id].cancelRequestedAt
      && (id in s.mirrors ==> Agree(s'.ops[id], s'.mirrors[id]))
      && (if id in s.deployments && s.deployments[id].status == DeployQueued
          then DeploymentMoved(s, s', id, DeployBuilding, now) else DeploymentStays(s, s'))
  {
    hide OnlyRow, DeploymentMoved, DeploymentStays, Touched, LocksExclusive, DeploymentsOk, TimelinesOk, InstancesOk;
    TouchedRows(s, id, ClaimedRow(s.ops[id], options.owner, now + options.lease, now),
        if id in s.mirrors then Some(ClaimedMirror(s.mirrors[id], options.owner, now + options.lease, now)) else None,
        BuildingDeployment(s.deployments, id, now), Blank, now);
  }

  lemma RenewalExtendsBothLeases(s: Db, id: Id, owner: string, lease: int, now: Time)
    requires Inv(s) && Holds(s, id, owner)
    ensures var s' := Renewed(s, id, owner, lease, now);
      && OnlyRow(s, s', id) && DeploymentStays(s, s')
      && s'.ops[id] == s.ops[id].(leaseExpiresAt := Some(now + lease), updatedAt := now)
      && (id in s.mirrors ==> s'.mirrors[id].leaseExpiresAt == Some(now + lease) && Agree(s'.ops[id], s'.mirrors[id]))
  {
    hide OnlyRow, DeploymentMoved, DeploymentStays, Touched, LocksExclusive, DeploymentsOk, TimelinesOk, InstancesOk;
    TouchedRows(s, id, RenewedRow(s.ops[id], now + lease, now),
        if id in s.mirrors then Some(RenewedMirror(s.mirrors[id], now + lease, now)) else None, None, Blank, now);
  }

  lemma DeferralReachesAllTables(s: Db, id: Id, owner: string, retryAfter: int, now: Time)
    requires Inv(s) && Holds(s, id, owner)
    ensures var s' := Deferred(s, id, owner, retryAfter, now);
      && OnlyRow(s, s', id)
      && s'.ops[id].status == Queued && s'.ops[id].owner == "" && s'.ops[id].attempt == s.ops[id].attempt - 1
      && s'.ops[id].availableAt == Some(if retryAfter > 0 then now + retryAfter else now)
      && (id in s.mirrors ==> Agree(s'.ops[id], s'.mirrors[id]))
      && (if id in s.deployments && s.deployments[id].status == DeployBuilding
          then DeploymentMoved(s, s', id, DeployQueued, now) else DeploymentStays(s, s'))
  {
    hide OnlyRow, DeploymentMoved, DeploymentStays, Touched, LocksExclusive, DeploymentsOk, TimelinesOk, InstancesOk;
    assert RowOk(s.ops[id]);
    TouchedRows(s, id, DeferredRow(s.ops[id], now + Max(retryAfter, 0), now),
        if id in s.mirrors then Some(DeferredMirror(s.mirrors[id], now)) else None,
        RequeuedDeployment(s.deployments, id, now), Blank, now);
  }

  /** The status a completed operation gives its deployment. */
  function DeployStatusOf(status: Status): DeployStatus
    requires status.Terminal()
  {
    match status
    case Success => DeploySuccess
    case Failed => DeployFailed
    case Cancelled => DeployCancelled
  }

  lemma CompletionReachesAllTables(s: Db, id: Id, owner: string, c: Completion, now: Time)
    requires Inv(s) && Holds(s, id, owner) && c.status.Terminal()
    ensures var s' := Completed(s, id, owner, c, now);
      && OnlyRow(s, s', id)
      && s'.ops[id].status == c.status && s'.ops[id].owner == "" && s'.ops[id].completedAt == Some(now)
      && s'.ops[id].errorCode == c.errorCode && s'.ops[id].errorMessage == c.errorMessage
      && s'.ops[id].step == (if c.step == NoStep then s.ops[id].step else c.step)
      && s'.ops[id].percent == (if c.status == Success then 100 else s.ops[id].percent)
      && (id in s.mirrors ==> s'.mirrors[id].status == c.status && Agree(s'.ops[id], s'.mirrors[id]))
      && (if id in s.deployments && s.deployments[id].status in {DeployQueued, DeployBuilding}
          then DeploymentMoved(s, s', id, DeployStatusOf(c.status), now) else DeploymentStays(s, s'))
  {
    hide OnlyRow, DeploymentMoved, DeploymentStays, Touched, LocksExclusive, DeploymentsOk, TimelinesOk, InstancesOk;
    TouchedRows(s, id, CompletedRow(s.ops[id], c, now),
        if id in s.mirrors then Some(CompletedMirror(s.mirrors[id], c, now)) else None,
        FinishedDeployment(s.deployments, id, c.status, c.errorMessage, now), c.errorMessage, now);
  }

  /** A cancelled deploy is stamped; any other keeps the message of its operation. */
  lemma CompletionExplainsDeployment(s: Db, id: Id, owner: string, c: Completion, now: Time)
    requires Holds(s, id, owner) && c.status.Terminal()
    requires id in s.deployments && s.deployments[id].status in {DeployQueued, DeployBuilding}
    ensures var d' := Completed(s, id, owner, c, now).deployments[id];
      && (c.status == Success ==> d'.status == DeploySuccess && d'.errorMessage == c.errorMessage)
      && (c.status == Failed ==> d'.status == DeployFailed && d'.errorMessage == c.errorMessage)
      && (c.status == Cancelled ==> d'.status == DeployCancelled && d'.cancelledAt == Some(now))
      && (c.status != Cancelled ==> d'.cancelledAt == s.deployments[id].cancelledAt)
  {}

  lemma ReportReachesBothTables(s: Db, id: Id, r: Report, now: Time)
    requires Inv(s) && id in s.mirrors && 0 <= r.percent <= 100
    ensures var s' := ReportApplied(s, id, r, now);
      && OnlyRow(s, s', id) && DeploymentStays(s, s')
      && s'.ops[id].status == r.status && s'.ops[id].step == r.step && s'.ops[id].percent == r.percent
      && s'.ops[id].errorCode == r.errorCode && s'.ops[id].errorMessage == r.errorMessage
      && (r.status == Running ==> s'.ops[id].owner == s.ops[id].owner)
      && (r.status == Running && s.ops[id].startedAt.None? ==> s'.ops[id].startedAt == Some(now))
      && (s.ops[id].startedAt.Some? ==> s'.ops[id].startedAt == s.ops[id].startedAt)
      && (r.status.Terminal() ==> s'.ops[id].owner == "" && s'.ops[id].completedAt == Some(now))
      && Agree(s'.ops[id], s'.mirrors[id])
  {
    hide LocksExclusive, DeploymentsOk, TimelinesOk, InstancesOk;
  }

  /** What is queued starts with no attempt spent, at the defaults unless told otherwise. */
  lemma NewWorkDefaults(s: Db, id: Id, input: NewOperation, now: Time)
    requires id !in s.ops && id in Enqueued(s, id, input, now).ops
    ensures var o := Enqueued(s, id, input, now).ops[id];
      && o.status == input.status && o.kind == input.kind && o.lockKey == input.lockKey && o.availableAt.None?
      && o.priority == (if input.priority == 0 then 100 else input.priority)
      && o.maxAttempts == (if input.maxAttempts == 0 then 5 else input.maxAttempts)
      && o.attempt == 0 && o.owner == "" && o.createdAt == now
  {}

  // ----- calls on deployments and instances -------------------------------

  /** Cancelling an open deployment stamps it; a terminal one is left alone. */
  lemma CancelDeploymentColumns(s: Db, id: Id, now: Time)
    ensures var s' := DeploymentCancelled(s, id, now);
      if id in s.deployments && s.deployments[id].status in {DeployQueued, DeployBuilding} then
        && s'.deployments == s.deployments[id := s'.deployments[id]]
        && s'.deployments[id] == s.deployments[id].(status := DeployCancelled, cancelledAt := Some(now),
            updatedAt := now)
        && s'.events == s.events + [Event(id, DeployCancelled, CancelledByOperator, now)]
      else s' == s
  {}

  /** A handler's status and message replace whatever stood there, unless the deployment was cancelled. */
  lemma StatusWriteColumns(s: Db, id: Id, status: DeployStatus, message: Note, now: Time)
    ensures var s' := DeploymentUpdated(s, id, status, message, now);
      if id in s.deployments && s.deployments[id].status != DeployCancelled then
        && s'.deployments == s.deployments[id := s'.deployments[id]]
        && s'.deployments[id] == s.deployments[id].(status := status, errorMessage := message, updatedAt := now)
        && s'.events == s.events + [Event(id, status, message, now)]
      else s' == s
  {}

  /** A container is cleared before one is set, and what is not given stays. */
  lemma StateWriteColumns(s: Db, instance: string, clear: bool, container: string, desired: Option<DesiredState>,
      status: Option<InstanceStatus>, now: Time)
    requires instance in s.instances
    ensures var i := s.instances[instance];
      var s' := InstanceWritten(s, instance, StateChange(clear, container, desired, status), now);
      && s'.instances.Keys == s.instances.Keys
      && (clear ==> s'.instances[instance].containerId == "")
      && (!clear && container != "" ==> s'.instances[instance].containerId == container)
      && (!clear && container == "" ==> s'.instances[instance].containerId == i.containerId)
      && (if desired.Some? then desired == Some(s'.instances[instance].desired)
          else s'.instances[instance].desired == i.desired)
      && (if status.Some? then status == Some(s'.instances[instance].status)
          else s'.instances[instance].status == i.status)
      && s'.instances[instance].imageRef == i.imageRef && s'.instances[instance].deletedAt == i.deletedAt
      && forall other | other in s.instances && other != instance :: s'.instances[other] == s.instances[other]
  {}

  /** The new image and container go in only over the image the upgrade started from. */
  lemma UpgradeCommitColumns(s: Db, instance: string, previous: string, target: string, container: string, now: Time)
    requires instance in s.instances
    ensures var i, s' := s.instances[instance], InstanceWritten(s, instance, UpgradeCommit(previous, target, container),
        now);
      if i.imageRef == previous && i.deletedAt.None? then
        s' == s.(instances := s.instances[instance := i.(imageRef := target, containerId := container,
            desired := DesiredRunning, status := Healthy, updatedAt := now)])
      else s' == s
  {}
}
