/** The steps of the control plane, one per repository transaction, and the runs they make up. */
module StateMachine {
  import opened Tables
  import opened Transitions

  datatype Step =
    | CreateDeployment(id: Id, service: string, now: Time)
    | Enqueue(id: Id, input: NewOperation, now: Time)
    | CreateDatabaseService(service: string, news: seq<NewInstance>, now: Time)
    | QueueInstanceAction(id: Id, instance: string, action: OperationType, now: Time)
    | QueueUpgrade(id: Id, instance: string, version: string, image: string, now: Time)
    | QueueBackup(id: Id, backup: BackupRequest, now: Time)
    | QueueRestore(id: Id, restore: RestoreRequest, now: Time)
    | Claim(options: ClaimOptions, chosen: Option<Id>, now: Time)
    | Renew(id: Id, owner: string, lease: int, now: Time)
    | Defer(id: Id, owner: string, retryAfter: int, now: Time)
    | Complete(id: Id, owner: string, completion: Completion, now: Time)
    | Progress(id: Id, report: Report, now: Time)
    | RequestCancel(id: Id, now: Time)
    | RequestServiceCancel(service: string, now: Time)
    | Recover(now: Time, exhausted: seq<Id>, orphans: seq<Id>)
    | CancelDeployment(id: Id, now: Time)
    | UpdateDeployment(id: Id, status: DeployStatus, message: Note, now: Time)
    | BeginDeletion(service: string, now: Time)
    | FinalizeDeletion(audit: Id, service: string, retention: int, now: Time)
    | RestoreDeleted(service: string, items: seq<Item>, now: Time)
    | Purge(service: string, now: Time)
    | WriteInstance(instance: string, change: InstanceChange, now: Time)
    | WriteJob(write: JobWrite, now: Time)

  /** A deployment that is not terminal may take any status but QUEUED after QUEUED. */
  predicate CanFollow(a: DeployStatus, b: DeployStatus) {
    !a.Terminal() && (a == DeployQueued ==> b != DeployQueued)
  }

  predicate Unused(s: Db, id: Id) { id !in s.ops && id !in s.mirrors && id !in s.deployments }

  /** Containers are recorded only for undeleted instances; a desired state other than deleted is written only by
      the handler of a running operation of the service. */
  predicate ProperChange(ops: map<Id, Operation>, i: Instance, c: InstanceChange) {
    match c
    case StateChange(clear, container, desired, _) =>
      && (!clear && container != "" ==> i.deletedAt.None?)
      && (desired.Some? ==> desired.value != DesiredDeleted && OpsOfService(ops, i.serviceId, Running) != {})
    case UpgradeCommit(_, _, _) => OpsOfService(ops, i.serviceId, Running) != {}
  }

  /** What a call's arguments satisfy in the program: fresh ids are fresh, a deploy operation has
      one attempt, deploys belong to application services, and a handler reports on work that runs. */
  ghost predicate Enabled(s: Db, step: Step) {
    match step
    case CreateDeployment(id, _, _) => Unused(s, id)
    case Enqueue(id, input, _) =>
      && input.status != Running && !ServiceKnown(s.instances, input.serviceId)
      && (id in s.deployments ==> input.maxAttempts == 1)
    case CreateDatabaseService(service, news, _) =>
      && !ServiceKnown(s.instances, service)
      && (forall k | 0 <= k < |news| :: news[k].item.instance !in s.instances && Unused(s, news[k].item.operation))
      && (forall j, k | 0 <= j < k < |news| :: news[j].item.operation != news[k].item.operation)
      && (forall j, k | 0 <= j < k < |news| :: news[j].item.instance != news[k].item.instance)
    case QueueInstanceAction(id, _, _, _) => id !in s.deployments
    case QueueUpgrade(id, _, _, _, _) => id !in s.deployments
    case QueueBackup(id, _, _) => id !in s.deployments
    case QueueRestore(id, _, _) => id !in s.deployments
    case Claim(options, chosen, now) =>
      (match chosen
       case None => !options.Valid() || forall id | id in s.ops :: !Runnable(s.ops, id, options, now)
       case Some(id) => options.Valid() && IsNext(s.ops, id, options, now))
    case Progress(id, report, _) =>
      && (report.status == Running || report.status.Terminal())
      && (id in s.mirrors ==> id in s.ops && s.ops[id].status == Running)
    case Recover(_, exhausted, orphans) =>
      Lists(exhausted, ExhaustedDeploys(s)) && Lists(orphans, OrphanDeploys(s))
    case UpdateDeployment(id, status, _, _) =>
      id in s.deployments && s.deployments[id].status != DeployCancelled ==>
        && CanFollow(s.deployments[id].status, status)
        && (status == DeployBuilding ==> id in s.ops && s.ops[id].status == Running)
    case FinalizeDeletion(audit, _, _, _) => audit !in s.deployments
    case RestoreDeleted(service, items, _) =>
      ListsInstances(s, service, items) && forall k | 0 <= k < |items| :: items[k].operation !in s.deployments
    case WriteInstance(instance, change, _) => instance in s.instances ==>
      ProperChange(s.ops, s.instances[instance], change)
    case _ => true
  }

  ghost function Effect(s: Db, step: Step): Db
    requires Enabled(s, step)
  {
    match step
    case CreateDeployment(id, service, now) => DeploymentCreated(s, id, service, now)
    case Enqueue(id, input, now) => Enqueued(s, id, input, now)
    case CreateDatabaseService(service, news, now) => ServiceCreated(s, service, news, now)
    case QueueInstanceAction(id, instance, action, now) => InstanceActionQueued(s, id, instance, action, now)
    case QueueUpgrade(id, instance, version, image, now) => UpgradeQueued(s, id, instance, version, image, now)
    case QueueBackup(id, backup, now) => BackupQueued(s, id, backup, now)
    case QueueRestore(id, restore, now) => RestoreQueued(s, id, restore, now)
    case Claim(options, chosen, now) => if chosen.None? then s else Claimed(s, chosen.value, options, now)
    case Renew(id, owner, lease, now) => Renewed(s, id, owner, lease, now)
    case Defer(id, owner, retryAfter, now) => Deferred(s, id, owner, retryAfter, now)
    case Complete(id, owner, completion, now) => Completed(s, id, owner, completion, now)
    case Progress(id, report, now) => ReportApplied(s, id, report, now)
    case RequestCancel(id, now) => CancelRequested(s, id, now)
    case RequestServiceCancel(service, now) => ServiceCancelRequested(s, service, now)
    case Recover(now, exhausted, orphans) => Recovered(s, now, exhausted, orphans)
    case CancelDeployment(id, now) => DeploymentCancelled(s, id, now)
    case UpdateDeployment(id, status, message, now) => DeploymentUpdated(s, id, status, message, now)
    case BeginDeletion(service, now) => DeletionBegun(s, service, now)
    case FinalizeDeletion(audit, service, retention, now) => DeletionFinalized(s, audit, service, retention, now)
    case RestoreDeleted(service, items, now) => ServiceRestored(s, service, items, now)
    case Purge(service, now) => ServicePurged(s, service, now)
    case WriteInstance(instance, change, now) => InstanceWritten(s, instance, change, now)
    case WriteJob(write, now) => JobWritten(s, write, now)
  }

  predicate IsWrite(step: Step) { step.WriteInstance? || step.WriteJob? }

  lemma JobWritesLeaveRest(s: Db, w: JobWrite, now: Time)
    ensures var s' := JobWritten(s, w, now);
      s'.ops == s.ops && s'.mirrors == s.mirrors && s'.deployments == s.deployments && s'.events == s.events
          && s'.instances == s.instances
  {
    hide WithStatus, JobWriteApplies;
  }

  /** The instances after an instance write. */
  function WrittenInstances(instances: map<string, Instance>, instance: string, c: InstanceChange,
      now: Time): map<string, Instance> {
    if ChangeApplies(instances, instance, c) then instances[instance := ChangedInstance(instances[instance], c, now)]
        else instances
  }

  /** Instance and job writes touch nothing else. */
  lemma WritesLeaveQueue(s: Db, step: Step)
    requires Enabled(s, step) && IsWrite(step)
    ensures var s' := Effect(s, step);
      s'.ops == s.ops && s'.mirrors == s.mirrors && s'.deployments == s.deployments && s'.events == s.events
    ensures step.WriteJob? ==> Effect(s, step).instances == s.instances
    ensures step.WriteInstance? ==>
      (Effect(s, step).instances == WrittenInstances(s.instances, step.instance, step.change, step.now))
  {
    hide Enabled, JobWritten, ChangedInstance, ChangeApplies;
    if step.WriteJob? { JobWritesLeaveRest(s, step.write, step.now); }
  }

  ghost predicate Next(s: Db, step: Step, s': Db) {
    Enabled(s, step) && s' == Effect(s, step)
  }

  const EMPTY := Db(map[], map[], map[], map[], map[], map[], [], map[])

  /** The states a run goes through and the steps between them. */
  datatype Run = Run(states: seq<Db>, steps: seq<Step>) {
    ghost predicate Valid() {
      && |states| == |steps| + 1
      && states[0] == EMPTY
      && forall k | 0 <= k < |steps| :: Next(states[k], steps[k], states[k + 1])
    }
  }
}
