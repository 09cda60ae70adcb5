/** What each request for database work needs, said in the columns it looks at, and what it puts on the queue. */
module Requests {
  import opened Tables
  import opened Transitions
  import opened StateMachine
  import opened Invariants
  import Retention

  /** A pair of rows with the program's defaults, locked on the instance. */
  ghost predicate WorkQueued(s': Db, id: Id, service: string, instance: string, operationType: OperationType,
      now: Time) {
    && id in s'.ops && id in s'.mirrors && Agree(s'.ops[id], s'.mirrors[id])
    && s'.ops[id].kind == DatabaseKind(operationType) && s'.ops[id].serviceId == service
    && s'.ops[id].lockKey == (if instance == "" then ServiceLock(service) else InstanceLock(instance))
    && s'.ops[id].status == Queued && s'.ops[id].priority == 100 && s'.ops[id].availableAt.None?
    && s'.ops[id].attempt == 0 && s'.ops[id].maxAttempts == 5 && s'.ops[id].createdAt == now
    && s'.mirrors[id].instanceId == Some(instance)
  }

  lemma PairIsWork(s: Db, id: Id, service: string, instance: string, operationType: OperationType, step: StepName,
      now: Time)
    ensures WorkQueued(WithPair(s, id, QueuedMirror(service, instance, operationType, step, now)), id, service,
        instance, operationType, now)
  {}

  /** Start, stop, restart or a new password, for an undeleted instance with a container. */
  lemma ActionIff(s: Db, id: Id, instance: string, action: OperationType, now: Time)
    requires id !in s.ops && id !in s.mirrors
    ensures var s' := InstanceActionQueued(s, id, instance, action, now);
      && (id in s'.ops <==>
            && action in {StartType, StopType, RestartType, RotateCredentialsType} && instance in s.instances
            && s.instances[instance].deletedAt.None? && s.instances[instance].desired != DesiredDeleted
            && s.instances[instance].containerId != "")
      && (id !in s'.ops ==> s' == s)
      && (id in s'.ops ==> WorkQueued(s', id, s.instances[instance].serviceId, instance, action, now))
      && (id in s'.ops && action == StopType ==>
            s'.instances[instance].desired == DesiredStopped && s'.instances[instance].status == Stopping)
      && (id in s'.ops && action in {StartType, RestartType} ==>
            s'.instances[instance].desired == DesiredRunning && s'.instances[instance].status == Starting)
      && (id in s'.ops && action == RotateCredentialsType ==> s'.instances == s.instances)
      && (forall i | i in s.instances && i != instance :: i in s'.instances && s'.instances[i] == s.instances[i])
  {
    hide WorkQueued, QueueRow, QueuedMirror;
    if InstanceActionAllowed(s, id, instance, action) {
      var i := s.instances[instance];
      PairIsWork(s.(instances := s.instances[instance := InstanceAfterAction(i, action, now)]), id, i.serviceId,
          instance, action, StepQueued, now);
    }
  }

  /** A new image of the same version, for a healthy instance that is to run. */
  lemma UpgradeIff(s: Db, id: Id, instance: string, version: string, image: string, now: Time)
    requires id !in s.ops && id !in s.mirrors
    ensures var s' := UpgradeQueued(s, id, instance, version, image, now);
      && (id in s'.ops <==>
            && instance in s.instances && s.instances[instance].status == Healthy
            && s.instances[instance].deletedAt.None? && s.instances[instance].desired == DesiredRunning
            && s.instances[instance].containerId != "" && id !in s.upgrades
            && version != "" && version == s.instances[instance].engineVersion
            && image != "" && image != s.instances[instance].imageRef)
      && (id !in s'.ops ==> s' == s)
      && (id in s'.ops ==>
            && WorkQueued(s', id, s.instances[instance].serviceId, instance, UpgradeType, now)
            && id in s'.upgrades && s'.upgrades[id].operationId == Some(id) && s'.upgrades[id].status == JobQueued
            && s'.upgrades[id].instanceId == instance)
  {
    hide WorkQueued, QueueRow, QueuedMirror;
    if UpgradeAllowed(s, id, instance, version, image) {
      PairIsWork(s.(upgrades := s.upgrades[id := Companion(Some(id), instance, NoTrigger, JobQueued, {}, now)]), id,
          s.instances[instance].serviceId, instance, UpgradeType, StepQueued, now);
    }
  }

  /** A healthy instance that is to run, a kept time of one day to ten years, and room in the hour. */
  lemma BackupIff(s: Db, id: Id, r: BackupRequest, now: Time)
    requires id !in s.ops && id !in s.mirrors
    ensures var s' := BackupQueued(s, id, r, now);
      && (id in s'.ops <==>
            && r.instance in s.instances && s.instances[r.instance].status == Healthy
            && s.instances[r.instance].deletedAt.None? && s.instances[r.instance].desired == DesiredRunning && r.known
               && r.trigger in {Manual, Scheduled, Safety}
            && 1 <= r.retentionDays <= 3650 && TransferAdmitted(s, now, r.maxPerHour) && r.backupId !in s.backups)
      && (id !in s'.ops ==> s' == s)
      && (id in s'.ops ==>
            && WorkQueued(s', id, s.instances[r.instance].serviceId, r.instance, BackupType, now)
            && s'.backups == s.backups[r.backupId := s'.backups[r.backupId]]
            && s'.backups[r.backupId].operationId == Some(id) && s'.backups[r.backupId].status == JobQueued
            && s'.backups[r.backupId].instanceId == r.instance && s'.backups[r.backupId].trigger == r.trigger)
  {
    hide WorkQueued, QueueRow, QueuedMirror, TransferAdmitted;
    if BackupAllowed(s, id, r, now) {
      PairIsWork(
          s.(backups := s.backups[r.backupId := Companion(Some(id), r.instance, r.trigger, JobQueued, {}, now)]), id,
          s.instances[r.instance].serviceId, r.instance, BackupType, StepQueued, now);
    }
  }

  /** In place, a restore needs a healthy target and that target's safety backup; into a new service, a target on
      its way up. */
  lemma RestoreIff(s: Db, id: Id, r: RestoreRequest, now: Time)
    requires id !in s.ops && id !in s.mirrors
    ensures var s' := RestoreQueued(s, id, r, now);
      && (id in s'.ops <==>
            && r.backupId in s.backups && s.backups[r.backupId].status == JobSuccess && r.readable && r.compatible
            && r.target in s.instances
            && s.instances[r.target].deletedAt.None? && s.instances[r.target].desired == DesiredRunning
            && (r.mode == ReplaceCurrent ==>
                  && s.instances[r.target].status == Healthy && s.instances[r.target].containerId != ""
                  && r.safetyId in s.backups && s.backups[r.safetyId].instanceId == r.target
                  && s.backups[r.safetyId].trigger == Safety)
            && (r.mode == NewService ==> s.instances[r.target].status in {Provisioning, Starting, Healthy})
            && r.mode != OtherMode && TransferAdmitted(s, now, r.maxPerHour) && id !in s.restores)
      && (id !in s'.ops ==> s' == s)
      && (id in s'.ops ==>
            && WorkQueued(s', id, s.instances[r.target].serviceId, r.target, RestoreType, now)
            && id in s'.restores && s'.restores[id].operationId == Some(id) && s'.restores[id].status == JobQueued
            && s'.restores[id].uses == {r.backupId} + if r.mode == ReplaceCurrent then {r.safetyId} else {})
  {
    hide WorkQueued, QueueRow, QueuedMirror, TransferAdmitted;
    if RestoreAllowed(s, id, r, now) {
      PairIsWork(
          s.(restores := s.restores[id := Companion(Some(id), r.target, NoTrigger, JobQueued, UsedBackups(r), now)]),
          id, s.instances[r.target].serviceId, r.target, RestoreType, StepWaitingForTarget, now);
    }
  }

  lemma {:induction false} NewInstanceAt(instances: map<string, Instance>, service: string, news: seq<NewInstance>,
      now: Time, k: nat)
    requires k < |news| && forall i, j | 0 <= i < j < |news| :: news[i].item.instance != news[j].item.instance
    ensures var instances' := WithInstances(instances, service, news, now);
      && news[k].item.instance in instances'
      && instances'[news[k].item.instance] == NewInstanceRow(service, news[k], now)
  {
    if k < |news| - 1 { NewInstanceAt(instances, service, news[..|news| - 1], now, k); }
  }

  /** Each instance of a new service starts without a container, is to run, and has its provisioning queued. */
  lemma ServiceStarts(s: Db, service: string, news: seq<NewInstance>, now: Time, k: nat)
    requires Enabled(s, CreateDatabaseService(service, news, now)) && k < |news|
    ensures var s', n := ServiceCreated(s, service, news, now), news[k];
      && n.item.instance in s'.instances
      && s'.instances[n.item.instance] == Instance(service, DesiredRunning, Provisioning, "", n.imageRef,
          n.engineVersion, None, None, now)
      && WorkQueued(s', n.item.operation, service, n.item.instance, ProvisionType, now)
  {
    hide WithInstances, PairsQueued;
    var s1, items := s.(instances := WithInstances(s.instances, service, news, now)), ItemsOf(news);
    NewInstanceAt(s.instances, service, news, now, k);
    Retention.PairsLeaveInstances(s1, service, items, ProvisionType, StepReserved, now);
    Retention.PairQueuedAt(s1, service, items, ProvisionType, StepReserved, now, k);
  }
}
