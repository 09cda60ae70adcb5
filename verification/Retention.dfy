/** Soft deletion, retention and purge of database services. */
module Retention {
  import opened Tables
  import opened Transitions
  import opened StateMachine
  import opened Invariants
  import opened Runs

  /** `i` carries the same deletion stamps in both states. */
  ghost predicate StampsKept(a: map<string, Instance>, b: map<string, Instance>, i: string) {
    i in a && i in b && b[i].serviceId == a[i].serviceId && b[i].deletedAt == a[i].deletedAt
        && b[i].purgeAfter == a[i].purgeAfter
  }

  ghost predicate StampedBy(step: Step, i: Instance) {
    step.FinalizeDeletion? && step.service == i.serviceId
    && i.deletedAt == Some(step.now) && i.purgeAfter == Some(step.now + step.retention)
  }

  lemma {:induction false} PairsLeaveInstances(s: Db, service: string, items: seq<Item>, operationType: OperationType,
      step: StepName, now: Time)
    ensures PairsQueued(s, service, items, operationType, step, now).instances == s.instances
  {
    if items != [] { PairsLeaveInstances(s, service, items[..|items| - 1], operationType, step, now); }
  }

  lemma {:induction false} NewInstancesUnstamped(instances: map<string, Instance>, service: string,
      news: seq<NewInstance>, now: Time, i: string)
    requires i in WithInstances(instances, service, news, now)
    requires WithInstances(instances, service, news, now)[i].deletedAt.Some?
    ensures i in instances && WithInstances(instances, service, news, now)[i] == instances[i]
  {
    if news != [] && news[|news| - 1].item.instance != i {
      NewInstancesUnstamped(instances, service, news[..|news| - 1], now, i);
    }
  }

  lemma EnqueuesLeaveInstances(s: Db, step: Step)
    requires Enabled(s, step)
    requires step.Enqueue? || step.QueueUpgrade? || step.QueueBackup? || step.QueueRestore?
    ensures Effect(s, step).instances == s.instances
  {}

  lemma DeployStepsLeaveInstances(s: Db, step: Step)
    requires Enabled(s, step)
    requires step.CreateDeployment? || step.CancelDeployment? || step.UpdateDeployment? || step.RequestServiceCancel?
        || step.Recover?
    ensures Effect(s, step).instances == s.instances
  {}

  lemma HolderStepsLeaveInstances(s: Db, step: Step)
    requires Enabled(s, step)
    requires step.Claim? || step.Renew? || step.Defer?
    ensures Effect(s, step).instances == s.instances
  {
    hide IsNext, PutDeployment, PutEvent, PutMirror, ClaimedRow, DeferredRow;
  }

  lemma EndsLeaveInstances(s: Db, step: Step)
    requires Enabled(s, step) && (step.Complete? || step.Progress? || step.RequestCancel?)
    ensures Effect(s, step).instances == s.instances
  {
    hide PutDeployment, PutEvent, PutMirror, CompletedRow, CompletedMirror, CancelledRow, CancelledMirror,
        ReportedRow, ReportedMirror;
  }

  lemma StampsOfActions(s: Db, step: Step, i: string)
    requires Enabled(s, step) && (step.QueueInstanceAction? || step.Purge?)
    requires i in Effect(s, step).instances && Effect(s, step).instances[i].deletedAt.Some?
    ensures StampsKept(s.instances, Effect(s, step).instances, i)
  {
    hide QueuedMirror, QueueRow, PurgeAllowed, MirrorsOf, Detached, Cascaded;
  }

  lemma StampsOfWrites(s: Db, step: Step, i: string)
    requires Enabled(s, step) && IsWrite(step)
    requires i in Effect(s, step).instances && Effect(s, step).instances[i].deletedAt.Some?
    ensures StampsKept(s.instances, Effect(s, step).instances, i)
  {
    hide Enabled, Effect;
    WritesLeaveQueue(s, step);
  }

  lemma StampsOfDeletions(s: Db, step: Step, i: string)
    requires Enabled(s, step) && (step.BeginDeletion? || step.FinalizeDeletion?)
    requires i in Effect(s, step).instances && Effect(s, step).instances[i].deletedAt.Some?
    ensures StampsKept(s.instances, Effect(s, step).instances, i) || StampedBy(step, Effect(s, step).instances[i])
  {
    hide QueueRow, AuditMirror, FinalizeAllowed, CancelledByDelete, MirrorsCancelledByDelete, ServiceKnown,
        OpsOfService, Undeleted;
    if step.BeginDeletion? {
      assert Effect(s, step).instances in {s.instances, Deleting(s.instances, step.service, step.now)};
    } else {
      assert Effect(s, step).instances in {s.instances, Retained(s.instances, step.service, step.retention, step.now)};
    }
  }

  lemma StampsOfListSteps(s: Db, step: Step, i: string)
    requires Enabled(s, step) && (step.CreateDatabaseService? || step.RestoreDeleted?)
    requires i in Effect(s, step).instances && Effect(s, step).instances[i].deletedAt.Some?
    ensures StampsKept(s.instances, Effect(s, step).instances, i)
  {
    match step
    case CreateDatabaseService(service, news, now) =>
      PairsLeaveInstances(s.(instances := WithInstances(s.instances, service, news, now)), service, ItemsOf(news),
          ProvisionType, StepReserved, now);
      NewInstancesUnstamped(s.instances, service, news, now, i);
    case RestoreDeleted(service, items, now) =>
      PairsLeaveInstances(s.(instances := Reopened(s.instances, service, now)), service, items, RestoreDeletedType,
          StepVolumeReserved, now);
  }

  /** A deletion stamp is written only by a finalisation, at its own time and with its own retention. */
  lemma StampsHaveCauses(s: Db, step: Step, i: string)
    requires Enabled(s, step) && i in Effect(s, step).instances && Effect(s, step).instances[i].deletedAt.Some?
    ensures StampsKept(s.instances, Effect(s, step).instances, i) || StampedBy(step, Effect(s, step).instances[i])
  {
    if step.CreateDatabaseService? || step.RestoreDeleted? { StampsOfListSteps(s, step, i); }
    else if IsWrite(step) { StampsOfWrites(s, step, i); }
    else if step.QueueInstanceAction? || step.Purge? { StampsOfActions(s, step, i); }
    else if step.BeginDeletion? || step.FinalizeDeletion? { StampsOfDeletions(s, step, i); }
    else if step.Enqueue? || step.QueueUpgrade? || step.QueueBackup? || step.QueueRestore? {
      EnqueuesLeaveInstances(s, step);
    }
    else if step.Claim? || step.Renew? || step.Defer? { HolderStepsLeaveInstances(s, step); }
    else if step.Complete? || step.Progress? || step.RequestCancel? { EndsLeaveInstances(s, step); }
    else { DeployStepsLeaveInstances(s, step); }
  }

  /** Step `j` finalised the deletion of `i`, and nothing restored or re-finalised it up to state `k`. */
  ghost predicate FinalizedAt(r: Run, j: nat, k: nat, i: string)
    requires k < |r.states|
  {
    && j < k && j < |r.steps| && r.steps[j].FinalizeDeletion?
    && forall m | j < m <= k :: i in r.states[m].instances && StampedBy(r.steps[j], r.states[m].instances[i])
  }

  lemma {:induction false} StampedSince(r: Run, k: nat, i: string) returns (j: nat)
    requires r.Valid() && k < |r.states| && i in r.states[k].instances && r.states[k].instances[i].deletedAt.Some?
    ensures FinalizedAt(r, j, k, i)
  {
    hide Enabled, Effect;
    assert k > 0;
    assert Next(r.states[k - 1], r.steps[k - 1], r.states[k]);
    StampsHaveCauses(r.states[k - 1], r.steps[k - 1], i);
    if StampedBy(r.steps[k - 1], r.states[k].instances[i]) {
      j := k - 1;
    } else {
      j := StampedSince(r, k - 1, i);
    }
  }

  /** A purge at t removes an instance only if it was finalised at some t0 with t0 + retention <= t,
      and stayed deleted with those very stamps until the purge. */
  lemma PurgeRespectsRetention(r: Run, k: nat, i: string) returns (j: nat)
    requires r.Valid() && k < |r.steps| && r.steps[k].Purge?
    requires i in r.states[k].instances && i !in r.states[k + 1].instances
    ensures FinalizedAt(r, j, k, i) && r.steps[j].service == r.steps[k].service
    ensures r.steps[j].now + r.steps[j].retention <= r.steps[k].now
  {
    assert Next(r.states[k], r.steps[k], r.states[k + 1]);
    assert r.states[k + 1] == ServicePurged(r.states[k], r.steps[k].service, r.steps[k].now);
    assert PurgeDue(r.states[k].instances[i], r.steps[k].now);
    j := StampedSince(r, k, i);
  }

  /** Deletion refuses while work runs, and then asks every running operation of the service to stop. */
  lemma BusyDeletionAsksToStop(s: Db, service: string, now: Time, id: Id)
    requires ServiceKnown(s.instances, service)
    requires id in s.ops && s.ops[id].serviceId == service && s.ops[id].status == Running
    ensures var s' := DeletionBegun(s, service, now);
      && s'.instances == s.instances && s'.mirrors == s.mirrors
      && id in s'.ops && s'.ops[id].status == Running && s'.ops[id].cancelRequestedAt.Some?
  {
    assert id in OpsOfService(s.ops, service, Running);
  }

  /** Without running work, and with an instance to delete, deletion closes every undeleted instance and cancels every
      waiting operation of the service, in both tables. Nothing of another service changes. */
  lemma DeletionCloses(s: Db, service: string, now: Time, i: string, id: Id)
    requires MirrorsAgree(s.ops, s.mirrors)
    requires exists a :: a in s.instances && s.instances[a].serviceId == service && s.instances[a].deletedAt.None?
    requires forall o | o in s.ops && s.ops[o].serviceId == service :: s.ops[o].status != Running
    ensures var s' := DeletionBegun(s, service, now);
      && (i in s.instances && s.instances[i].serviceId == service && s.instances[i].deletedAt.None? ==>
            i in s'.instances && s'.instances[i]
              == s.instances[i].(desired := DesiredDeleted, status := Stopping, updatedAt := now))
      && (i in s.instances && s.instances[i].serviceId != service ==>
            i in s'.instances && s'.instances[i] == s.instances[i])
      && (id in s.ops && s.ops[id].serviceId == service && s.ops[id].status == Queued ==>
            && id in s'.ops && s'.ops[id].status == Cancelled && s'.ops[id].completedAt == Some(now)
            && (id in s.mirrors ==> id in s'.mirrors && s'.mirrors[id].status == Cancelled))
      && (id in s.ops && (s.ops[id].serviceId != service || s.ops[id].status != Queued) ==>
            id in s'.ops && s'.ops[id] == s.ops[id])
  {
    var a :| a in s.instances && s.instances[a].serviceId == service && s.instances[a].deletedAt.None?;
    assert ServiceKnown(s.instances, service) && Undeleted(s.instances, service);
    assert OpsOfService(s.ops, service, Running) == {};
    assert DeletionBegun(s, service, now) == s.(ops := CancelledByDelete(s.ops, service, now),
        mirrors := MirrorsCancelledByDelete(s.mirrors, service, now), instances := Deleting(s.instances, service, now));
  }

  /** Finalisation waits until no work is left, and then stamps every instance that awaits it. */
  lemma FinalizeIffIdle(s: Db, audit: Id, service: string, retention: int, now: Time, i: string)
    requires audit !in s.ops && audit !in s.mirrors && retention > 0 && i in s.instances
    ensures var s', a := DeletionFinalized(s, audit, service, retention, now), s.instances[i];
      && (audit in s'.ops <==> Idle(s.ops, service) && exists k ::
            k in s.instances && s.instances[k].serviceId == service && s.instances[k].deletedAt.None?
            && s.instances[k].desired == DesiredDeleted)
      && (audit !in s'.ops ==> s' == s)
      && (audit in s'.ops ==> s'.ops[audit].status == Success && s'.ops[audit].kind == DatabaseKind(DeleteType))
      && i in s'.instances
      && (audit in s'.ops && a.serviceId == service && a.deletedAt.None? && a.desired == DesiredDeleted ==>
            s'.instances[i] == a.(containerId := "", status := Deleted, deletedAt := Some(now),
                purgeAfter := Some(now + retention), updatedAt := now))
      && (a.serviceId != service || a.deletedAt.Some? || a.desired != DesiredDeleted ==> s'.instances[i] == a)
  {
    hide Idle, OpsOfService;
    IdleMeansNoWork(s.ops, service);
  }

  lemma IdleMeansNoWork(ops: map<Id, Operation>, service: string)
    ensures Idle(ops, service)
       <==> OpsOfService(ops, service, Queued) == {} && OpsOfService(ops, service, Running) == {}
  {
    forall id | id in ops && ops[id].serviceId == service && ops[id].status.Live()
      ensures id in OpsOfService(ops, service, Queued) + OpsOfService(ops, service, Running) {}
  }

  // ----- restore or purge -------------------------------------------------

  /** In time: deleted, with a purge date that has not come. */
  ghost predicate AllBefore(instances: map<string, Instance>, service: string, now: Time) {
    forall i | i in instances && instances[i].serviceId == service ::
      instances[i].deletedAt.Some? && instances[i].purgeAfter.Some? && now < instances[i].purgeAfter.value
  }

  ghost predicate RestoredAt(s': Db, service: string, item: Item) {
    && item.instance in s'.instances
    && s'.instances[item.instance].deletedAt.None? && s'.instances[item.instance].purgeAfter.None?
    && s'.instances[item.instance].desired == DesiredRunning && s'.instances[item.instance].status == Provisioning
    && item.operation in s'.ops && s'.ops[item.operation].status == Queued
    && s'.ops[item.operation].kind == DatabaseKind(RestoreDeletedType)
    && s'.ops[item.operation].lockKey
       == (if item.instance == "" then ServiceLock(service) else InstanceLock(item.instance))
    && item.operation in s'.mirrors && s'.mirrors[item.operation].instanceId == Some(item.instance)
  }

  /** With fresh operation ids, a restore reopens every instance and queues its work exactly if the retention of each
      has not run out; otherwise it changes nothing. No other service's instance is touched. */
  lemma RestoreIffInTime(s: Db, service: string, items: seq<Item>, now: Time)
    requires ListsInstances(s, service, items) && items != []
    requires forall k | 0 <= k < |items| :: items[k].operation !in s.ops && items[k].operation !in s.mirrors
    ensures var s' := ServiceRestored(s, service, items, now);
      && (AllBefore(s.instances, service, now) <==> forall k | 0 <= k < |items| :: RestoredAt(s', service, items[k]))
      && (!AllBefore(s.instances, service, now) ==> s' == s)
      && (forall i | i in s.instances && s.instances[i].serviceId != service ::
            i in s'.instances && s'.instances[i] == s.instances[i])
  {
    hide PairsQueued, ReopenedRow;
    var s' := ServiceRestored(s, service, items, now);
    if RestoreDeletedAllowed(s, items, now) {
      var s1 := s.(instances := Reopened(s.instances, service, now));
      PairsLeaveInstances(s1, service, items, RestoreDeletedType, StepVolumeReserved, now);
      forall k | 0 <= k < |items| ensures RestoredAt(s', service, items[k]) {
        PairQueuedAt(s1, service, items, RestoreDeletedType, StepVolumeReserved, now, k);
        ReopenedColumns(s.instances[items[k].instance], now);
      }
    } else {
      assert !RestoredAt(s, service, items[0]);
      assert !AllBefore(s.instances, service, now);
    }
  }

  lemma ReopenedColumns(i: Instance, now: Time)
    ensures var i' := ReopenedRow(i, now);
      i'.deletedAt.None? && i'.purgeAfter.None? && i'.desired == DesiredRunning && i'.status == Provisioning
  {}

  /** In whole: every purge date has come. */
  ghost predicate AllDue(instances: map<string, Instance>, service: string, at: Time) {
    forall i | i in instances && instances[i].serviceId == service ::
      instances[i].deletedAt.Some? && instances[i].purgeAfter.Some? && instances[i].purgeAfter.value <= at
  }

  /** A purge removes the instances of a service exactly if all are due; otherwise it changes nothing. */
  lemma PurgeIffDue(s: Db, service: string, at: Time)
    requires ServiceKnown(s.instances, service)
    ensures var s' := ServicePurged(s, service, at);
      && (AllDue(s.instances, service, at)
          <==> forall i | i in s.instances && s.instances[i].serviceId == service :: i !in s'.instances)
      && (!AllDue(s.instances, service, at) ==> s' == s)
      && (forall i | i in s.instances && s.instances[i].serviceId != service ::
            i in s'.instances && s'.instances[i] == s.instances[i])
  {
    hide MirrorsOf, Detached, Cascaded;
  }

  /** What a purge removes goes with everything that refers to it: its operations' mirrors, and the restore and upgrade
      jobs of its instances or operations. Backups stay, without the references. Nothing else changes. */
  lemma PurgeLeavesNoReference(s: Db, service: string, at: Time, k: Id)
    requires ServiceKnown(s.instances, service) && AllDue(s.instances, service, at)
    ensures var s' := ServicePurged(s, service, at);
      var gone, lost := s.instances.Keys - s'.instances.Keys, s.mirrors.Keys - s'.mirrors.Keys;
      && s'.ops == s.ops && s'.deployments == s.deployments && s'.events == s.events
      && (k in lost <==>
            && k in s.mirrors
            && (s.mirrors[k].serviceId == service
                || (s.mirrors[k].instanceId.Some? && s.mirrors[k].instanceId.value in gone)))
      && (k in s'.mirrors ==> k in s.mirrors && s'.mirrors[k] == s.mirrors[k])
      && (k in s.backups <==> k in s'.backups)
      && (k in s.backups ==> s'.backups[k] == s.backups[k].(
            operationId := if s.backups[k].operationId.Some? && s.backups[k].operationId.value in lost then None
                           else s.backups[k].operationId,
            instanceId := if s.backups[k].instanceId in gone then "" else s.backups[k].instanceId))
      && JobsGone(s.restores, s'.restores, lost, gone, k) && JobsGone(s.upgrades, s'.upgrades, lost, gone, k)
  {
    var s' := ServicePurged(s, service, at);
    assert s' == ServiceDeleted(s, service);
    assert s.instances.Keys - s'.instances.Keys == InstancesOf(s.instances, service);
    assert s.mirrors.Keys - s'.mirrors.Keys == MirrorsOf(s.mirrors, service, InstancesOf(s.instances, service));
  }

  ghost predicate JobsGone(t: map<Id, Companion>, t': map<Id, Companion>, lost: set<Id>, gone: set<string>, k: Id) {
    && (k in t' <==>
          && k in t && t[k].instanceId !in gone
          && (t[k].operationId.Some? ==> t[k].operationId.value !in lost))
    && (k in t' ==> t'[k] == t[k])
  }

  // ----- one deletion, one date -------------------------------------------

  /** The instances of a service are deleted, and may be purged, at the same time. */
  ghost predicate SameStamps(instances: map<string, Instance>) {
    forall a, b | a in instances && b in instances && instances[a].serviceId == instances[b].serviceId ::
      instances[a].deletedAt == instances[b].deletedAt && instances[a].purgeAfter == instances[b].purgeAfter
  }

  /** Rows may go, but those that stay keep their stamps. */
  ghost predicate AllStampsKept(a: map<string, Instance>, b: map<string, Instance>) {
    forall i | i in b :: StampsKept(a, b, i)
  }

  lemma KeptStampsAreSame(a: map<string, Instance>, b: map<string, Instance>)
    requires SameStamps(a) && AllStampsKept(a, b)
    ensures SameStamps(b)
  {
    forall i, k | i in b && k in b && b[i].serviceId == b[k].serviceId
      ensures b[i].deletedAt == b[k].deletedAt && b[i].purgeAfter == b[k].purgeAfter
    {
      assert StampsKept(a, b, i) && StampsKept(a, b, k);
    }
  }

  lemma ActionsKeepStamps(s: Db, step: Step)
    requires Enabled(s, step) && (step.QueueInstanceAction? || step.Purge?)
    ensures AllStampsKept(s.instances, Effect(s, step).instances)
  {
    hide QueuedMirror, QueueRow, PurgeAllowed, MirrorsOf, Detached, Cascaded;
  }

  lemma WritesKeepStamps(s: Db, step: Step)
    requires Enabled(s, step) && IsWrite(step)
    ensures AllStampsKept(s.instances, Effect(s, step).instances)
  {
    hide Enabled, Effect;
    WritesLeaveQueue(s, step);
  }

  lemma BeginKeepsStamps(s: Db, step: Step)
    requires Enabled(s, step) && step.BeginDeletion?
    ensures AllStampsKept(s.instances, Effect(s, step).instances)
  {
    hide CancelledByDelete, MirrorsCancelledByDelete, MarkedForCancel, ServiceKnown, OpsOfService, Undeleted;
    assert Effect(s, step).instances in {s.instances, Deleting(s.instances, step.service, step.now)};
  }

  lemma RetainedTogether(ops: map<Id, Operation>, instances: map<string, Instance>, service: string, retention: int,
      now: Time)
    requires InstancesOk(ops, instances) && SameStamps(instances)
    ensures SameStamps(Retained(instances, service, retention, now))
  {
    var instances' := Retained(instances, service, retention, now);
    forall a, b | a in instances' && b in instances' && instances'[a].serviceId == instances'[b].serviceId
      ensures instances'[a].deletedAt == instances'[b].deletedAt && instances'[a].purgeAfter == instances'[b].purgeAfter
    {
      assert InstanceOk(instances[a]) && InstanceOk(instances[b]);
      assert AwaitingFinalize(instances[a], service) <==> AwaitingFinalize(instances[b], service);
    }
  }

  lemma FinalizeKeepsSameStamps(s: Db, step: Step)
    requires Inv(s) && SameStamps(s.instances) && Enabled(s, step) && step.FinalizeDeletion?
    ensures SameStamps(Effect(s, step).instances)
  {
    hide QueueRow, AuditMirror, FinalizeAllowed, SameStamps, InstancesOk, Retained;
    RetainedTogether(s.ops, s.instances, step.service, step.retention, step.now);
  }

  lemma {:induction false} NewInstancesOfService(instances: map<string, Instance>, service: string,
      news: seq<NewInstance>, now: Time, i: string)
    requires i in WithInstances(instances, service, news, now)
    ensures var i' := WithInstances(instances, service, news, now)[i];
      (i in instances && i' == instances[i]) || (i'.serviceId == service && i'.deletedAt.None? && i'.purgeAfter.None?)
  {
    if news != [] && news[|news| - 1].item.instance != i {
      NewInstancesOfService(instances, service, news[..|news| - 1], now, i);
    }
  }

  lemma CreatedTogether(instances: map<string, Instance>, service: string, news: seq<NewInstance>, now: Time)
    requires SameStamps(instances) && !ServiceKnown(instances, service)
    ensures SameStamps(WithInstances(instances, service, news, now))
  {
    var instances' := WithInstances(instances, service, news, now);
    forall a, b | a in instances' && b in instances' && instances'[a].serviceId == instances'[b].serviceId
      ensures instances'[a].deletedAt == instances'[b].deletedAt && instances'[a].purgeAfter == instances'[b].purgeAfter
    {
      NewInstancesOfService(instances, service, news, now, a);
      NewInstancesOfService(instances, service, news, now, b);
    }
  }

  lemma ListStepsKeepSameStamps(s: Db, step: Step)
    requires SameStamps(s.instances) && Enabled(s, step) && (step.CreateDatabaseService? || step.RestoreDeleted?)
    ensures SameStamps(Effect(s, step).instances)
  {
    match step
    case CreateDatabaseService(service, news, now) =>
      hide SameStamps, WithInstances, ServiceKnown;
      CreatedTogether(s.instances, service, news, now);
      PairsLeaveInstances(s.(instances := WithInstances(s.instances, service, news, now)), service, ItemsOf(news),
          ProvisionType, StepReserved, now);
    case RestoreDeleted(service, items, now) =>
      PairsLeaveInstances(s.(instances := Reopened(s.instances, service, now)), service, items, RestoreDeletedType,
          StepVolumeReserved, now);
  }

  lemma StepKeepsSameStamps(s: Db, step: Step)
    requires Inv(s) && SameStamps(s.instances) && Enabled(s, step)
    ensures SameStamps(Effect(s, step).instances)
  {
    hide Inv, Enabled, Effect, SameStamps, AllStampsKept;
    if step.CreateDatabaseService? || step.RestoreDeleted? { ListStepsKeepSameStamps(s, step); }
    else if step.FinalizeDeletion? { FinalizeKeepsSameStamps(s, step); }
    else if step.QueueInstanceAction? || step.Purge? || step.BeginDeletion? || IsWrite(step) {
      if step.QueueInstanceAction? || step.Purge? { ActionsKeepStamps(s, step); }
      else if step.BeginDeletion? { BeginKeepsStamps(s, step); }
      else { WritesKeepStamps(s, step); }
      KeptStampsAreSame(s.instances, Effect(s, step).instances);
    }
    else if step.Enqueue? || step.QueueUpgrade? || step.QueueBackup? || step.QueueRestore? {
      EnqueuesLeaveInstances(s, step);
    }
    else if step.Claim? || step.Renew? || step.Defer? { HolderStepsLeaveInstances(s, step); }
    else if step.Complete? || step.Progress? || step.RequestCancel? { EndsLeaveInstances(s, step); }
    else { DeployStepsLeaveInstances(s, step); }
  }

  lemma {:induction false} ReachableSameStamps(r: Run, k: nat)
    requires r.Valid() && k < |r.states|
    ensures SameStamps(r.states[k].instances)
  {
    hide Inv, Enabled, Effect;
    if k > 0 {
      ReachableSameStamps(r, k - 1);
      ReachableInv(r, k - 1);
      assert Next(r.states[k - 1], r.steps[k - 1], r.states[k]);
      StepKeepsSameStamps(r.states[k - 1], r.steps[k - 1]);
    }
  }

  /** A service deleted at t0 can be restored until t0 + retention and purged from then on: at any time exactly one
      of the two goes through. */
  lemma RestoreOrPurge(r: Run, k: nat, i: string, items: seq<Item>, at: Time) returns (j: nat)
    requires r.Valid() && k < |r.states| && i in r.states[k].instances && r.states[k].instances[i].deletedAt.Some?
    requires ListsInstances(r.states[k], r.states[k].instances[i].serviceId, items)
    requires forall n | 0 <= n < |items| ::
      items[n].operation !in r.states[k].ops && items[n].operation !in r.states[k].mirrors
    ensures FinalizedAt(r, j, k, i)
    ensures var s, service, end := r.states[k], r.states[k].instances[i].serviceId,
        r.steps[j].now + r.steps[j].retention;
      var restored, purged := ServiceRestored(s, service, items, at), ServicePurged(s, service, at);
      && (at < end ==> purged == s && forall n | 0 <= n < |items| :: RestoredAt(restored, service, items[n]))
      && (end <= at ==> restored == s)
      && (end <= at ==> forall other | other in s.instances && s.instances[other].serviceId == service ::
            other !in purged.instances)
  {
    hide Enabled, Effect, ServiceRestored, ServicePurged, RestoredAt;
    var s := r.states[k];
    var service := s.instances[i].serviceId;
    j := StampedSince(r, k, i);
    ReachableSameStamps(r, k);
    assert StampedBy(r.steps[j], s.instances[i]);
    assert ServiceKnown(s.instances, service);
    assert items != [];
    RestoreIffInTime(s, service, items, at);
    PurgeIffDue(s, service, at);
    forall other | other in s.instances && s.instances[other].serviceId == service
      ensures s.instances[other].purgeAfter == Some(r.steps[j].now + r.steps[j].retention)
           && s.instances[other].deletedAt.Some?
    {
      assert s.instances[other].deletedAt == s.instances[i].deletedAt;
    }
  }

  lemma {:induction false} PairQueuedAt(s: Db, service: string, items: seq<Item>, operationType: OperationType,
      step: StepName, now: Time, k: nat)
    requires k < |items| && forall i, j | 0 <= i < j < |items| :: items[i].operation != items[j].operation
    ensures var s' := PairsQueued(s, service, items, operationType, step, now);
      && items[k].operation in s'.ops
      && s'.ops[items[k].operation] == QueueRow(QueuedMirror(service, items[k].instance, operationType, step, now))
      && items[k].operation in s'.mirrors
      && s'.mirrors[items[k].operation] == QueuedMirror(service, items[k].instance, operationType, step, now)
  {
    if k < |items| - 1 {
      PairQueuedAt(s, service, items[..|items| - 1], operationType, step, now, k);
    }
  }
}
