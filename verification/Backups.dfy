/** The life of a backup over whole runs, and what a restore can rely on. */
module Backups {
  import opened Tables
  import opened Transitions
  import opened StateMachine

  // ----- which step changes a backup row, and how -------------------------

  ghost predicate OpRuns(ops: map<Id, Operation>, c: Companion, exhausted: bool) {
    && c.operationId.Some? && c.operationId.value in ops && ops[c.operationId.value].status == Running
    && (exhausted <==> ops[c.operationId.value].attempt >= ops[c.operationId.value].maxAttempts)
  }

  /** A backup's status changes only when its worker starts or ends it, when its deletion begins, and in recovery:
      back to queued while its operation has an attempt left, failed once it has none. */
  ghost predicate StatusCaused(s: Db, step: Step, b: Id, c': Companion)
    requires b in s.backups
  {
    var c := s.backups[b];
    || c'.status == c.status
    || (step.WriteJob? && step.write == BackupStarted(b) && c.status == JobQueued && c'.status == JobRunning)
    || (step.WriteJob? && step.write == BackupCompleted(b, c'.status)
        && c'.status in {JobSuccess, JobFailed, JobCancelled})
    || (step.WriteJob? && step.write == BackupDeleting(b) && c.status == JobSuccess && c'.status == JobDeleting)
    || (step.Recover? && OpRuns(s.ops, c, true) && c.status in {JobQueued, JobRunning} && c'.status == JobFailed)
    || (step.Recover? && OpRuns(s.ops, c, false) && c.status == JobRunning && c'.status == JobQueued)
  }

  /** Rows come with an accepted backup request, and go once they are unusable and no restore job refers to them. */
  ghost predicate BackupCaused(s: Db, step: Step, backups': map<Id, Companion>, b: Id) {
    if b in s.backups && b in backups' then
      && StatusCaused(s, step, b, backups'[b])
      && backups'[b].trigger == s.backups[b].trigger
      && (!step.Purge? ==> backups'[b].instanceId == s.backups[b].instanceId)
    else if b in s.backups then
      && step.WriteJob? && step.write == BackupDeleted(b)
      && s.backups[b].status in {JobDeleting, JobFailed, JobCancelled}
      && (forall k | k in s.restores :: b !in s.restores[k].uses)
    else b in backups' ==>
      && step.QueueBackup? && step.backup.backupId == b && backups'[b].operationId == Some(step.id)
      && backups'[b].instanceId == step.backup.instance && backups'[b].trigger == step.backup.trigger
      && backups'[b].status == JobQueued
  }

  /** A restore job keeps the backups it was queued with, all of them on record then. */
  ghost predicate RestoreCaused(s: Db, step: Step, restores': map<Id, Companion>, k: Id) {
    k in restores' ==>
      if k in s.restores then restores'[k].uses == s.restores[k].uses
      else
        && step.QueueRestore? && step.id == k && RestoreAllowed(s, k, step.restore, step.now)
        && restores'[k].uses == UsedBackups(step.restore) && restores'[k].uses <= s.backups.Keys
  }

  ghost predicate JobsUntouched(s: Db, s': Db) { s'.backups == s.backups && s'.restores == s.restores }

  lemma {:induction false} PairsLeaveJobs(s: Db, service: string, items: seq<Item>, operationType: OperationType,
      step: StepName, now: Time)
    ensures JobsUntouched(s, PairsQueued(s, service, items, operationType, step, now))
  {
    if items != [] { PairsLeaveJobs(s, service, items[..|items| - 1], operationType, step, now); }
  }

  lemma InsertsLeaveJobs(s: Db, step: Step)
    requires Enabled(s, step)
    requires step.Enqueue? || step.FinalizeDeletion?
    ensures JobsUntouched(s, Effect(s, step))
  {
    hide QueueRow, NewRow, FinalizeAllowed, Retained, AuditMirror;
  }

  lemma ActionLeavesJobs(s: Db, id: Id, instance: string, action: OperationType, now: Time)
    ensures JobsUntouched(s, InstanceActionQueued(s, id, instance, action, now))
  {}

  lemma UpgradeLeavesJobs(s: Db, id: Id, instance: string, version: string, image: string, now: Time)
    ensures JobsUntouched(s, UpgradeQueued(s, id, instance, version, image, now))
  {}

  lemma InstanceWorkLeavesJobs(s: Db, step: Step)
    requires Enabled(s, step) && (step.QueueInstanceAction? || step.QueueUpgrade?)
    ensures JobsUntouched(s, Effect(s, step))
  {
    hide Enabled, JobsUntouched, InstanceActionQueued, UpgradeQueued;
    match step
    case QueueInstanceAction(id, instance, action, now) => ActionLeavesJobs(s, id, instance, action, now);
    case QueueUpgrade(id, instance, version, image, now) => UpgradeLeavesJobs(s, id, instance, version, image, now);
  }

  lemma ListsLeaveJobs(s: Db, step: Step)
    requires Enabled(s, step) && (step.CreateDatabaseService? || step.RestoreDeleted?)
    ensures JobsUntouched(s, Effect(s, step))
  {
    hide WithInstances, PairsQueued, Reopened;
    match step
    case CreateDatabaseService(service, news, now) =>
      PairsLeaveJobs(s.(instances := WithInstances(s.instances, service, news, now)), service, ItemsOf(news),
          ProvisionType, StepReserved, now);
    case RestoreDeleted(service, items, now) =>
      PairsLeaveJobs(s.(instances := Reopened(s.instances, service, now)), service, items, RestoreDeletedType,
          StepVolumeReserved, now);
  }

  lemma CallsLeaveJobs(s: Db, step: Step)
    requires Enabled(s, step)
    requires step.Claim? || step.Renew? || step.Defer? || step.Complete?
    ensures JobsUntouched(s, Effect(s, step))
  {
    hide IsNext, PutDeployment, PutEvent, PutMirror, ClaimedRow, DeferredRow, CompletedRow, CompletedMirror,
        RenewedRow, RenewedMirror, BuildingDeployment, RequeuedDeployment, FinishedDeployment;
  }

  lemma RequestsLeaveJobs(s: Db, step: Step)
    requires Enabled(s, step) && (step.Progress? || step.RequestCancel?)
    ensures JobsUntouched(s, Effect(s, step))
  {
    hide PutDeployment, PutEvent, PutMirror, CancelledRow, CancelledMirror, ReportedRow, ReportedMirror,
        FinishedDeployment;
  }

  lemma DeletionsLeaveJobs(s: Db, step: Step)
    requires Enabled(s, step) && (step.RequestServiceCancel? || step.BeginDeletion?)
    ensures JobsUntouched(s, Effect(s, step))
  {
    hide ServiceKnown, Undeleted, OpsOfService, MarkedForCancel, CancelledByDelete, MirrorsCancelledByDelete, Deleting;
  }

  lemma DeploymentsLeaveJobs(s: Db, step: Step)
    requires Enabled(s, step)
    requires step.CreateDeployment? || step.CancelDeployment? || step.UpdateDeployment? || step.WriteInstance?
    ensures JobsUntouched(s, Effect(s, step))
  {
    hide PutDeployment, PutEvent, ChangedInstance, ChangeApplies;
  }

  lemma UntouchedIsCaused(s: Db, step: Step, s': Db, id: Id)
    requires JobsUntouched(s, s')
    ensures BackupCaused(s, step, s'.backups, id) && RestoreCaused(s, step, s'.restores, id)
  {}

  lemma QueueingIsCaused(s: Db, step: Step, id: Id)
    requires Enabled(s, step) && (step.QueueBackup? || step.QueueRestore?)
    ensures BackupCaused(s, step, Effect(s, step).backups, id) && RestoreCaused(s, step, Effect(s, step).restores, id)
  {
    hide QueueRow, QueuedMirror, Ready, TransferAdmitted;
  }

  lemma RecoveredBackup(ops: map<Id, Operation>, t: map<Id, Companion>, now: Time, b: Id)
    requires b in t
    ensures var c, c' := t[b], RecoveredCompanions(ops, t, now)[b];
      && (|| c' == c
          || (OpRuns(ops, c, true) && c.status in {JobQueued, JobRunning} && c'.status == JobFailed)
          || (OpRuns(ops, c, false) && c.status == JobRunning && c'.status == JobQueued))
      && c'.trigger == c.trigger && c'.instanceId == c.instanceId && c'.uses == c.uses
  {}

  lemma RecoveryIsCaused(s: Db, step: Step, id: Id)
    requires Enabled(s, step) && step.Recover?
    ensures BackupCaused(s, step, Effect(s, step).backups, id) && RestoreCaused(s, step, Effect(s, step).restores, id)
  {
    hide RecoveredOps, RecoveredMirrors, RecoveredDeployments, Interruptions, OpRuns;
    if id in s.backups { RecoveredBackup(s.ops, s.backups, step.now, id); }
    if id in s.restores { RecoveredBackup(s.ops, s.restores, step.now, id); }
  }

  lemma PurgeIsCaused(s: Db, step: Step, id: Id)
    requires Enabled(s, step) && step.Purge?
    ensures BackupCaused(s, step, Effect(s, step).backups, id) && RestoreCaused(s, step, Effect(s, step).restores, id)
  {
    hide PurgeAllowed, InstancesOf, MirrorsOf;
  }

  lemma WrittenBackup(s: Db, w: JobWrite, now: Time, b: Id)
    ensures var backups' := JobWritten(s, w, now).backups;
      && (b in backups' ==> b in s.backups)
      && (b in s.backups && b !in backups' ==>
            w == BackupDeleted(b) && s.backups[b].status in {JobDeleting, JobFailed, JobCancelled}
            && !InUse(s.restores, b))
      && (b in backups' ==>
            var c, c' := s.backups[b], backups'[b];
            && c'.trigger == c.trigger && c'.instanceId == c.instanceId
            && (|| c'.status == c.status
                || (w == BackupStarted(b) && c.status == JobQueued && c'.status == JobRunning)
                || (w == BackupCompleted(b, c'.status) && c'.status in {JobSuccess, JobFailed, JobCancelled})
                || (w == BackupDeleting(b) && c.status == JobSuccess && c'.status == JobDeleting)))
  {
    hide InUse;
  }

  lemma WrittenRestore(s: Db, w: JobWrite, now: Time, k: Id)
    ensures var restores' := JobWritten(s, w, now).restores;
      k in restores' ==> k in s.restores && restores'[k].uses == s.restores[k].uses
  {
    hide InUse;
  }

  /** What the status writers of restore and upgrade jobs accept is what then stands in the job's row. */
  lemma JobStatusWritten(s: Db, id: Id, status: JobStatus, now: Time)
    ensures var restores' := JobWritten(s, RestoreStatus(id, status), now).restores;
      if id in s.restores && status in {JobQueued, JobRunning, JobSuccess, JobFailed}
      then restores' == s.restores[id := s.restores[id].(status := status, updatedAt := now)]
      else restores' == s.restores
    ensures var upgrades' := JobWritten(s, UpgradeStatus(id, status), now).upgrades;
      if id in s.upgrades && status in {JobRunning, JobSuccess, JobFailed, JobRolledBack}
      then upgrades' == s.upgrades[id := s.upgrades[id].(status := status, updatedAt := now)]
      else upgrades' == s.upgrades
  {}

  /** What a backup's own writers achieve. */
  lemma BackupStatusWritten(s: Db, b: Id, status: JobStatus, now: Time)
    requires b in s.backups
    ensures s.backups[b].status == JobQueued ==>
      JobWritten(s, BackupStarted(b), now).backups[b].status == JobRunning
    ensures status in {JobSuccess, JobFailed, JobCancelled} ==>
      JobWritten(s, BackupCompleted(b, status), now).backups[b].status == status
    ensures s.backups[b].status == JobSuccess ==>
      JobWritten(s, BackupDeleting(b), now).backups[b].status == JobDeleting
    ensures b !in JobWritten(s, BackupDeleted(b), now).backups <==>
      && s.backups[b].status in {JobDeleting, JobFailed, JobCancelled}
      && forall k | k in s.restores :: b !in s.restores[k].uses
  {}

  lemma JobWriteIsCaused(s: Db, step: Step, id: Id)
    requires step.WriteJob?
    ensures BackupCaused(s, step, JobWritten(s, step.write, step.now).backups, id)
    ensures RestoreCaused(s, step, JobWritten(s, step.write, step.now).restores, id)
  {
    hide JobWritten, OpRuns;
    WrittenBackup(s, step.write, step.now, id);
    WrittenRestore(s, step.write, step.now, id);
  }

  /** Over all 23 steps. */
  lemma JobsHaveCauses(s: Db, step: Step, id: Id)
    requires Enabled(s, step)
    ensures BackupCaused(s, step, Effect(s, step).backups, id) && RestoreCaused(s, step, Effect(s, step).restores, id)
  {
    hide Enabled, JobsUntouched, BackupCaused, RestoreCaused;
    if step.QueueBackup? || step.QueueRestore? { QueueingIsCaused(s, step, id); }
    else if step.Recover? { RecoveryIsCaused(s, step, id); }
    else if step.Purge? { PurgeIsCaused(s, step, id); }
    else if step.WriteJob? { JobWriteIsCaused(s, step, id); }
    else {
      if step.Enqueue? || step.FinalizeDeletion? { InsertsLeaveJobs(s, step); }
      else if step.QueueInstanceAction? || step.QueueUpgrade? { InstanceWorkLeavesJobs(s, step); }
      else if step.CreateDatabaseService? || step.RestoreDeleted? { ListsLeaveJobs(s, step); }
      else if step.Claim? || step.Renew? || step.Defer? || step.Complete? { CallsLeaveJobs(s, step); }
      else if step.Progress? || step.RequestCancel? { RequestsLeaveJobs(s, step); }
      else if step.RequestServiceCancel? || step.BeginDeletion? { DeletionsLeaveJobs(s, step); }
      else { DeploymentsLeaveJobs(s, step); }
      UntouchedIsCaused(s, step, Effect(s, step), id);
    }
  }

  // ----- whole runs -------------------------------------------------------

  /** A backup counts as succeeded only because its worker said so, and nothing has happened to it since. */
  lemma {:induction false} SuccessWasReported(r: Run, k: nat, b: Id) returns (j: nat)
    requires r.Valid() && k < |r.states| && b in r.states[k].backups && r.states[k].backups[b].status == JobSuccess
    ensures j < k && r.steps[j].WriteJob? && r.steps[j].write == BackupCompleted(b, JobSuccess)
    ensures forall m | j < m <= k :: b in r.states[m].backups && r.states[m].backups[b].status == JobSuccess
  {
    hide Enabled, Effect;
    assert k > 0;
    assert Next(r.states[k - 1], r.steps[k - 1], r.states[k]);
    JobsHaveCauses(r.states[k - 1], r.steps[k - 1], b);
    if b in r.states[k - 1].backups && r.states[k - 1].backups[b].status == JobSuccess {
      j := SuccessWasReported(r, k - 1, b);
    } else {
      j := k - 1;
    }
  }

  /** So whatever a restore is queued from was completed by a worker before, and was not touched in between. */
  lemma RestoreFollowsSuccess(r: Run, k: nat) returns (j: nat)
    requires r.Valid() && k < |r.steps| && r.steps[k].QueueRestore?
    requires r.steps[k].id !in r.states[k].restores && r.steps[k].id in r.states[k + 1].restores
    ensures j < k && r.steps[j].WriteJob?
    ensures r.steps[j].write == BackupCompleted(r.steps[k].restore.backupId, JobSuccess)
    ensures forall m | j < m <= k ::
      r.steps[k].restore.backupId in r.states[m].backups
      && r.states[m].backups[r.steps[k].restore.backupId].status == JobSuccess
  {
    hide Enabled, Effect;
    assert Next(r.states[k], r.steps[k], r.states[k + 1]);
    JobsHaveCauses(r.states[k], r.steps[k], r.steps[k].id);
    j := SuccessWasReported(r, k, r.steps[k].restore.backupId);
  }

  /** Every backup a restore job refers to is on record. */
  ghost predicate UsesOnRecord(s: Db) {
    forall k, b | k in s.restores && b in s.restores[k].uses :: b in s.backups
  }

  lemma StepKeepsUses(s: Db, step: Step)
    requires Enabled(s, step) && UsesOnRecord(s)
    ensures UsesOnRecord(Effect(s, step))
  {
    hide Enabled, Effect, StatusCaused;
    var s' := Effect(s, step);
    forall k, b | k in s'.restores && b in s'.restores[k].uses ensures b in s'.backups {
      JobsHaveCauses(s, step, k);
      JobsHaveCauses(s, step, b);
    }
  }

  lemma {:induction false} UsedBackupsStay(r: Run, k: nat)
    requires r.Valid() && k < |r.states|
    ensures UsesOnRecord(r.states[k])
  {
    hide Enabled, Effect;
    if k > 0 {
      UsedBackupsStay(r, k - 1);
      assert Next(r.states[k - 1], r.steps[k - 1], r.states[k]);
      StepKeepsUses(r.states[k - 1], r.steps[k - 1]);
    }
  }
}
