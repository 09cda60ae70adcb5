/** Whole-run theorems: the invariant holds in every reachable state, and what that and the permitted
    row changes give over time. */
module Runs {
  import opened Tables
  import opened Transitions
  import opened StateMachine
  import opened Invariants
  import opened BulkInvariants
  import opened Histories

  // ----- every step, every reachable state --------------------------------

  lemma NothingKeeps(s: Db)
    requires Inv(s)
    ensures Kept(s, s)
  {}

  lemma EnqueueStepKeeps(s: Db, step: Step)
    requires Inv(s) && Enabled(s, step)
    requires step.Enqueue? || step.CreateDatabaseService? || step.QueueInstanceAction? || step.QueueUpgrade?
        || step.QueueBackup? || step.QueueRestore?
    ensures Kept(s, Effect(s, step))
  {
    hide Inv, Kept, Enqueued, ServiceCreated, InstanceActionQueued, UpgradeQueued, BackupQueued, RestoreQueued;
    match step
    case Enqueue(id, input, now) => EnqueueKeeps(s, id, input, now);
    case CreateDatabaseService(service, news, now) => CreateServiceKeeps(s, service, news, now);
    case QueueInstanceAction(id, instance, action, now) => InstanceActionKeeps(s, id, instance, action, now);
    case QueueUpgrade(id, instance, version, image, now) => UpgradeKeeps(s, id, instance, version, image, now);
    case QueueBackup(id, backup, now) => BackupKeeps(s, id, backup, now);
    case QueueRestore(id, restore, now) => RestoreKeeps(s, id, restore, now);
  }

  lemma QueueStepKeeps(s: Db, step: Step)
    requires Inv(s) && Enabled(s, step)
    requires step.Claim? || step.Renew? || step.Defer? || step.Complete? || step.Progress? || step.RequestCancel?
        || step.RequestServiceCancel? || step.Recover?
    ensures Kept(s, Effect(s, step))
  {
    hide Inv, Kept, Claimed, Renewed, Deferred, Completed, ReportApplied, CancelRequested, ServiceCancelRequested,
        Recovered;
    match step
    case Claim(options, chosen, now) => if chosen.Some? { ClaimKeeps(s, chosen.value, options, now); }
        else { NothingKeeps(s); }
    case Renew(id, owner, lease, now) => RenewKeeps(s, id, owner, lease, now);
    case Defer(id, owner, retryAfter, now) => DeferKeeps(s, id, owner, retryAfter, now);
    case Complete(id, owner, completion, now) => CompleteKeeps(s, id, owner, completion, now);
    case Progress(id, report, now) => ProgressKeeps(s, id, report, now);
    case RequestCancel(id, now) => RequestCancelKeeps(s, id, now);
    case RequestServiceCancel(service, now) => ServiceCancelKeeps(s, service, now);
    case Recover(now, exhausted, orphans) => RecoverKeeps(s, now, exhausted, orphans);
  }

  /** No step breaks the invariant or makes a row change that is not permitted. */
  lemma StepKeeps(s: Db, step: Step)
    requires Inv(s) && Enabled(s, step)
    ensures Kept(s, Effect(s, step))
  {
    hide Inv, Kept, Enqueued, ServiceCreated, InstanceActionQueued, UpgradeQueued, BackupQueued, RestoreQueued,
        Claimed, Renewed,
      Deferred, Completed, ReportApplied, CancelRequested, ServiceCancelRequested, Recovered, DeploymentCancelled,
      DeploymentUpdated, DeletionBegun, DeletionFinalized, ServiceRestored, ServicePurged, InstanceWritten, JobWritten;
    match step
    case CreateDeployment(id, service, now) =>
      DeploymentStepKeeps(s, id, Some(Deployment(service, DeployQueued, Blank, None, now, now)), Blank, now);
    case CancelDeployment(id, now) => CancelDeploymentKeeps(s, id, now);
    case UpdateDeployment(id, status, message, now) => UpdateDeploymentKeeps(s, id, status, message, now);
    case BeginDeletion(service, now) => BeginDeletionKeeps(s, service, now);
    case FinalizeDeletion(audit, service, retention, now) => FinalizeKeeps(s, audit, service, retention, now);
    case RestoreDeleted(service, items, now) => RestoreDeletedKeeps(s, service, items, now);
    case Purge(service, now) => PurgeKeeps(s, service, now);
    case WriteInstance(instance, change, now) => InstanceWriteKeeps(s, instance, change, now);
    case WriteJob(write, now) => JobWriteKeeps(s, write, now);
    case _ =>
      if step.Enqueue? || step.CreateDatabaseService? || step.QueueInstanceAction? || step.QueueUpgrade?
          || step.QueueBackup? || step.QueueRestore? {
        EnqueueStepKeeps(s, step);
      } else {
        QueueStepKeeps(s, step);
      }
  }

  lemma {:induction false} ReachableInv(r: Run, k: nat)
    requires r.Valid() && k < |r.states|
    ensures Inv(r.states[k])
  {
    hide Enabled, Effect;
    if k > 0 {
      ReachableInv(r, k - 1);
      assert Next(r.states[k - 1], r.steps[k - 1], r.states[k]);
      StepKeeps(r.states[k - 1], r.steps[k - 1]);
    }
  }

  /** The two queue tables agree on every shared column, under every id both have. */
  lemma ReachableMirrorsAgree(r: Run, k: nat, id: Id)
    requires r.Valid() && k < |r.states| && id in r.states[k].mirrors
    ensures id in r.states[k].ops && Agree(r.states[k].ops[id], r.states[k].mirrors[id])
  {
    ReachableInv(r, k);
  }

  /** Mutual exclusion on lock keys, and a lease exactly while running. */
  lemma ReachableLeases(r: Run, k: nat)
    requires r.Valid() && k < |r.states|
    ensures LocksExclusive(r.states[k].ops)
    ensures forall id | id in r.states[k].ops ::
      r.states[k].ops[id].status == Running <==> r.states[k].ops[id].owner != ""
  {
    ReachableInv(r, k);
  }

  /** The attempt bound never strands an operation: what waits can still be claimed. */
  lemma ReachableAttempts(r: Run, k: nat, id: Id)
    requires r.Valid() && k < |r.states| && id in r.states[k].ops
    ensures var o := r.states[k].ops[id];
      0 <= o.attempt <= o.maxAttempts && (o.status == Queued ==> o.attempt < o.maxAttempts)
  {
    ReachableInv(r, k);
  }

  /** A deployment's events replay to its status; only the last of them can be terminal. */
  lemma ReachableTimeline(r: Run, k: nat, id: Id)
    requires r.Valid() && k < |r.states| && id in r.states[k].deployments
    ensures var t := Timeline(r.states[k].events, id);
      && t != [] && t[0] == DeployQueued && t[|t| - 1] == r.states[k].deployments[id].status
      && (forall j | 0 <= j < |t| - 1 :: !t[j].Terminal())
      && (forall j | 1 <= j < |t| && t[j] == DeployQueued :: t[j - 1] == DeployBuilding)
  {
    ReachableInv(r, k);
    var t := Timeline(r.states[k].events, id);
    assert WalkTo(t, r.states[k].deployments[id].status);
    forall j | 0 <= j < |t| - 1 ensures !t[j].Terminal() { assert CanFollow(t[j + 1 - 1], t[j + 1]); }
  }

  lemma ReachableBuilding(r: Run, k: nat, id: Id)
    requires r.Valid() && k < |r.states| && id in r.states[k].deployments
    requires r.states[k].deployments[id].status == DeployBuilding
    ensures id in r.states[k].ops && r.states[k].ops[id].status == Running
  {
    ReachableInv(r, k);
  }

  /** While an instance is being or has been deleted, its service has no queued or running work. */
  lemma ReachableDeleted(r: Run, k: nat, i: string)
    requires r.Valid() && k < |r.states| && i in r.states[k].instances
    requires r.states[k].instances[i].desired == DesiredDeleted
    ensures Idle(r.states[k].ops, r.states[k].instances[i].serviceId)
  {
    ReachableInv(r, k);
  }

  // ----- rows through a run -----------------------------------------------

  ghost function History(r: Run): (h: seq<map<Id, Operation>>)
    requires r.Valid()
    ensures |h| == |r.states| && forall k | 0 <= k < |h| :: h[k] == r.states[k].ops
  {
    seq(|r.states|, k requires 0 <= k < |r.states| => r.states[k].ops)
  }

  lemma HistoryEvolves(r: Run)
    requires r.Valid()
    ensures Evolving(History(r)) && History(r)[0] == map[]
  {
    hide Enabled, Effect;
    forall k | 0 <= k < |r.states| ensures RowsOk(r.states[k].ops) { ReachableInv(r, k); }
    forall k | 0 <= k < |r.steps| ensures RowsEvolve(r.states[k].ops, r.states[k + 1].ops) {
      ReachableInv(r, k);
      assert Next(r.states[k], r.steps[k], r.states[k + 1]);
      StepKeeps(r.states[k], r.steps[k]);
    }
  }
}
