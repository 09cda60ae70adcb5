/** Which step can make which move on an operation row. */
module Causes {
  import opened Tables
  import opened Transitions
  import opened StateMachine
  import opened Invariants

  lemma {:induction false} PairsLeaveRow(s: Db, service: string, items: seq<Item>, operationType: OperationType,
      step: StepName, now: Time, id: Id)
    requires id in s.ops && forall k | 0 <= k < |items| :: items[k].operation != id
    ensures var s' := PairsQueued(s, service, items, operationType, step, now); id in s'.ops && s'.ops[id] == s.ops[id]
  {
    if items != [] {
      PairsLeaveRow(s, service, items[..|items| - 1], operationType, step, now, id);
    }
  }

  /** Only a claim of this operation and a renewal by its holder set a lease. */
  ghost predicate Leases(s: Db, step: Step, id: Id) {
    || (step.Claim? && step.chosen == Some(id))
    || (step.Renew? && step.id == id && Holds(s, id, step.owner))
  }

  /** How work ends: by its holder's completion or a handler's report, with the status and message given there;
      cancelled while it waits; or failed by recovery with no attempt left. */
  ghost predicate EndedBy(s: Db, step: Step, id: Id, o': Operation)
    requires id in s.ops
  {
    match step
    case Complete(at, owner, c, _) => at == id && Holds(s, id, owner)
        && o'.status == c.status && o'.errorCode == c.errorCode && o'.errorMessage == c.errorMessage
    case Progress(at, report, _) => at == id
        && o'.status == report.status && o'.errorCode == report.errorCode && o'.errorMessage == report.errorMessage
    case RequestCancel(at, _) => at == id && s.ops[id].status == Queued && o'.status == Cancelled
    case BeginDeletion(service, _) =>
      s.ops[id].serviceId == service && s.ops[id].status == Queued && o'.status == Cancelled
    case Recover(_, _, _) =>
      && s.ops[id].status == Running && s.ops[id].attempt >= s.ops[id].maxAttempts
      && o'.status == Failed && o'.errorCode == Interrupted && o'.errorMessage == RetryLimitExceeded
    case _ => false
  }

  /** Only the claim that chose it starts an operation, only its lease holder's deferral puts it off, and for
      exactly the time asked; leases are the ones those calls name, and every end has its cause. */
  ghost predicate Caused(s: Db, step: Step, ops': map<Id, Operation>, id: Id)
    requires id in s.ops
  {
    && id in ops'
    && var o, o' := s.ops[id], ops'[id];
    && (MoveOf(o, o') == Start <==> step.Claim? && step.chosen == Some(id))
    && (MoveOf(o, o') == Start ==> o'.owner == step.options.owner)
    && (MoveOf(o, o') == PutOff <==> step.Defer? && step.id == id && Holds(s, id, step.owner))
    && (MoveOf(o, o') == PutOff ==>
          o'.availableAt == Some(if step.retryAfter > 0 then step.now + step.retryAfter else step.now))
    && (if Leases(s, step, id) then
          o'.leaseExpiresAt == Some(step.now + if step.Claim? then step.options.lease else step.lease)
        else
          o'.leaseExpiresAt == o.leaseExpiresAt || o'.leaseExpiresAt.None?)
    && (o.status.Live() && o'.status.Terminal() ==> EndedBy(s, step, id, o'))
  }

  lemma EnqueueIsQuiet(s: Db, step: Step, id: Id)
    requires Enabled(s, step) && step.Enqueue? && id in s.ops
    ensures Caused(s, step, Effect(s, step).ops, id)
  {
    hide Caused, NewRow;
    var ops' := Effect(s, step).ops;
    assert ops' == s.ops || (step.id !in s.ops && ops' == s.ops[step.id := NewRow(step.input, step.now)]);
    UntouchedIsQuiet(s, step, ops', id);
  }

  lemma InsertsAreQuiet(s: Db, step: Step, id: Id)
    requires Enabled(s, step) && (step.QueueInstanceAction? || step.FinalizeDeletion?) && id in s.ops
    ensures Caused(s, step, Effect(s, step).ops, id)
  {
    hide Caused, QueueRow, QueuedMirror, Retained, AuditMirror, InstanceAfterAction;
    UntouchedIsQuiet(s, step, Effect(s, step).ops, id);
  }

  lemma UntouchedIsQuiet(s: Db, step: Step, ops': map<Id, Operation>, id: Id)
    requires id in s.ops && id in ops' && ops'[id] == s.ops[id]
    requires !step.Defer? && !step.Renew? && !(step.Claim? && step.chosen.Some?)
    ensures Caused(s, step, ops', id)
  {}

  lemma TransfersAreQuiet(s: Db, step: Step, id: Id)
    requires Enabled(s, step) && id in s.ops
    requires step.QueueUpgrade? || step.QueueBackup? || step.QueueRestore?
    ensures Caused(s, step, Effect(s, step).ops, id)
  {
    hide Caused, QueueRow, QueuedMirror, Ready, TransferAdmitted;
    var ops' := Effect(s, step).ops;
    assert id in ops' && ops'[id] == s.ops[id];
    UntouchedIsQuiet(s, step, ops', id);
  }

  lemma OtherTablesAreQuiet(s: Db, step: Step, id: Id)
    requires Enabled(s, step) && id in s.ops
    requires step.CreateDeployment? || step.CancelDeployment? || step.UpdateDeployment? || step.Purge?
          || (step.Claim? && step.chosen.None?)
    ensures Caused(s, step, Effect(s, step).ops, id)
  {
    assert Effect(s, step).ops == s.ops;
  }

  lemma WritesAreQuiet(s: Db, step: Step, id: Id)
    requires Enabled(s, step) && IsWrite(step) && id in s.ops
    ensures Caused(s, step, Effect(s, step).ops, id)
  {
    hide Enabled, Effect;
    WritesLeaveQueue(s, step);
    UntouchedIsQuiet(s, step, Effect(s, step).ops, id);
  }

  lemma ListsAreQuiet(s: Db, step: Step, id: Id)
    requires Enabled(s, step) && (step.CreateDatabaseService? || step.RestoreDeleted?) && id in s.ops
    ensures Caused(s, step, Effect(s, step).ops, id)
  {
    hide PairsQueued, WithInstances, Reopened;
    match step
    case CreateDatabaseService(service, news, now) =>
      PairsLeaveRow(s.(instances := WithInstances(s.instances, service, news, now)), service, ItemsOf(news),
          ProvisionType, StepReserved, now, id);
    case RestoreDeleted(service, items, now) =>
      if RestoreDeletedAllowed(s, items, now) {
        PairsLeaveRow(s.(instances := Reopened(s.instances, service, now)), service, items, RestoreDeletedType,
            StepVolumeReserved, now, id);
      }
  }

  lemma RenewIsQuiet(s: Db, step: Step, id: Id)
    requires step.Renew? && id in s.ops
    ensures Caused(s, step, Renewed(s, step.id, step.owner, step.lease, step.now).ops, id)
  {
    hide RenewedMirror, PutDeployment, PutEvent, PutMirror, EndedBy;
  }

  lemma CompleteIsQuiet(s: Db, step: Step, id: Id)
    requires step.Complete? && id in s.ops
    ensures Caused(s, step, Completed(s, step.id, step.owner, step.completion, step.now).ops, id)
  {
    hide CompletedMirror, FinishedDeployment, PutDeployment, PutEvent, PutMirror;
  }

  lemma ProgressIsQuiet(s: Db, step: Step, id: Id)
    requires step.Progress? && id in s.ops && Enabled(s, step)
    ensures Caused(s, step, ReportApplied(s, step.id, step.report, step.now).ops, id)
  {}

  lemma RequestCancelIsQuiet(s: Db, step: Step, id: Id)
    requires step.RequestCancel? && id in s.ops
    ensures Caused(s, step, CancelRequested(s, step.id, step.now).ops, id)
  {
    hide CancelledMirror, FinishedDeployment, PutDeployment, PutEvent, PutMirror;
    var ops' := CancelRequested(s, step.id, step.now).ops;
    if step.id in s.ops {
      assert ops' == s.ops || ops' == s.ops[step.id := CancelRequestedRow(s.ops[step.id], step.now)]
          || (s.ops[step.id].status == Queued && ops' == s.ops[step.id := CancelledRow(s.ops[step.id], step.now)]);
    }
  }

  lemma MarkingIsQuiet(s: Db, step: Step, service: string, now: Time, id: Id)
    requires id in s.ops && !step.Defer? && !step.Renew? && !step.Claim?
    ensures Caused(s, step, MarkedForCancel(s.ops, service, now), id)
  {}

  lemma DeletionIsCause(s: Db, step: Step, id: Id)
    requires step.BeginDeletion? && id in s.ops
    ensures Caused(s, step, DeletionBegun(s, step.service, step.now).ops, id)
  {
    hide Caused, MarkedForCancel, CancelledByDelete, MirrorsCancelledByDelete, Deleting, ServiceKnown, Undeleted;
    var ops' := DeletionBegun(s, step.service, step.now).ops;
    MarkingIsQuiet(s, step, step.service, step.now, id);
    CancellingIsCause(s, step, id);
    UntouchedIsQuiet(s, step, s.ops, id);
    assert ops' in {s.ops, MarkedForCancel(s.ops, step.service, step.now),
        CancelledByDelete(s.ops, step.service, step.now)};
  }

  lemma CancellingIsCause(s: Db, step: Step, id: Id)
    requires step.BeginDeletion? && id in s.ops
    ensures Caused(s, step, CancelledByDelete(s.ops, step.service, step.now), id)
  {}

  lemma RecoveryIsQuiet(s: Db, step: Step, now: Time, id: Id)
    requires id in s.ops && step.Recover?
    ensures Caused(s, step, RecoveredOps(s.ops, now), id)
  {}

  lemma ClaimIsCause(s: Db, step: Step, id: Id)
    requires step.Claim? && step.chosen.Some? && step.chosen.value in s.ops && id in s.ops
    requires s.ops[step.chosen.value].status == Queued
    ensures Caused(s, step, Claimed(s, step.chosen.value, step.options, step.now).ops, id)
  {}

  lemma DeferIsCause(s: Db, step: Step, id: Id)
    requires step.Defer? && id in s.ops && RowOk(s.ops[id])
    ensures Caused(s, step, Deferred(s, step.id, step.owner, step.retryAfter, step.now).ops, id)
  {
    hide DeferredMirror, RequeuedDeployment, PutDeployment, PutEvent, PutMirror, EndedBy;
  }

  lemma HolderCallsAreCauses(s: Db, step: Step, id: Id)
    requires Enabled(s, step) && id in s.ops && RowOk(s.ops[id])
    requires step.Claim? || step.Defer? || step.Renew? || step.Complete? || step.Progress?
    ensures Caused(s, step, Effect(s, step).ops, id)
  {
    hide Caused, RowOk, Claimed, Deferred, Renewed, Completed, ReportApplied;
    match step
    case Claim(_, chosen, _) => if chosen.Some? { ClaimIsCause(s, step, id); }
        else { OtherTablesAreQuiet(s, step, id); }
    case Defer(_, _, _, _) => DeferIsCause(s, step, id);
    case Renew(_, _, _, _) => RenewIsQuiet(s, step, id);
    case Complete(_, _, _, _) => CompleteIsQuiet(s, step, id);
    case _ => ProgressIsQuiet(s, step, id);
  }

  lemma QueueingIsQuiet(s: Db, step: Step, id: Id)
    requires Enabled(s, step) && id in s.ops
    requires step.Enqueue? || step.QueueUpgrade? || step.QueueBackup? || step.QueueRestore? || step.QueueInstanceAction?
        || step.FinalizeDeletion? || step.CreateDatabaseService? || step.RestoreDeleted?
    ensures Caused(s, step, Effect(s, step).ops, id)
  {
    hide Caused, Enabled, Effect;
    match step
    case CreateDatabaseService(_, _, _) => ListsAreQuiet(s, step, id);
    case RestoreDeleted(_, _, _) => ListsAreQuiet(s, step, id);
    case QueueUpgrade(_, _, _, _, _) => TransfersAreQuiet(s, step, id);
    case QueueBackup(_, _, _) => TransfersAreQuiet(s, step, id);
    case QueueRestore(_, _, _) => TransfersAreQuiet(s, step, id);
    case Enqueue(_, _, _) => EnqueueIsQuiet(s, step, id);
    case _ => InsertsAreQuiet(s, step, id);
  }

  lemma MovesHaveCauses(s: Db, step: Step, id: Id)
    requires Enabled(s, step) && id in s.ops && RowOk(s.ops[id])
    ensures Caused(s, step, Effect(s, step).ops, id)
  {
    hide Caused, Enabled, RowOk, CancelRequested, MarkedForCancel, DeletionBegun, RecoveredOps, DeploymentCreated,
      DeploymentCancelled, DeploymentUpdated, ServicePurged;
    match step
    case RequestCancel(_, _) => RequestCancelIsQuiet(s, step, id);
    case RequestServiceCancel(service, now) => MarkingIsQuiet(s, step, service, now, id);
    case BeginDeletion(_, _) => DeletionIsCause(s, step, id);
    case Recover(now, _, _) => RecoveryIsQuiet(s, step, now, id);
    case CreateDeployment(_, _, _) => OtherTablesAreQuiet(s, step, id);
    case CancelDeployment(_, _) => OtherTablesAreQuiet(s, step, id);
    case UpdateDeployment(_, _, _, _) => OtherTablesAreQuiet(s, step, id);
    case Purge(_, _) => OtherTablesAreQuiet(s, step, id);
    case WriteInstance(_, _, _) => WritesAreQuiet(s, step, id);
    case WriteJob(_, _) => WritesAreQuiet(s, step, id);
    case _ =>
      if step.Claim? || step.Defer? || step.Renew? || step.Complete? || step.Progress? {
        HolderCallsAreCauses(s, step, id);
      } else {
        QueueingIsQuiet(s, step, id);
      }
  }
}
