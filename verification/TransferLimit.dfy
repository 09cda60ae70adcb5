/** The hourly limit on backups and restores, over whole runs. */
module TransferLimit {
  import opened Tables
  import opened Transitions
  import opened StateMachine
  import opened Invariants
  import opened Runs
  import Sets

  predicate IsTransferAt(m: DatabaseOperation, from: Time, to: Time) {
    (m.operationType == BackupType || m.operationType == RestoreType) && from <= m.createdAt <= to
  }

  /** The transfers of one closed hour. */
  function Window(mirrors: map<Id, DatabaseOperation>, from: Time): set<Id> {
    set id | id in mirrors && IsTransferAt(mirrors[id], from, from + 3600)
  }

  ghost predicate Limited(mirrors: map<Id, DatabaseOperation>, max: int) {
    forall from: Time :: |Window(mirrors, from)| <= max
  }

  predicate AddsTransfer(step: Step) { step.QueueBackup? || step.QueueRestore? }

  function LimitOf(step: Step): int
    requires AddsTransfer(step)
  {
    if step.QueueBackup? then step.backup.maxPerHour else step.restore.maxPerHour
  }

  // ----- which steps add transfer rows ------------------------------------

  lemma {:induction false} PairsHaveType(s: Db, service: string, items: seq<Item>, operationType: OperationType,
      step: StepName, now: Time, id: Id)
    requires id in PairsQueued(s, service, items, operationType, step, now).mirrors && id !in s.mirrors
    ensures PairsQueued(s, service, items, operationType, step, now).mirrors[id].operationType == operationType
  {
    if items != [] && id != items[|items| - 1].operation {
      PairsHaveType(s, service, items[..|items| - 1], operationType, step, now, id);
    }
  }

  lemma InsertsAddNoTransfer(s: Db, step: Step, id: Id)
    requires Enabled(s, step) && (step.QueueInstanceAction? || step.QueueUpgrade? || step.FinalizeDeletion?)
    requires id in Effect(s, step).mirrors && id !in s.mirrors
    ensures Effect(s, step).mirrors[id].operationType !in TRANSFERS
  {
    hide QueueRow, InstanceAfterAction, Retained;
  }

  lemma ListsAddNoTransfer(s: Db, step: Step, id: Id)
    requires Enabled(s, step) && (step.CreateDatabaseService? || step.RestoreDeleted?)
    requires id in Effect(s, step).mirrors && id !in s.mirrors
    ensures Effect(s, step).mirrors[id].operationType !in TRANSFERS
  {
    hide PairsQueued, WithInstances, Reopened;
    match step
    case CreateDatabaseService(service, news, now) =>
      PairsHaveType(s.(instances := WithInstances(s.instances, service, news, now)), service, ItemsOf(news),
          ProvisionType, StepReserved, now, id);
    case RestoreDeleted(service, items, now) =>
      PairsHaveType(s.(instances := Reopened(s.instances, service, now)), service, items, RestoreDeletedType,
          StepVolumeReserved, now, id);
  }

  lemma HoldersAddNoMirror(s: Db, step: Step)
    requires Enabled(s, step) && (step.Claim? || step.Renew? || step.Defer?)
    ensures Effect(s, step).mirrors.Keys == s.mirrors.Keys
  {
    hide IsNext, PutDeployment, PutEvent, BuildingDeployment, RequeuedDeployment;
  }

  lemma EndsAddNoMirror(s: Db, step: Step)
    requires Enabled(s, step) && (step.Complete? || step.Progress? || step.RequestCancel?)
    ensures Effect(s, step).mirrors.Keys == s.mirrors.Keys
  {
    hide PutDeployment, PutEvent, FinishedDeployment, ReportedMirror, ReportedRow, CompletedRow, CancelledRow,
        CancelledMirror,
      CompletedMirror, CancelRequestedRow;
    match step
    case Complete(id, _, c, now) =>
      assert Effect(s, step).mirrors == s.mirrors
          || (id in s.mirrors && Effect(s, step).mirrors == s.mirrors[id := CompletedMirror(s.mirrors[id], c, now)]);
    case Progress(id, report, now) =>
      assert Effect(s, step).mirrors == s.mirrors
          || (id in s.mirrors && Effect(s, step).mirrors
             == s.mirrors[id := ReportedMirror(s.mirrors[id], report, now)]);
    case RequestCancel(id, now) =>
      assert Effect(s, step).mirrors == s.mirrors
          || (id in s.mirrors && Effect(s, step).mirrors == s.mirrors[id := CancelledMirror(s.mirrors[id], now)]);
  }

  lemma OthersAddNoMirror(s: Db, step: Step)
    requires Enabled(s, step)
    requires step.CreateDeployment? || step.Enqueue? || step.RequestServiceCancel? || step.CancelDeployment?
        || step.UpdateDeployment?
    ensures Effect(s, step).mirrors.Keys == s.mirrors.Keys
  {
    hide PutDeployment, PutEvent, NewRow, MarkedForCancel;
  }

  lemma TableUpdatesAddNoMirror(s: Db, step: Step)
    requires Enabled(s, step) && (step.Recover? || step.BeginDeletion? || step.Purge?)
    ensures Effect(s, step).mirrors.Keys <= s.mirrors.Keys
  {
    hide RecoveredOps, RecoveredCompanions, RecoveredDeployments, CancelledByDelete, Deleting, Detached, Cascaded,
        InstancesOf, MirrorsOf;
  }

  lemma OnlyTransfersAddTransfers(s: Db, step: Step, id: Id)
    requires Enabled(s, step) && !AddsTransfer(step)
    requires id in Effect(s, step).mirrors && id !in s.mirrors
    ensures Effect(s, step).mirrors[id].operationType !in TRANSFERS
  {
    hide Enabled, Effect;
    if step.QueueInstanceAction? || step.QueueUpgrade? || step.FinalizeDeletion? { InsertsAddNoTransfer(s, step, id); }
    else if step.CreateDatabaseService? || step.RestoreDeleted? { ListsAddNoTransfer(s, step, id); }
    else if step.Claim? || step.Renew? || step.Defer? { HoldersAddNoMirror(s, step); }
    else if step.Complete? || step.Progress? || step.RequestCancel? { EndsAddNoMirror(s, step); }
    else if step.Recover? || step.BeginDeletion? || step.Purge? { TableUpdatesAddNoMirror(s, step); }
    else if IsWrite(step) { WritesLeaveQueue(s, step); }
    else { OthersAddNoMirror(s, step); }
  }

  // ----- one step ---------------------------------------------------------

  /** Rows in both tables keep their type and creation time, because the authoritative row does. */
  lemma SharedRowsKeepTime(s: Db, s': Db, id: Id)
    requires MirrorsAgree(s.ops, s.mirrors) && MirrorsAgree(s'.ops, s'.mirrors) && RowsEvolve(s.ops, s'.ops)
    requires id in s.mirrors && id in s'.mirrors
    ensures s'.mirrors[id].createdAt == s.mirrors[id].createdAt
        && s'.mirrors[id].operationType == s.mirrors[id].operationType
  {
    assert Agree(s.ops[id], s.mirrors[id]) && Agree(s'.ops[id], s'.mirrors[id]) && Evolves(s.ops[id], s'.ops[id]);
  }

  lemma OtherStepsKeepLimit(s: Db, step: Step, max: int)
    requires Inv(s) && Enabled(s, step) && !AddsTransfer(step) && Limited(s.mirrors, max)
    ensures Limited(Effect(s, step).mirrors, max)
  {
    hide Enabled, Effect;
    var s' := Effect(s, step);
    StepKeeps(s, step);
    forall from: Time ensures |Window(s'.mirrors, from)| <= max {
      forall id | id in Window(s'.mirrors, from) ensures id in Window(s.mirrors, from) {
        if id in s.mirrors { SharedRowsKeepTime(s, s', id); } else { OnlyTransfersAddTransfers(s, step, id); }
      }
      Sets.Included(Window(s'.mirrors, from), Window(s.mirrors, from));
    }
  }

  /** A transfer is admitted exactly if the hour that ends now, with whatever is stamped later, has room for it. */
  lemma AdmittedIff(s: Db, now: Time, maxPerHour: int)
    ensures TransferAdmitted(s, now, maxPerHour) <==>
      && maxPerHour >= 1
      && |set id | id in s.mirrors && s.mirrors[id].operationType in {BackupType, RestoreType}
            && now - 3600 <= s.mirrors[id].createdAt| < maxPerHour
  {
    assert RecentTransfers(s.mirrors, now - 3600) == set id | id in s.mirrors
        && s.mirrors[id].operationType in {BackupType, RestoreType} && now - 3600 <= s.mirrors[id].createdAt;
  }

  /** An admitted transfer's own hour was counted when it was admitted, and every hour that contains
      it starts late enough for that count to cover it. */
  lemma AdmissionKeepsLimit(mirrors: map<Id, DatabaseOperation>, id: Id, m: DatabaseOperation, max: int)
    requires Limited(mirrors, max) && id !in mirrors
    requires |RecentTransfers(mirrors, m.createdAt - SECONDS_PER_HOUR)| < max
    ensures Limited(mirrors[id := m], max)
  {
    var mirrors' := mirrors[id := m];
    forall from: Time ensures |Window(mirrors', from)| <= max {
      if id in Window(mirrors', from) {
        var recent := RecentTransfers(mirrors, m.createdAt - SECONDS_PER_HOUR);
        assert Window(mirrors', from) <= recent + {id};
        Sets.Included(Window(mirrors', from), recent + {id});
      } else {
        assert Window(mirrors', from) == Window(mirrors, from);
      }
    }
  }

  lemma TransfersKeepLimit(s: Db, step: Step, max: int)
    requires Enabled(s, step) && AddsTransfer(step) && LimitOf(step) <= max && Limited(s.mirrors, max)
    ensures Limited(Effect(s, step).mirrors, max)
  {
    hide Limited, QueueRow;
    match step
    case QueueBackup(id, b, now) =>
      if BackupAllowed(s, id, b, now) {
        AdmissionKeepsLimit(s.mirrors, id,
            QueuedMirror(s.instances[b.instance].serviceId, b.instance, BackupType, StepQueued, now), max);
      }
    case QueueRestore(id, q, now) =>
      if RestoreAllowed(s, id, q, now) {
        AdmissionKeepsLimit(s.mirrors, id,
            QueuedMirror(s.instances[q.target].serviceId, q.target, RestoreType, StepWaitingForTarget, now), max);
      }
  }

  /** While callers pass a limit of at most `max`, no closed hour ever holds more than `max` of the
      backups and restores on record, whatever else runs and even if the clock steps back. */
  lemma {:induction false} TransfersStayLimited(r: Run, k: nat, max: nat)
    requires r.Valid() && k < |r.states|
    requires forall j | 0 <= j < k && AddsTransfer(r.steps[j]) :: LimitOf(r.steps[j]) <= max
    ensures Limited(r.states[k].mirrors, max)
  {
    hide Enabled, Effect;
    if k == 0 {
      forall from: Time ensures |Window(EMPTY.mirrors, from)| <= max { assert Window(EMPTY.mirrors, from) == {}; }
    } else {
      TransfersStayLimited(r, k - 1, max);
      ReachableInv(r, k - 1);
      assert Next(r.states[k - 1], r.steps[k - 1], r.states[k]);
      if AddsTransfer(r.steps[k - 1]) { TransfersKeepLimit(r.states[k - 1], r.steps[k - 1], max); }
      else { OtherStepsKeepLimit(r.states[k - 1], r.steps[k - 1], max); }
    }
  }
}
