/** What a terminal deployment is worth: no queue step reopens it, and a cancellation is final even
    against the deploy handler's own status writes. */
module Deployments {
  import opened Tables
  import opened Transitions
  import opened StateMachine
  import opened Invariants
  import opened Runs

  ghost predicate RowKept(s: Db, s': Db, id: Id)
    requires id in s.deployments
  {
    id in s'.deployments && s'.deployments[id] == s.deployments[id]
  }

  lemma {:induction false} PairsLeaveDeployments(s: Db, service: string, items: seq<Item>,
      operationType: OperationType, step: StepName, now: Time)
    ensures PairsQueued(s, service, items, operationType, step, now).deployments == s.deployments
  {
    if items != [] { PairsLeaveDeployments(s, service, items[..|items| - 1], operationType, step, now); }
  }

  lemma InsertsLeaveDeployments(s: Db, step: Step)
    requires Enabled(s, step) && (step.Enqueue? || step.QueueInstanceAction? || step.QueueUpgrade?)
    ensures Effect(s, step).deployments == s.deployments
  {
    hide QueueRow, QueuedMirror, NewRow, InstanceAfterAction, Ready;
  }

  lemma TransfersLeaveDeployments(s: Db, step: Step)
    requires Enabled(s, step) && (step.QueueBackup? || step.QueueRestore?)
    ensures Effect(s, step).deployments == s.deployments
  {
    hide QueueRow, QueuedMirror, Ready, TransferAdmitted;
  }

  lemma ListsLeaveDeployments(s: Db, step: Step)
    requires Enabled(s, step) && (step.CreateDatabaseService? || step.RestoreDeleted?)
    ensures Effect(s, step).deployments == s.deployments
  {
    hide WithInstances, PairsQueued, Reopened;
    match step
    case CreateDatabaseService(service, news, now) =>
      PairsLeaveDeployments(s.(instances := WithInstances(s.instances, service, news, now)), service, ItemsOf(news),
          ProvisionType, StepReserved, now);
    case RestoreDeleted(service, items, now) =>
      PairsLeaveDeployments(s.(instances := Reopened(s.instances, service, now)), service, items, RestoreDeletedType,
          StepVolumeReserved, now);
  }

  lemma OthersLeaveDeployments(s: Db, step: Step)
    requires Enabled(s, step) && (step.Renew? || step.Progress? || step.RequestServiceCancel?)
    ensures Effect(s, step).deployments == s.deployments
  {
    hide MarkedForCancel, ReportedRow, ReportedMirror, RenewedRow, RenewedMirror;
  }

  lemma DeletionsLeaveDeployments(s: Db, step: Step)
    requires Enabled(s, step) && (step.BeginDeletion? || step.FinalizeDeletion? || step.Purge?)
    ensures Effect(s, step).deployments == s.deployments
  {
    hide QueueRow, AuditMirror, FinalizeAllowed, CancelledByDelete, MirrorsCancelledByDelete, Deleting, Retained,
        MarkedForCancel,
      MirrorsOf, Detached, Cascaded, InstancesOf, PurgeAllowed;
  }

  lemma HoldersKeepTerminal(s: Db, step: Step, id: Id)
    requires Enabled(s, step) && (step.Claim? || step.Defer? || step.Complete?)
    requires id in s.deployments && s.deployments[id].status.Terminal()
    ensures RowKept(s, Effect(s, step), id)
  {
    hide IsNext, PutEvent, PutMirror, ClaimedRow, DeferredRow, CompletedRow, CompletedMirror;
    match step
    case Claim(options, chosen, now) =>
      if chosen.Some? {
        assert Effect(s, step).deployments
            == PutDeployment(s.deployments, chosen.value, BuildingDeployment(s.deployments, chosen.value, now));
      }
    case Defer(at, owner, _, now) =>
      assert Effect(s, step).deployments in {s.deployments,
          PutDeployment(s.deployments, at, RequeuedDeployment(s.deployments, at, now))};
    case Complete(at, owner, c, now) =>
      if c.status.Terminal() {
        assert Effect(s, step).deployments in
          {s.deployments, PutDeployment(s.deployments, at,
              FinishedDeployment(s.deployments, at, c.status, c.errorMessage, now))};
      }
  }

  lemma ProjectionsKeepTerminal(s: Db, step: Step, id: Id)
    requires Enabled(s, step)
    requires step.CreateDeployment? || step.RequestCancel? || step.Recover? || step.CancelDeployment?
        || step.UpdateDeployment?
    requires id in s.deployments && s.deployments[id].status.Terminal()
    ensures RowKept(s, Effect(s, step), id)
  {
    hide PutEvent, PutMirror, CancelledRow, CancelledMirror, RecoveredOps, RecoveredMirrors, RecoveredCompanions,
        Interruptions;
    if step.RequestCancel? {
      assert Effect(s, step).deployments in
        {s.deployments, PutDeployment(s.deployments, step.id,
            FinishedDeployment(s.deployments, step.id, Cancelled, Blank, step.now))};
    }
  }

  /** No step changes a terminal deployment's row. */
  lemma TerminalKept(s: Db, step: Step, id: Id)
    requires Enabled(s, step) && id in s.deployments && s.deployments[id].status.Terminal()
    ensures RowKept(s, Effect(s, step), id)
  {
    hide Enabled, Effect;
    if step.Claim? || step.Defer? || step.Complete? { HoldersKeepTerminal(s, step, id); }
    else if step.CreateDeployment? || step.RequestCancel? || step.Recover? || step.CancelDeployment?
        || step.UpdateDeployment? {
      ProjectionsKeepTerminal(s, step, id);
    }
    else if step.Enqueue? || step.QueueInstanceAction? || step.QueueUpgrade? { InsertsLeaveDeployments(s, step); }
    else if step.QueueBackup? || step.QueueRestore? { TransfersLeaveDeployments(s, step); }
    else if step.CreateDatabaseService? || step.RestoreDeleted? { ListsLeaveDeployments(s, step); }
    else if step.BeginDeletion? || step.FinalizeDeletion? || step.Purge? { DeletionsLeaveDeployments(s, step); }
    else if IsWrite(step) { WritesLeaveQueue(s, step); }
    else { OthersLeaveDeployments(s, step); }
  }

  lemma {:induction false} TerminalForever(r: Run, i: nat, j: nat, id: Id)
    requires r.Valid() && i <= j < |r.states|
    requires id in r.states[i].deployments && r.states[i].deployments[id].status.Terminal()
    ensures RowKept(r.states[i], r.states[j], id)
  {
    hide Effect, Enabled;
    if i < j {
      TerminalForever(r, i, j - 1, id);
      assert Next(r.states[j - 1], r.steps[j - 1], r.states[j]);
      TerminalKept(r.states[j - 1], r.steps[j - 1], id);
    }
  }

  // ----- the handler's unguarded status write -----------------------------

  /** A step of the program, or UpdateDeploymentStatus called with any status on any deployment. */
  ghost predicate LooseNext(s: Db, step: Step, s': Db) {
    || Next(s, step, s')
    || (step.UpdateDeployment? && s' == DeploymentUpdated(s, step.id, step.status, step.message, step.now))
  }

  /** Once CancelDeployment has written CANCELLED, the row never changes again, whatever interleaves. */
  lemma {:induction false} CancelledForever(states: seq<Db>, steps: seq<Step>, id: Id)
    requires |states| == |steps| + 1 && forall k | 0 <= k < |steps| :: LooseNext(states[k], steps[k], states[k + 1])
    requires id in states[0].deployments && states[0].deployments[id].status == DeployCancelled
    ensures RowKept(states[0], states[|steps|], id)
  {
    if steps != [] {
      var n := |steps| - 1;
      CancelledForever(states[..n + 1], steps[..n], id);
      assert LooseNext(states[n], steps[n], states[n + 1]);
      if Next(states[n], steps[n], states[n + 1]) { TerminalKept(states[n], steps[n], id); }
    }
  }
}
