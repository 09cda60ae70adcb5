/** The set-valued steps keep the invariant too: boot recovery, deletion, restore and purge. */
module BulkInvariants {
  import opened Tables
  import opened Transitions
  import opened StateMachine
  import opened Invariants

  // ----- rows that all change at once -------------------------------------

  lemma EvolvingKeepsRows(ops: map<Id, Operation>, ops': map<Id, Operation>)
    requires LocksExclusive(ops) && ops'.Keys == ops.Keys
    requires forall id | id in ops :: RowOk(ops'[id]) && Evolves(ops[id], ops'[id])
    requires forall id | id in ops && ops'[id].status == Running :: ops[id].status == Running
    ensures RowsOk(ops') && LocksExclusive(ops') && RowsEvolve(ops, ops')
  {}

  lemma MarkingKeepsRows(ops: map<Id, Operation>, service: string, now: Time)
    requires RowsOk(ops) && LocksExclusive(ops)
    ensures var ops' := MarkedForCancel(ops, service, now);
      RowsOk(ops') && LocksExclusive(ops') && RowsEvolve(ops, ops')
  {
    EvolvingKeepsRows(ops, MarkedForCancel(ops, service, now));
  }

  lemma MarkingKeepsReadModels(ops: map<Id, Operation>, mirrors: map<Id, DatabaseOperation>,
      deployments: map<Id, Deployment>, service: string, now: Time)
    requires MirrorsAgree(ops, mirrors) && DeploymentsOk(ops, mirrors, deployments)
    ensures var ops' := MarkedForCancel(ops, service, now);
      MirrorsAgree(ops', mirrors) && DeploymentsOk(ops', mirrors, deployments)
  {
    var ops' := MarkedForCancel(ops, service, now);
    forall id | id in mirrors ensures id in ops' && Agree(ops'[id], mirrors[id]) {}
    forall id | id in deployments ensures id !in mirrors && DeploymentOk(ops', id, deployments[id]) {}
  }

  lemma ServiceCancelKeeps(s: Db, service: string, now: Time)
    requires Inv(s)
    ensures Kept(s, ServiceCancelRequested(s, service, now))
  {
    MarkingKeepsRows(s.ops, service, now);
    MarkingKeepsReadModels(s.ops, s.mirrors, s.deployments, service, now);
    EvolvingKeepsInstances(s.ops, MarkedForCancel(s.ops, service, now), s.instances);
  }

  // ----- recovery ---------------------------------------------------------

  lemma RecoveredRowOk(o: Operation, now: Time)
    requires RowOk(o)
    ensures RowOk(RecoveredRow(o, now)) && Evolves(o, RecoveredRow(o, now)) && RecoveredRow(o, now).status != Running
  {}

  lemma RecoveryKeepsRows(ops: map<Id, Operation>, now: Time)
    requires RowsOk(ops) && LocksExclusive(ops)
    ensures RowsOk(RecoveredOps(ops, now)) && LocksExclusive(RecoveredOps(ops, now))
        && RowsEvolve(ops, RecoveredOps(ops, now))
  {
    forall id | id in ops { RecoveredRowOk(ops[id], now); }
    EvolvingKeepsRows(ops, RecoveredOps(ops, now));
  }

  lemma RecoveredPairAgrees(o: Operation, m: DatabaseOperation, now: Time)
    requires Agree(o, m)
    ensures Agree(FailedRow(o, now), FailedMirror(m, now)) && Agree(RequeuedRow(o, now), RequeuedMirror(m, now))
  {}

  lemma RecoveryKeepsMirrors(s: Db, now: Time)
    requires MirrorsAgree(s.ops, s.mirrors)
    ensures MirrorsAgree(RecoveredOps(s.ops, now), RecoveredMirrors(s, now))
  {
    hide Agree, FailedRow, FailedMirror, RequeuedRow, RequeuedMirror;
    forall id | id in s.mirrors ensures Agree(RecoveredOps(s.ops, now)[id], RecoveredMirrors(s, now)[id]) {
      RecoveredPairAgrees(s.ops[id], s.mirrors[id], now);
    }
  }

  /** A deploy operation has one attempt, so a running one is exhausted and no deployment stays BUILDING. */
  lemma RecoveryKeepsDeployments(s: Db, now: Time)
    requires RowsOk(s.ops) && DeploymentsOk(s.ops, s.mirrors, s.deployments)
    ensures DeploymentsOk(RecoveredOps(s.ops, now), RecoveredMirrors(s, now), RecoveredDeployments(s, now))
    ensures forall id | id in s.deployments :: RecoveredDeployments(s, now)[id].status != DeployBuilding
  {
    forall id | id in s.deployments && s.deployments[id].status == DeployBuilding ensures id in ExhaustedDeploys(s) {
      assert DeploymentOk(s.ops, id, s.deployments[id]) && RowOk(s.ops[id]);
    }
  }

  /** Each deployment that recovery interrupts gets one event, and no other gets any. */
  lemma RecoveryExtendsTimeline(s: Db, now: Time, exhausted: seq<Id>, orphans: seq<Id>, id: Id)
    requires Lists(exhausted, ExhaustedDeploys(s)) && Lists(orphans, OrphanDeploys(s))
    ensures Timeline(s.events + Interruptions(exhausted, now) + Interruptions(orphans, now), id)
         == Timeline(s.events, id) + (if id in ExhaustedDeploys(s) + OrphanDeploys(s) then [DeployFailed] else [])
  {
    hide Timeline, Interruptions;
    TimelineInterruptions(s.events, exhausted, now, id);
    TimelineInterruptions(s.events + Interruptions(exhausted, now), orphans, now, id);
  }

  lemma RecoveryKeepsTimelines(s: Db, now: Time, exhausted: seq<Id>, orphans: seq<Id>)
    requires TimelinesOk(s.deployments, s.events)
    requires Lists(exhausted, ExhaustedDeploys(s)) && Lists(orphans, OrphanDeploys(s))
    ensures TimelinesOk(RecoveredDeployments(s, now),
        s.events + Interruptions(exhausted, now) + Interruptions(orphans, now))
  {
    hide Lists, Timeline, Interruptions, Walk;
    var events' := s.events + Interruptions(exhausted, now) + Interruptions(orphans, now);
    forall id
      ensures id in s.deployments ==> WalkTo(Timeline(events', id), RecoveredDeployments(s, now)[id].status)
      ensures id !in s.deployments ==> Timeline(events', id) == []
    {
      RecoveryExtendsTimeline(s, now, exhausted, orphans, id);
      if id in ExhaustedDeploys(s) + OrphanDeploys(s) {
        WalkExtends(Timeline(s.events, id), s.deployments[id].status, DeployFailed);
      } else {
        assert Timeline(s.events, id) + [] == Timeline(s.events, id);
      }
    }
  }

  lemma RecoverKeeps(s: Db, now: Time, exhausted: seq<Id>, orphans: seq<Id>)
    requires Inv(s) && Enabled(s, Recover(now, exhausted, orphans))
    ensures Kept(s, Recovered(s, now, exhausted, orphans))
  {
    RecoveryKeepsRows(s.ops, now);
    RecoveryKeepsMirrors(s, now);
    RecoveryKeepsDeployments(s, now);
    RecoveryKeepsTimelines(s, now, exhausted, orphans);
    EvolvingKeepsInstances(s.ops, RecoveredOps(s.ops, now), s.instances);
  }

  // ----- deletion ---------------------------------------------------------

  lemma DeletionKeepsRows(ops: map<Id, Operation>, service: string, now: Time)
    requires RowsOk(ops) && LocksExclusive(ops) && OpsOfService(ops, service, Running) == {}
    ensures var ops' := CancelledByDelete(ops, service, now);
      RowsOk(ops') && LocksExclusive(ops') && RowsEvolve(ops, ops') && Idle(ops', service)
  {
    var ops' := CancelledByDelete(ops, service, now);
    EvolvingKeepsRows(ops, ops');
    forall id | id in ops' && ops'[id].serviceId == service ensures !ops'[id].status.Live() {
      assert id !in OpsOfService(ops, service, Running);
    }
  }

  lemma DeletionKeepsReadModels(ops: map<Id, Operation>, mirrors: map<Id, DatabaseOperation>,
      deployments: map<Id, Deployment>, service: string, now: Time)
    requires RowsOk(ops) && MirrorsAgree(ops, mirrors) && DeploymentsOk(ops, mirrors, deployments)
    ensures var ops', mirrors' := CancelledByDelete(ops, service, now), MirrorsCancelledByDelete(mirrors, service, now);
      MirrorsAgree(ops', mirrors') && DeploymentsOk(ops', mirrors', deployments)
  {
    var ops', mirrors' := CancelledByDelete(ops, service, now), MirrorsCancelledByDelete(mirrors, service, now);
    forall id | id in mirrors' ensures id in ops' && Agree(ops'[id], mirrors'[id]) {
      assert Agree(ops[id], mirrors[id]);
    }
    forall id | id in deployments ensures id !in mirrors' && DeploymentOk(ops', id, deployments[id]) {}
  }

  lemma DeletionKeepsInstances(ops: map<Id, Operation>, ops': map<Id, Operation>, instances: map<string, Instance>,
      service: string, now: Time)
    requires InstancesOk(ops, instances) && RowsEvolve(ops, ops') && ops'.Keys == ops.Keys && Idle(ops', service)
    ensures InstancesOk(ops', Deleting(instances, service, now))
  {
    EvolvingKeepsInstances(ops, ops', instances);
    var instances' := Deleting(instances, service, now);
    forall i | i in instances' && instances'[i].desired != DesiredDeleted
      ensures Open(instances', instances'[i].serviceId)
    {
      assert Open(instances, instances[i].serviceId);
    }
  }

  lemma BeginDeletionKeeps(s: Db, service: string, now: Time)
    requires Inv(s)
    ensures Kept(s, DeletionBegun(s, service, now))
  {
    if ServiceKnown(s.instances, service) && OpsOfService(s.ops, service, Running) != {} {
      ServiceCancelKeeps(s, service, now);
    } else if ServiceKnown(s.instances, service) && Undeleted(s.instances, service) {
      DeletionKeepsRows(s.ops, service, now);
      DeletionKeepsReadModels(s.ops, s.mirrors, s.deployments, service, now);
      DeletionKeepsInstances(s.ops, CancelledByDelete(s.ops, service, now), s.instances, service, now);
    }
  }

  lemma RetainingKeepsInstances(ops: map<Id, Operation>, instances: map<string, Instance>, service: string,
      retention: int, now: Time)
    requires InstancesOk(ops, instances)
    ensures InstancesOk(ops, Retained(instances, service, retention, now))
  {
    var instances' := Retained(instances, service, retention, now);
    forall i | i in instances' && instances'[i].desired != DesiredDeleted
      ensures Open(instances', instances'[i].serviceId)
    {
      assert Open(instances, instances[i].serviceId);
    }
  }

  lemma FinalizeKeeps(s: Db, audit: Id, service: string, retention: int, now: Time)
    requires Inv(s) && audit !in s.deployments
    ensures Kept(s, DeletionFinalized(s, audit, service, retention, now))
  {
    if FinalizeAllowed(s, audit, service, retention) {
      RetainingKeepsInstances(s.ops, s.instances, service, retention, now);
      PairKeeps(s.(instances := Retained(s.instances, service, retention, now)), audit, AuditMirror(service, now));
    }
  }

  lemma ReopeningKeepsInstances(ops: map<Id, Operation>, instances: map<string, Instance>, service: string, now: Time)
    requires InstancesOk(ops, instances)
    ensures InstancesOk(ops, Reopened(instances, service, now)) && Open(Reopened(instances, service, now), service)
  {
    var instances' := Reopened(instances, service, now);
    forall i | i in instances' && instances'[i].desired != DesiredDeleted
      ensures Open(instances', instances'[i].serviceId)
    {
      if instances[i].serviceId != service { assert Open(instances, instances[i].serviceId); }
    }
  }

  lemma RestoreDeletedKeeps(s: Db, service: string, items: seq<Item>, now: Time)
    requires Inv(s) && Enabled(s, RestoreDeleted(service, items, now))
    ensures Kept(s, ServiceRestored(s, service, items, now))
  {
    hide InstancesOk, PairsQueued, QueuedMirror, RowsOk, LocksExclusive, DeploymentsOk, TimelinesOk;
    if RestoreDeletedAllowed(s, items, now) {
      ReopeningKeepsInstances(s.ops, s.instances, service, now);
      PairsKeep(s.(instances := Reopened(s.instances, service, now)), service, items, RestoreDeletedType,
          StepVolumeReserved, now);
    }
  }

  lemma PurgeKeeps(s: Db, service: string, now: Time)
    requires Inv(s)
    ensures Kept(s, ServicePurged(s, service, now))
  {
    var s' := ServicePurged(s, service, now);
    forall i | i in s'.instances && s'.instances[i].desired != DesiredDeleted
      ensures Open(s'.instances, s'.instances[i].serviceId)
    {
      assert Open(s.instances, s.instances[i].serviceId);
    }
  }

  // ----- a new database service -------------------------------------------

  lemma {:induction false} NewInstancesOk(ops: map<Id, Operation>, instances: map<string, Instance>, service: string,
      news: seq<NewInstance>, now: Time)
    requires InstancesOk(ops, instances) && Open(instances, service)
    requires forall k | 0 <= k < |news| :: news[k].item.instance !in instances
    requires forall j, k | 0 <= j < k < |news| :: news[j].item.instance != news[k].item.instance
    ensures InstancesOk(ops, WithInstances(instances, service, news, now))
    ensures Open(WithInstances(instances, service, news, now), service)
    ensures forall i | i in WithInstances(instances, service, news, now) ::
      i in instances || exists k | 0 <= k < |news| :: news[k].item.instance == i
  {
    if news != [] {
      var front, last := news[..|news| - 1], news[|news| - 1];
      NewInstancesOk(ops, instances, service, front, now);
      var before := WithInstances(instances, service, front, now);
      assert last.item.instance !in before;
      var after := before[last.item.instance := NewInstanceRow(service, last, now)];
      forall i | i in after && after[i].desired != DesiredDeleted ensures Open(after, after[i].serviceId) {
        if i in before { assert Open(before, before[i].serviceId); }
      }
    }
  }

  lemma CreateServiceKeeps(s: Db, service: string, news: seq<NewInstance>, now: Time)
    requires Inv(s) && Enabled(s, CreateDatabaseService(service, news, now))
    ensures Kept(s, ServiceCreated(s, service, news, now))
  {
    NewInstancesOk(s.ops, s.instances, service, news, now);
    PairsKeep(s.(instances := WithInstances(s.instances, service, news, now)), service, ItemsOf(news), ProvisionType,
        StepReserved, now);
  }

  // ----- instance and job writes ------------------------------------------

  lemma ChangeKeepsInstances(ops: map<Id, Operation>, instances: map<string, Instance>, instance: string,
      c: InstanceChange, now: Time)
    requires InstancesOk(ops, instances) && ChangeApplies(instances, instance, c)
        && ProperChange(ops, instances[instance], c)
    ensures InstancesOk(ops, instances[instance := ChangedInstance(instances[instance], c, now)])
  {
    var row := instances[instance];
    var row' := ChangedInstance(row, c, now);
    var instances' := instances[instance := row'];
    if OpsOfService(ops, row.serviceId, Running) != {} {
      var id :| id in OpsOfService(ops, row.serviceId, Running);
      assert !Idle(ops, row.serviceId);
      assert Open(instances, row.serviceId);
    }
    assert row'.desired == DesiredDeleted <==> row.desired == DesiredDeleted;
    forall i | i in instances'
        && instances'[i].desired != DesiredDeleted ensures Open(instances', instances'[i].serviceId) {
      assert Open(instances, instances[i].serviceId);
    }
  }

  lemma InstanceWriteKeeps(s: Db, instance: string, c: InstanceChange, now: Time)
    requires Inv(s) && Enabled(s, WriteInstance(instance, c, now))
    ensures Kept(s, InstanceWritten(s, instance, c, now))
  {
    if ChangeApplies(s.instances, instance, c) { ChangeKeepsInstances(s.ops, s.instances, instance, c, now); }
  }

  lemma SameRowsKeep(s: Db, s': Db)
    requires Inv(s) && s'.ops == s.ops && s'.mirrors == s.mirrors && s'.instances == s.instances
    requires s'.deployments == s.deployments && s'.events == s.events
    ensures Kept(s, s')
  {}

  lemma JobWriteKeeps(s: Db, w: JobWrite, now: Time)
    requires Inv(s)
    ensures Kept(s, JobWritten(s, w, now))
  {
    hide Inv, Kept, JobWritten;
    JobWritesLeaveRest(s, w, now);
    SameRowsKeep(s, JobWritten(s, w, now));
  }
}
