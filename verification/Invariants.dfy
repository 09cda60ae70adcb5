/** What every reachable state satisfies, and the proof that each step keeps it. */
module Invariants {
  import opened Tables
  import opened Transitions
  import opened StateMachine

  // ----- operations -------------------------------------------------------

  /** Leases exist exactly while running, completion stamps exactly once terminal, and an
      operation waiting in the queue always has an attempt left. */
  predicate RowOk(o: Operation) {
    && 1 <= o.maxAttempts && 0 <= o.attempt <= o.maxAttempts
    && (o.status == Queued ==> o.attempt < o.maxAttempts)
    && (o.status == Running ==> o.attempt >= 1)
    && (o.owner != "" <==> o.status == Running)
    && (o.leaseExpiresAt.Some? <==> o.status == Running)
    && (o.completedAt.Some? <==> o.status.Terminal())
  }

  ghost predicate RowsOk(ops: map<Id, Operation>) { forall id | id in ops :: RowOk(ops[id]) }

  /** The columns the two tables share. */
  predicate Agree(o: Operation, m: DatabaseOperation) {
    && o.status == m.status && o.step == m.step && o.percent == m.percent
    && o.errorCode == m.errorCode && o.errorMessage == m.errorMessage
    && o.attempt == m.attemptCount && o.owner == m.owner && o.leaseExpiresAt == m.leaseExpiresAt
    && o.startedAt == m.startedAt && o.completedAt == m.completedAt
    && o.createdAt == m.createdAt && o.serviceId == m.serviceId
    && o.kind == DatabaseKind(m.operationType) && o.lockKey == LockKeyOf(m)
  }

  ghost predicate MirrorsAgree(ops: map<Id, Operation>, mirrors: map<Id, DatabaseOperation>) {
    forall id | id in mirrors :: id in ops && Agree(ops[id], mirrors[id])
  }

  ghost predicate LocksExclusive(ops: map<Id, Operation>) {
    forall a, b | a in ops && b in ops && ops[a].status == Running && ops[b].status == Running
        && ops[a].lockKey == ops[b].lockKey
      :: a == b
  }

  // ----- deployments and their timelines ----------------------------------

  ghost predicate DeploymentOk(ops: map<Id, Operation>, id: Id, d: Deployment) {
    && (id in ops ==> ops[id].maxAttempts == 1)
    && (d.status == DeployBuilding ==> id in ops && ops[id].status == Running)
  }

  ghost predicate DeploymentsOk(ops: map<Id, Operation>, mirrors: map<Id, DatabaseOperation>,
      deployments: map<Id, Deployment>) {
    forall id | id in deployments :: id !in mirrors && DeploymentOk(ops, id, deployments[id])
  }

  /** The statuses one deployment's events record, oldest first. */
  function Timeline(events: seq<Event>, id: Id): seq<DeployStatus> {
    if events == [] then []
    else
      var last := events[|events| - 1];
      Timeline(events[..|events| - 1], id) + (if last.deployment == id then [last.status] else [])
  }

  /** Starts QUEUED; every status but the last is one that `CanFollow` allows to be left. */
  ghost predicate Walk(t: seq<DeployStatus>) {
    && t != [] && t[0] == DeployQueued
    && forall k | 1 <= k < |t| :: CanFollow(t[k - 1], t[k])
  }

  ghost predicate WalkTo(t: seq<DeployStatus>, status: DeployStatus) {
    Walk(t) && t[|t| - 1] == status
  }

  ghost predicate TimelinesOk(deployments: map<Id, Deployment>, events: seq<Event>) {
    && (forall id | id in deployments :: WalkTo(Timeline(events, id), deployments[id].status))
    && (forall id | id !in deployments :: Timeline(events, id) == [])
  }

  // ----- database instances -----------------------------------------------

  ghost predicate InstanceOk(i: Instance) {
    && (i.deletedAt.Some? ==> i.desired == DesiredDeleted && i.containerId == "")
    && (i.deletedAt.Some? <==> i.purgeAfter.Some?)
  }

  /** No instance of the service is being or has been deleted. */
  ghost predicate Open(instances: map<string, Instance>, service: string) {
    forall i | i in instances && instances[i].serviceId == service :: instances[i].desired != DesiredDeleted
  }

  ghost predicate Idle(ops: map<Id, Operation>, service: string) {
    forall id | id in ops && ops[id].serviceId == service :: !ops[id].status.Live()
  }

  /** Deletion takes a service's instances together, and none of them has work left. */
  ghost predicate InstancesOk(ops: map<Id, Operation>, instances: map<string, Instance>) {
    forall i | i in instances ::
      && InstanceOk(instances[i])
      && (instances[i].desired == DesiredDeleted ==> Idle(ops, instances[i].serviceId))
      && (instances[i].desired != DesiredDeleted ==> Open(instances, instances[i].serviceId))
  }

  ghost predicate Inv(s: Db) {
    && RowsOk(s.ops) && MirrorsAgree(s.ops, s.mirrors) && LocksExclusive(s.ops)
    && DeploymentsOk(s.ops, s.mirrors, s.deployments) && TimelinesOk(s.deployments, s.events)
    && InstancesOk(s.ops, s.instances)
  }

  // ----- how one row may change -------------------------------------------

  datatype Move = Stay | Start | PutOff | Requeue | Finish | Drop

  function MoveOf(o: Operation, o': Operation): Move {
    match (o.status, o'.status)
    case (Queued, Running) => Start
    case (Running, Queued) => if o'.attempt < o.attempt then PutOff else Requeue
    case (Queued, Queued) => Stay
    case (Queued, _) => Drop
    case (Running, Running) => Stay
    case (Running, _) => Finish
    case _ => Stay
  }

  /** Identity columns are fixed, a cancellation request stays, a terminal row is final, a running row
      keeps its holder, only a deferral delays a row and only a requeue lifts the delay, and the attempt
      counter moves only with a claim or a deferral. */
  ghost predicate Evolves(o: Operation, o': Operation) {
    && o'.kind == o.kind && o'.lockKey == o.lockKey && o'.priority == o.priority && o'.maxAttempts == o.maxAttempts
    && o'.serviceId == o.serviceId && o'.createdAt == o.createdAt
    && (o.cancelRequestedAt.Some? ==> o'.cancelRequestedAt.Some?)
    && (o.status.Terminal() ==> o' == o)
    && (o.status == Running && o'.status == Running ==> o'.owner == o.owner)
    && (o'.availableAt == o.availableAt || MoveOf(o, o') == PutOff
       || (MoveOf(o, o') == Requeue && o'.availableAt.None?))
    && o'.attempt == o.attempt + (match MoveOf(o, o') case Start => 1 case PutOff => -1 case _ => 0)
  }

  ghost predicate RowsEvolve(ops: map<Id, Operation>, ops': map<Id, Operation>) {
    && (forall id | id in ops :: id in ops' && Evolves(ops[id], ops'[id]))
    && (forall id | id in ops' && id !in ops ::
          ops'[id].attempt == 0 && ops'[id].status != Running && ops'[id].cancelRequestedAt.None?)
  }

  /** What a step owes: the invariant again, and only permitted row changes. */
  ghost predicate Kept(s: Db, s': Db) { Inv(s') && RowsEvolve(s.ops, s'.ops) }

  // ----- timelines --------------------------------------------------------

  lemma TimelineAppend(events: seq<Event>, e: Event, id: Id)
    ensures Timeline(events + [e], id) == Timeline(events, id) + (if e.deployment == id then [e.status] else [])
  {
    assert (events + [e])[..|events|] == events;
  }

  lemma {:induction false} TimelineInterruptions(events: seq<Event>, order: seq<Id>, now: Time, id: Id)
    requires forall j, k | 0 <= j < k < |order| :: order[j] != order[k]
    ensures Timeline(events + Interruptions(order, now), id)
         == Timeline(events, id) + (if id in order then [DeployFailed] else [])
  {
    if order == [] {
      assert events + Interruptions(order, now) == events;
    } else {
      var front, last := order[..|order| - 1], order[|order| - 1];
      TimelineInterruptions(events, front, now, id);
      var e := Event(last, DeployFailed, Interrupted, now);
      assert events + Interruptions(order, now) == (events + Interruptions(front, now)) + [e];
      TimelineAppend(events + Interruptions(front, now), e, id);
      assert order == front + [last];
    }
  }

  lemma WalkExtends(t: seq<DeployStatus>, a: DeployStatus, b: DeployStatus)
    requires WalkTo(t, a)
    ensures WalkTo(t + [b], b) <==> CanFollow(a, b)
  {
    var t' := t + [b];
    if CanFollow(a, b) {
      forall k | 1 <= k < |t'| ensures CanFollow(t'[k - 1], t'[k]) {}
    } else {
      assert t'[|t| - 1] == a && t'[|t|] == b;
    }
  }

  lemma ProjectionKeepsTimelines(deployments: map<Id, Deployment>, events: seq<Event>, id: Id,
      row: Option<Deployment>, detail: Note, now: Time)
    requires TimelinesOk(deployments, events)
    requires row.Some? ==>
      if id in deployments then CanFollow(deployments[id].status, row.value.status)
          else row.value.status == DeployQueued
    ensures TimelinesOk(PutDeployment(deployments, id, row), PutEvent(events, id, row, detail, now))
  {
    if row.Some? {
      var e := Event(id, row.value.status, detail, now);
      forall other { TimelineAppend(events, e, other); }
      if id in deployments {
        WalkExtends(Timeline(events, id), deployments[id].status, row.value.status);
      }
      var deployments' := deployments[id := row.value];
      forall other | other in deployments' ensures WalkTo(Timeline(events + [e], other), deployments'[other].status) {}
    }
  }

  /** UpdateDeploymentStatus refuses only CANCELLED rows: it keeps the timeline a walk
      exactly when the row is cancelled or absent, or the new status may follow the current one. */
  lemma UpdateKeepsTimelinesIff(s: Db, id: Id, status: DeployStatus, message: Note, now: Time)
    requires TimelinesOk(s.deployments, s.events)
    ensures var s' := DeploymentUpdated(s, id, status, message, now);
      TimelinesOk(s'.deployments, s'.events)
      <==> (id in s.deployments && s.deployments[id].status != DeployCancelled ==>
        CanFollow(s.deployments[id].status, status))
  {
    var row := UpdatedDeployment(s.deployments, id, status, message, now);
    if row.None? || CanFollow(s.deployments[id].status, status) {
      ProjectionKeepsTimelines(s.deployments, s.events, id, row, message, now);
    } else {
      TimelineAppend(s.events, Event(id, status, message, now), id);
      WalkExtends(Timeline(s.events, id), s.deployments[id].status, status);
    }
  }

  // ----- steps on one row -------------------------------------------------

  lemma PointKeepsRows(ops: map<Id, Operation>, id: Id, o': Operation)
    requires RowsOk(ops) && LocksExclusive(ops) && id in ops && RowOk(o') && Evolves(ops[id], o')
    requires ops[id].status == Queued && o'.status == Running ==> LockFree(ops, o'.lockKey)
    ensures RowsOk(ops[id := o']) && LocksExclusive(ops[id := o']) && RowsEvolve(ops, ops[id := o'])
  {
    var ops' := ops[id := o'];
    forall a, b | a in ops' && b in ops' && ops'[a].status == Running && ops'[b].status == Running
        && ops'[a].lockKey == ops'[b].lockKey
      ensures a == b
    {
    }
    forall other | other in ops ensures Evolves(ops[other], ops'[other]) {}
  }

  lemma PointKeepsMirrors(ops: map<Id, Operation>, mirrors: map<Id, DatabaseOperation>, id: Id, o': Operation,
      m: Option<DatabaseOperation>)
    requires MirrorsAgree(ops, mirrors) && id in ops
    requires id in mirrors && m.None? ==> Agree(o', mirrors[id])
    requires m.Some? ==> id in mirrors && Agree(o', m.value)
    ensures MirrorsAgree(ops[id := o'], PutMirror(mirrors, id, m))
  {}

  lemma PointKeepsDeployments(s: Db, id: Id, o': Operation, m: Option<DatabaseOperation>, row: Option<Deployment>)
    requires DeploymentsOk(s.ops, s.mirrors, s.deployments) && id in s.ops && o'.maxAttempts == s.ops[id].maxAttempts
    requires m.Some? ==> id in s.mirrors
    requires row.Some? ==> id in s.deployments
    requires id in s.deployments && o'.status != Running ==>
      (if row.Some? then row.value.status else s.deployments[id].status) != DeployBuilding
    ensures DeploymentsOk(s.ops[id := o'], PutMirror(s.mirrors, id, m), PutDeployment(s.deployments, id, row))
  {}

  lemma EvolvingKeepsInstances(ops: map<Id, Operation>, ops': map<Id, Operation>, instances: map<string, Instance>)
    requires InstancesOk(ops, instances) && RowsEvolve(ops, ops') && ops'.Keys == ops.Keys
    ensures InstancesOk(ops', instances)
  {
    forall i | i in instances && instances[i].desired == DesiredDeleted
      ensures Idle(ops', instances[i].serviceId)
    {
      assert Idle(ops, instances[i].serviceId);
    }
  }

  /** A step on one operation keeps the invariant when its new row is well formed, its mirror gets
      the same columns, and the deployment moves on as the row does. */
  lemma TouchKeeps(s: Db, id: Id, o': Operation, m: Option<DatabaseOperation>, row: Option<Deployment>, detail: Note,
      now: Time)
    requires Inv(s) && id in s.ops && RowOk(o') && Evolves(s.ops[id], o')
    requires s.ops[id].status == Queued && o'.status == Running ==> LockFree(s.ops, o'.lockKey)
    requires id in s.mirrors && m.None? ==> Agree(o', s.mirrors[id])
    requires m.Some? ==> id in s.mirrors && Agree(o', m.value)
    requires row.Some? ==> id in s.deployments && CanFollow(s.deployments[id].status, row.value.status)
    requires id in s.deployments && o'.status != Running ==>
      (if row.Some? then row.value.status else s.deployments[id].status) != DeployBuilding
    ensures Kept(s, Touched(s, id, o', m, row, detail, now))
  {
    PointKeepsRows(s.ops, id, o');
    PointKeepsMirrors(s.ops, s.mirrors, id, o', m);
    PointKeepsDeployments(s, id, o', m, row);
    ProjectionKeepsTimelines(s.deployments, s.events, id, row, detail, now);
    EvolvingKeepsInstances(s.ops, s.ops[id := o'], s.instances);
  }

  lemma ClaimedRowOk(o: Operation, owner: string, expires: Time, now: Time)
    requires RowOk(o) && o.status == Queued && owner != ""
    ensures RowOk(ClaimedRow(o, owner, expires, now)) && Evolves(o, ClaimedRow(o, owner, expires, now))
  {}

  lemma ClaimedMirrorAgrees(o: Operation, m: DatabaseOperation, owner: string, expires: Time, now: Time)
    requires Agree(o, m)
    ensures Agree(ClaimedRow(o, owner, expires, now), ClaimedMirror(m, owner, expires, now))
  {}

  lemma ClaimKeeps(s: Db, id: Id, options: ClaimOptions, now: Time)
    requires Inv(s) && options.Valid() && Runnable(s.ops, id, options, now)
    ensures Kept(s, Claimed(s, id, options, now))
  {
    var expires := now + options.lease;
    var o' := ClaimedRow(s.ops[id], options.owner, expires, now);
    var m := if id in s.mirrors then Some(ClaimedMirror(s.mirrors[id], options.owner, expires, now)) else None;
    var row := BuildingDeployment(s.deployments, id, now);
    assert Claimed(s, id, options, now) == Touched(s, id, o', m, row, Blank, now);
    ClaimedRowOk(s.ops[id], options.owner, expires, now);
    if m.Some? { ClaimedMirrorAgrees(s.ops[id], s.mirrors[id], options.owner, expires, now); }
    TouchKeeps(s, id, o', m, row, Blank, now);
  }

  lemma RenewKeeps(s: Db, id: Id, owner: string, lease: int, now: Time)
    requires Inv(s)
    ensures Kept(s, Renewed(s, id, owner, lease, now))
  {
    if Holds(s, id, owner) {
      TouchKeeps(s, id, RenewedRow(s.ops[id], now + lease, now),
                 if id in s.mirrors then Some(RenewedMirror(s.mirrors[id], now + lease, now))
                     else None, None, Blank, now);
    }
  }

  lemma DeferKeeps(s: Db, id: Id, owner: string, retryAfter: int, now: Time)
    requires Inv(s)
    ensures Kept(s, Deferred(s, id, owner, retryAfter, now))
  {
    if Holds(s, id, owner) {
      TouchKeeps(s, id, DeferredRow(s.ops[id], now + Max(retryAfter, 0), now),
                 if id in s.mirrors then Some(DeferredMirror(s.mirrors[id], now)) else None,
                 RequeuedDeployment(s.deployments, id, now), Blank, now);
    }
  }

  lemma CompleteKeeps(s: Db, id: Id, owner: string, c: Completion, now: Time)
    requires Inv(s)
    ensures Kept(s, Completed(s, id, owner, c, now))
  {
    if c.status.Terminal() && Holds(s, id, owner) {
      TouchKeeps(s, id, CompletedRow(s.ops[id], c, now),
                 if id in s.mirrors then Some(CompletedMirror(s.mirrors[id], c, now)) else None,
                 FinishedDeployment(s.deployments, id, c.status, c.errorMessage, now), c.errorMessage, now);
    }
  }

  lemma ProgressKeeps(s: Db, id: Id, r: Report, now: Time)
    requires Inv(s) && Enabled(s, Progress(id, r, now))
    ensures Kept(s, ReportApplied(s, id, r, now))
  {
    if 0 <= r.percent <= 100 && id in s.mirrors {
      TouchKeeps(s, id, ReportedRow(s.ops[id], r, now), Some(ReportedMirror(s.mirrors[id], r, now)), None, Blank, now);
    }
  }

  lemma RequestCancelKeeps(s: Db, id: Id, now: Time)
    requires Inv(s)
    ensures Kept(s, CancelRequested(s, id, now))
  {
    if id in s.ops && s.ops[id].status == Running && s.ops[id].cancelRequestedAt.None? {
      TouchKeeps(s, id, CancelRequestedRow(s.ops[id], now), None, None, Blank, now);
    } else if id in s.ops && s.ops[id].status == Queued {
      TouchKeeps(s, id, CancelledRow(s.ops[id], now),
                 if id in s.mirrors then Some(CancelledMirror(s.mirrors[id], now)) else None,
                 FinishedDeployment(s.deployments, id, Cancelled, Blank, now), Blank, now);
    }
  }

  // ----- inserts ----------------------------------------------------------

  lemma InsertKeepsRows(ops: map<Id, Operation>, id: Id, o: Operation)
    requires RowsOk(ops) && LocksExclusive(ops) && id !in ops
    requires RowOk(o) && o.attempt == 0 && o.status != Running && o.cancelRequestedAt.None?
    ensures RowsOk(ops[id := o]) && LocksExclusive(ops[id := o]) && RowsEvolve(ops, ops[id := o])
  {}

  lemma InsertKeepsInstances(ops: map<Id, Operation>, id: Id, o: Operation, instances: map<string, Instance>)
    requires InstancesOk(ops, instances) && id !in ops
    requires o.status.Live() ==> Open(instances, o.serviceId)
    ensures InstancesOk(ops[id := o], instances)
  {
    forall i | i in instances && instances[i].desired == DesiredDeleted
      ensures Idle(ops[id := o], instances[i].serviceId)
    {
      assert Idle(ops, instances[i].serviceId);
    }
  }

  /** A row inserted under an unused operation id, with or without its read-model row, for a service
      that is not being deleted unless the row is already terminal. */
  lemma InsertKeeps(s: Db, id: Id, o: Operation, m: Option<DatabaseOperation>)
    requires Inv(s) && id !in s.ops
    requires RowOk(o) && o.attempt == 0 && o.status != Running && o.cancelRequestedAt.None?
    requires m.Some? ==> Agree(o, m.value) && id !in s.deployments
    requires id in s.deployments ==> o.maxAttempts == 1
    requires o.status.Live() ==> Open(s.instances, o.serviceId)
    ensures Kept(s, s.(ops := s.ops[id := o], mirrors := PutMirror(s.mirrors, id, m)))
  {
    InsertKeepsRows(s.ops, id, o);
    InsertKeepsInstances(s.ops, id, o, s.instances);
    assert MirrorsAgree(s.ops[id := o], PutMirror(s.mirrors, id, m));
    assert DeploymentsOk(s.ops[id := o], PutMirror(s.mirrors, id, m), s.deployments);
  }

  lemma EnqueueKeeps(s: Db, id: Id, input: NewOperation, now: Time)
    requires Inv(s) && Enabled(s, Enqueue(id, input, now))
    ensures Kept(s, Enqueued(s, id, input, now))
  {
    if Enqueued(s, id, input, now) != s {
      InsertKeeps(s, id, NewRow(input, now), None);
    }
  }

  lemma PairKeeps(s: Db, id: Id, m: DatabaseOperation)
    requires Inv(s) && Unused(s, id)
    requires RowOk(QueueRow(m)) && Agree(QueueRow(m), m) && m.status != Running
    requires m.status.Live() ==> Open(s.instances, m.serviceId)
    ensures Kept(s, WithPair(s, id, m))
  {
    InsertKeeps(s, id, QueueRow(m), Some(m));
  }

  lemma InstanceActionKeeps(s: Db, id: Id, instance: string, action: OperationType, now: Time)
    requires Inv(s) && id !in s.deployments
    ensures Kept(s, InstanceActionQueued(s, id, instance, action, now))
  {
    if InstanceActionAllowed(s, id, instance, action) {
      var i := s.instances[instance];
      var s1 := s.(instances := s.instances[instance := InstanceAfterAction(i, action, now)]);
      assert Open(s1.instances, i.serviceId);
      assert Inv(s1);
      PairKeeps(s1, id, QueuedMirror(i.serviceId, instance, action, StepQueued, now));
    }
  }

  lemma UpgradeKeeps(s: Db, id: Id, instance: string, version: string, image: string, now: Time)
    requires Inv(s) && id !in s.deployments
    ensures Kept(s, UpgradeQueued(s, id, instance, version, image, now))
  {
    if UpgradeAllowed(s, id, instance, version, image) {
      PairKeeps(s.(upgrades := s.upgrades[id := Companion(Some(id), instance, NoTrigger, JobQueued, {}, now)]), id,
                QueuedMirror(s.instances[instance].serviceId, instance, UpgradeType, StepQueued, now));
    }
  }

  lemma BackupKeeps(s: Db, id: Id, r: BackupRequest, now: Time)
    requires Inv(s) && id !in s.deployments
    ensures Kept(s, BackupQueued(s, id, r, now))
  {
    if BackupAllowed(s, id, r, now) {
      PairKeeps(s.(backups := s.backups[r.backupId := Companion(Some(id), r.instance, r.trigger, JobQueued, {},
          now)]), id,
                QueuedMirror(s.instances[r.instance].serviceId, r.instance, BackupType, StepQueued, now));
    }
  }

  lemma RestoreKeeps(s: Db, id: Id, r: RestoreRequest, now: Time)
    requires Inv(s) && id !in s.deployments
    ensures Kept(s, RestoreQueued(s, id, r, now))
  {
    if RestoreAllowed(s, id, r, now) {
      PairKeeps(s.(restores := s.restores[id := Companion(Some(id), r.target, NoTrigger, JobQueued, UsedBackups(r),
          now)]), id,
                QueuedMirror(s.instances[r.target].serviceId, r.target, RestoreType, StepWaitingForTarget, now));
    }
  }

  ghost predicate Extends(ops: map<Id, Operation>, ops': map<Id, Operation>) {
    && (forall id | id in ops :: id in ops' && ops'[id] == ops[id])
    && (forall id | id in ops' && id !in ops ::
          ops'[id].attempt == 0 && ops'[id].status != Running && ops'[id].cancelRequestedAt.None?)
  }

  lemma {:induction false} PairsLeaveUnused(s: Db, service: string, items: seq<Item>, operationType: OperationType,
      step: StepName, now: Time, id: Id)
    requires Unused(s, id) && forall k | 0 <= k < |items| :: items[k].operation != id
    ensures Unused(PairsQueued(s, service, items, operationType, step, now), id)
  {
    if items != [] {
      PairsLeaveUnused(s, service, items[..|items| - 1], operationType, step, now, id);
    }
  }

  lemma QueuedPairFits(service: string, instance: string, operationType: OperationType, step: StepName, now: Time)
    ensures var m := QueuedMirror(service, instance, operationType, step, now);
      RowOk(QueueRow(m)) && Agree(QueueRow(m), m) && QueueRow(m).status == Queued && QueueRow(m).attempt == 0
          && QueueRow(m).cancelRequestedAt.None?
  {}

  lemma {:induction false} PairsKeep(s: Db, service: string, items: seq<Item>, operationType: OperationType,
      step: StepName, now: Time)
    requires Inv(s) && Open(s.instances, service)
    requires forall k | 0 <= k < |items| :: Unused(s, items[k].operation)
    requires forall j, k | 0 <= j < k < |items| :: items[j].operation != items[k].operation
    ensures Inv(PairsQueued(s, service, items, operationType, step, now))
    ensures PairsQueued(s, service, items, operationType, step, now).instances == s.instances
    ensures Extends(s.ops, PairsQueued(s, service, items, operationType, step, now).ops)
  {
    hide RowsOk, LocksExclusive, MirrorsAgree, DeploymentsOk, TimelinesOk, InstancesOk, QueueRow, RowOk, Agree;
    if items != [] {
      var front, last := items[..|items| - 1], items[|items| - 1];
      PairsKeep(s, service, front, operationType, step, now);
      PairsLeaveUnused(s, service, front, operationType, step, now, last.operation);
      var s1 := PairsQueued(s, service, front, operationType, step, now);
      QueuedPairFits(service, last.instance, operationType, step, now);
      PairKeeps(s1, last.operation, QueuedMirror(service, last.instance, operationType, step, now));
    }
  }

  // ----- deployments ------------------------------------------------------

  lemma DeploymentStepKeeps(s: Db, id: Id, row: Option<Deployment>, detail: Note, now: Time)
    requires Inv(s)
    requires row.Some? ==>
      if id in s.deployments then CanFollow(s.deployments[id].status, row.value.status)
      else Unused(s, id) && row.value.status == DeployQueued
    requires row.Some? && row.value.status == DeployBuilding ==> id in s.ops && s.ops[id].status == Running
    ensures Kept(s, Project(s, id, row, detail, now))
  {
    ProjectionKeepsTimelines(s.deployments, s.events, id, row, detail, now);
  }

  lemma CancelDeploymentKeeps(s: Db, id: Id, now: Time)
    requires Inv(s)
    ensures Kept(s, DeploymentCancelled(s, id, now))
  {
    DeploymentStepKeeps(s, id, CancelledDeployment(s.deployments, id, now), CancelledByOperator, now);
  }

  lemma UpdateDeploymentKeeps(s: Db, id: Id, status: DeployStatus, message: Note, now: Time)
    requires Inv(s) && Enabled(s, UpdateDeployment(id, status, message, now))
    ensures Kept(s, DeploymentUpdated(s, id, status, message, now))
  {
    DeploymentStepKeeps(s, id, UpdatedDeployment(s.deployments, id, status, message, now), message, now);
  }
}
