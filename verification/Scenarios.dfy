/** Runs, step by step from the empty database, that end where the code does less than one might expect. */
module Scenarios {
  import opened Tables
  import opened Transitions
  import opened StateMachine
  import opened Invariants
  import opened Runs

  ghost function Last(r: Run): Db
    requires r.states != []
  {
    r.states[|r.states| - 1]
  }

  ghost function Then(r: Run, step: Step): Run
    requires r.states != [] && Enabled(Last(r), step)
  {
    Run(r.states + [Effect(Last(r), step)], r.steps + [step])
  }

  lemma ThenIsValid(r: Run, step: Step)
    requires r.Valid() && Enabled(Last(r), step)
    ensures Then(r, step).Valid() && Last(Then(r, step)) == Effect(Last(r), step)
    ensures Then(r, step).steps == r.steps + [step] && Then(r, step).states == r.states + [Effect(Last(r), step)]
  {
    hide Enabled, Effect;
    var r' := Then(r, step);
    forall k | 0 <= k < |r'.steps| ensures Next(r'.states[k], r'.steps[k], r'.states[k + 1]) {
      if k < |r.steps| { assert Next(r.states[k], r.steps[k], r.states[k + 1]); }
    }
  }

  /** A database with one database operation. */
  function Single(id: Id, o: Operation, m: DatabaseOperation, instances: map<string, Instance>): Db {
    Db(map[id := o], map[id := m], map[], map[], map[], map[], [], instances)
  }

  lemma OnlyOneToClaim(id: Id, o: Operation, options: ClaimOptions, now: Time)
    requires o.status == Queued && o.availableAt.None? && o.attempt < o.maxAttempts
        && o.priority >= options.minPriority && options.kinds == {}
    ensures IsNext(map[id := o], id, options, now)
  {}

  lemma ClaimOfSingle(instances: map<string, Instance>, id: Id, o: Operation, m: DatabaseOperation, owner: string,
      now: Time) returns (o': Operation, m': DatabaseOperation)
    requires owner != ""
    requires o.status == Queued && o.availableAt.None? && o.attempt < o.maxAttempts && o.priority == DEFAULT_PRIORITY
    ensures var s, step := Single(id, o, m, instances), Claim(ClaimOptions(owner, 60, 0, {}), Some(id), now);
      Enabled(s, step) && Effect(s, step) == Single(id, o', m', instances)
    ensures o'.status == Running && o'.owner == owner && o'.attempt == o.attempt + 1 && o'.maxAttempts == o.maxAttempts
        && o'.priority == o.priority
    ensures o'.serviceId == o.serviceId && m'.operationType == m.operationType
  {
    OnlyOneToClaim(id, o, ClaimOptions(owner, 60, 0, {}), now);
    o', m' := ClaimedRow(o, owner, now + 60, now), ClaimedMirror(m, owner, now + 60, now);
    assert map[id := o][id := o'] == map[id := o'] && map[id := m][id := m'] == map[id := m'];
  }

  lemma RecoveryOfSingle(instances: map<string, Instance>, id: Id, o: Operation, m: DatabaseOperation, now: Time)
    returns (o': Operation, m': DatabaseOperation)
    requires IsAbandoned(o)
    ensures var s, step := Single(id, o, m, instances), Recover(now, [], []);
      Enabled(s, step) && Effect(s, step) == Single(id, o', m', instances)
    ensures o' == RequeuedRow(o, now)
  {
    var s := Single(id, o, m, instances);
    o', m' := RequeuedRow(o, now), RequeuedMirror(m, now);
    assert Exhausted(s.ops) == {} && ExhaustedDeploys(s) == {} && OrphanDeploys(s) == {};
    assert id in Abandoned(s.ops);
    assert RecoveredOps(s.ops, now) == map[id := o'];
    assert RecoveredMirrors(s, now) == map[id := m'];
    assert s.events + Interruptions([], now) + Interruptions([], now) == [];
  }

  lemma CreationOfInstance(service: string, n: NewInstance)
    returns (instances: map<string, Instance>, o: Operation, m: DatabaseOperation)
    ensures var step := CreateDatabaseService(service, [n], 0);
      Enabled(EMPTY, step) && Effect(EMPTY, step) == Single(n.item.operation, o, m, instances)
    ensures instances == map[n.item.instance := NewInstanceRow(service, n, 0)]
    ensures o.status == Queued && o.availableAt.None? && o.attempt == 0 && o.maxAttempts == DEFAULT_MAX_ATTEMPTS
    ensures o.priority == DEFAULT_PRIORITY && o.serviceId == service && m.operationType == ProvisionType
  {
    m := QueuedMirror(service, n.item.instance, ProvisionType, StepReserved, 0);
    o := QueueRow(m);
    instances := map[n.item.instance := NewInstanceRow(service, n, 0)];
    assert [n][..0] == [] && ItemsOf([n]) == [n.item] && [n.item][..0] == [];
    assert WithInstances(map[], service, [n], 0) == instances;
    var empty := EMPTY.(instances := instances);
    assert PairsQueued(empty, service, [], ProvisionType, StepReserved, 0) == empty;
  }

  /** Worker `a` claims a provisioning, another process starts on the same database and recovers, worker `b`
      claims it again. A report that still comes from the handler of `a` then completes the operation under `b`. */
  lemma SupersededHandlerEndsTheRun(service: string, instance: string, id: Id, a: string, b: string) returns (r: Run)
    requires a != "" && b != "" && a != b
    ensures r.Valid() && |r.steps| == 5
    ensures r.steps[1].Claim? && r.steps[1].options.owner == a && r.steps[2].Recover? && r.steps[3].Claim?
        && r.steps[3].options.owner == b
    ensures Holds(r.states[2], id, a) && Holds(r.states[4], id, b) && !Holds(r.states[4], id, a)
    ensures r.steps[4] == Progress(id, Report(Success, NoStep, 100, Blank, Blank), 4)
    ensures id in r.states[5].ops && r.states[5].ops[id].status == Success && !Holds(r.states[5], id, b)
  {
    hide Enabled, Effect, Single, IsAbandoned, RequeuedRow, Holds;
    var instances, o1, m1 := CreationOfInstance(service, NewInstance(Item(instance, id), "", ""));
    var o2, m2 := ClaimOfSingle(instances, id, o1, m1, a, 1);
    AbandonedAfterOne(o2);
    var o3, m3 := RecoveryOfSingle(instances, id, o2, m2, 2);
    RequeuedWaits(o2, 2);
    var o4, m4 := ClaimOfSingle(instances, id, o3, m3, b, 3);
    SingleHolds(id, o2, m2, instances);
    SingleHolds(id, o4, m4, instances);
    ReportOnSingle(id, o4, m4, instances, b, 4);
    StartIsValid();
    r := Grow(Run([EMPTY], []), CreateDatabaseService(service, [NewInstance(Item(instance, id), "", "")], 0));
    r := Grow(r, Claim(ClaimOptions(a, 60, 0, {}), Some(id), 1));
    r := Grow(r, Recover(2, [], []));
    r := Grow(r, Claim(ClaimOptions(b, 60, 0, {}), Some(id), 3));
    r := Grow(r, Progress(id, Report(Success, NoStep, 100, Blank, Blank), 4));
  }

  lemma StartIsValid()
    ensures Run([EMPTY], []).Valid()
  {}

  lemma Grow(r: Run, step: Step) returns (r': Run)
    requires r.Valid() && Enabled(Last(r), step)
    ensures r'.Valid() && r'.steps == r.steps + [step] && r'.states == r.states + [Effect(Last(r), step)]
    ensures Last(r') == Effect(Last(r), step)
  {
    ThenIsValid(r, step);
    r' := Then(r, step);
  }

  lemma SingleHolds(id: Id, o: Operation, m: DatabaseOperation, instances: map<string, Instance>)
    ensures forall other :: Holds(Single(id, o, m, instances), id, other) <==> o.status == Running && o.owner == other
  {}

  lemma AbandonedAfterOne(o: Operation)
    requires o.status == Running && o.attempt == 1 && o.maxAttempts == DEFAULT_MAX_ATTEMPTS
    ensures IsAbandoned(o)
  {}

  lemma RequeuedWaits(o: Operation, now: Time)
    ensures RequeuedRow(o, now).status == Queued && RequeuedRow(o, now).availableAt.None?
    ensures RequeuedRow(o, now).attempt == o.attempt && RequeuedRow(o, now).maxAttempts == o.maxAttempts
        && RequeuedRow(o, now).priority == o.priority
  {}

  lemma ReportOnSingle(id: Id, o: Operation, m: DatabaseOperation, instances: map<string, Instance>, owner: string,
      now: Time)
    requires o.status == Running
    ensures var s, step := Single(id, o, m, instances), Progress(id, Report(Success, NoStep, 100, Blank, Blank), now);
      && Enabled(s, step)
      && id in Effect(s, step).ops && Effect(s, step).ops[id].status == Success && !Holds(Effect(s, step), id, owner)
  {}

  // ----- a deploy ---------------------------------------------------------

  lemma DeployCreated(id: Id, service: string)
    ensures var step := CreateDeployment(id, service, 0);
      && Enabled(EMPTY, step)
      && Effect(EMPTY, step) == Db(map[], map[], map[id := Deployment(service, DeployQueued, Blank, None, 0, 0)],
         map[], map[], map[],
                                   [Event(id, DeployQueued, Blank, 0)], map[])
  {
    assert [] + [Event(id, DeployQueued, Blank, 0)] == [Event(id, DeployQueued, Blank, 0)];
  }

  function DeployInput(kind: Kind, lockKey: LockKey, service: string): NewOperation {
    NewOperation(kind, lockKey, Queued, 0, 1, NoStep, service)
  }

  lemma DeployEnqueued(s: Db, id: Id, kind: Kind, lockKey: LockKey, service: string)
    requires kind != NamedKind("") && lockKey != NamedLock("")
    requires s.ops == map[] && s.instances == map[] && id in s.deployments
    ensures var step := Enqueue(id, DeployInput(kind, lockKey, service), 0);
      Enabled(s, step) && Effect(s, step) == s.(ops := map[id := NewRow(DeployInput(kind, lockKey, service), 0)])
  {}

  lemma DeployClaimed(s: Db, id: Id, o: Operation, owner: string)
    requires owner != "" && s.ops == map[id := o] && id in s.deployments && s.deployments[id].status == DeployQueued
    requires o.status == Queued && o.availableAt.None? && o.attempt < o.maxAttempts && o.priority == DEFAULT_PRIORITY
    ensures var step := Claim(ClaimOptions(owner, 60, 0, {}), Some(id), 1);
      Enabled(s, step) && id in Effect(s, step).deployments && Effect(s, step).deployments[id].status == DeployBuilding
  {
    OnlyOneToClaim(id, o, ClaimOptions(owner, 60, 0, {}), 1);
  }

  lemma DeployPromoted(s: Db, id: Id)
    requires id in s.deployments && s.deployments[id].status == DeployBuilding
    ensures var step := UpdateDeployment(id, DeploySuccess, Blank, 2);
      Enabled(s, step) && id in Effect(s, step).deployments && Effect(s, step).deployments[id].status == DeploySuccess
  {}

  /** A deploy is created, queued, claimed and promoted; the FAILED write that follows when it cannot be
      activated then succeeds as well, and the timeline holds two terminal events. */
  lemma SuccessCanBeOverwritten(id: Id, kind: Kind, lockKey: LockKey, service: string, owner: string) returns (r: Run)
    requires kind != NamedKind("") && lockKey != NamedLock("") && owner != ""
    ensures r.Valid() && id in Last(r).deployments && Last(r).deployments[id].status == DeploySuccess
    ensures var s' := DeploymentUpdated(Last(r), id, DeployFailed, Blank, 3);
      && id in s'.deployments && s'.deployments[id].status == DeployFailed
      && TimelinesOk(Last(r).deployments, Last(r).events) && !TimelinesOk(s'.deployments, s'.events)
  {
    hide Enabled, Effect, Inv;
    DeployCreated(id, service);
    StartIsValid();
    r := Grow(Run([EMPTY], []), CreateDeployment(id, service, 0));
    DeployEnqueued(Last(r), id, kind, lockKey, service);
    r := Grow(r, Enqueue(id, DeployInput(kind, lockKey, service), 0));
    DeployClaimed(Last(r), id, NewRow(DeployInput(kind, lockKey, service), 0), owner);
    r := Grow(r, Claim(ClaimOptions(owner, 60, 0, {}), Some(id), 1));
    DeployPromoted(Last(r), id);
    r := Grow(r, UpdateDeployment(id, DeploySuccess, Blank, 2));
    FailedOverSuccess(r, id);
  }

  lemma FailedOverSuccess(r: Run, id: Id)
    requires r.Valid() && id in Last(r).deployments && Last(r).deployments[id].status == DeploySuccess
    ensures var s' := DeploymentUpdated(Last(r), id, DeployFailed, Blank, 3);
      && id in s'.deployments && s'.deployments[id].status == DeployFailed
      && TimelinesOk(Last(r).deployments, Last(r).events) && !TimelinesOk(s'.deployments, s'.events)
  {
    hide Enabled, Effect;
    ReachableInv(r, |r.states| - 1);
    UpdateKeepsTimelinesIff(Last(r), id, DeployFailed, Blank, 3);
  }

  // ----- a database that serves -------------------------------------------

  /** A healthy, running instance and nothing queued or running: what a completed provisioning leaves. */
  ghost predicate Serving(s: Db, service: string, instance: string, version: string) {
    && instance in s.instances && s.instances[instance].serviceId == service
       && s.instances[instance].engineVersion == version
    && Ready(s, instance) && s.instances[instance].containerId != "" && s.instances[instance].imageRef == ""
    && s.ops.Keys == s.mirrors.Keys == {1} && s.mirrors[1].operationType == ProvisionType && s.ops[1].status == Success
    && s.deployments == map[] && s.backups == map[] && s.restores == map[] && s.upgrades == map[]
  }

  lemma HealthReported(instances: map<string, Instance>, service: string, instance: string, container: string,
      o: Operation, m: DatabaseOperation)
    requires container != "" && instance in instances && instances[instance].serviceId == service
        && instances[instance].deletedAt.None?
    requires o.status == Running && o.serviceId == service
    ensures var s := Single(1, o, m, instances);
      var step := WriteInstance(instance, StateChange(false, container, Some(DesiredRunning), Some(Healthy)), 2);
      Enabled(s, step) && Effect(s, step) == Single(1, o, m, WrittenInstances(instances, instance, step.change, 2))
  {
    assert 1 in OpsOfService(Single(1, o, m, instances).ops, service, Running);
  }

  lemma ProvisionCompleted(instances: map<string, Instance>, instance: string, service: string, version: string,
                           o: Operation, m: DatabaseOperation, owner: string)
    requires o.status == Running && o.owner == owner && m.operationType == ProvisionType
    requires instance in instances && instances[instance].serviceId == service && instances[instance].deletedAt.None?
    requires instances[instance].desired == DesiredRunning && instances[instance].status == Healthy
    requires instances[instance].containerId != "" && instances[instance].imageRef == ""
        && instances[instance].engineVersion == version
    ensures var s, step := Single(1, o, m, instances), Complete(1, owner, Completion(Success, NoStep, Blank, Blank), 3);
      Enabled(s, step) && Serving(Effect(s, step), service, instance, version)
  {}

  /** A service is created, provisioned by a worker that reports it healthy, and completed. */
  lemma ServiceServes(service: string, instance: string, version: string, container: string, owner: string)
    returns (r: Run)
    requires container != "" && owner != ""
    ensures r.Valid() && |r.steps| == 4 && |r.states| == 5 && Serving(Last(r), service, instance, version)
  {
    hide Enabled, Effect, Single, Serving, WrittenInstances;
    var n := NewInstance(Item(instance, 1), "", version);
    var instances, o1, m1 := CreationOfInstance(service, n);
    var o2, m2 := ClaimOfSingle(instances, 1, o1, m1, owner, 1);
    NewInstanceFacts(service, n);
    HealthReported(instances, service, instance, container, o2, m2);
    var change := StateChange(false, container, Some(DesiredRunning), Some(Healthy));
    var healthy := WrittenInstances(instances, instance, change, 2);
    HealthyFacts(instances, instance, change);
    ProvisionCompleted(healthy, instance, service, version, o2, m2, owner);
    StartIsValid();
    r := Grow(Run([EMPTY], []), CreateDatabaseService(service, [n], 0));
    r := Grow(r, Claim(ClaimOptions(owner, 60, 0, {}), Some(1), 1));
    r := Grow(r, WriteInstance(instance, change, 2));
    r := Grow(r, Complete(1, owner, Completion(Success, NoStep, Blank, Blank), 3));
  }

  lemma NewInstanceFacts(service: string, n: NewInstance)
    ensures var i := NewInstanceRow(service, n, 0);
      && i.serviceId == service && i.deletedAt.None? && i.desired == DesiredRunning
      && i.imageRef == n.imageRef && i.engineVersion == n.engineVersion
  {}

  lemma HealthyFacts(instances: map<string, Instance>, instance: string, change: InstanceChange)
    requires instance in instances && change.StateChange? && !change.clearContainer && change.container != ""
    requires change.desired == Some(DesiredRunning) && change.status == Some(Healthy)
    ensures var instances' := WrittenInstances(instances, instance, change, 2);
      && instance in instances'
      && var i, i' := instances[instance], instances'[instance];
      && i'.serviceId == i.serviceId && i'.deletedAt == i.deletedAt
      && i'.desired == DesiredRunning && i'.status == Healthy
      && i'.containerId == change.container && i'.imageRef == i.imageRef && i'.engineVersion == i.engineVersion
  {}

  function Nightly(backupId: Id, instance: string, maxPerHour: int): BackupRequest {
    BackupRequest(backupId, instance, Manual, 30, maxPerHour, true)
  }

  lemma FirstBackupAdmitted(s: Db, service: string, instance: string, version: string, maxPerHour: int)
    requires Serving(s, service, instance, version) && maxPerHour >= 1
    ensures Enabled(s, QueueBackup(2, Nightly(7, instance, maxPerHour), 4))
        && BackupAllowed(s, 2, Nightly(7, instance, maxPerHour), 4)
  {
    assert RecentTransfers(s.mirrors, 4 - SECONDS_PER_HOUR) == {};
  }

  /** After one admitted backup. */
  lemma SecondBackup(s: Db, service: string, instance: string, version: string)
    requires Serving(s, service, instance, version)
    ensures var s' := BackupQueued(s, 2, Nightly(7, instance, 1), 4);
      && Enabled(s', QueueBackup(3, Nightly(8, instance, 1), 5))
      && !BackupAllowed(s', 3, Nightly(8, instance, 1), 5) && BackupAllowed(s', 3, Nightly(8, instance, 2), 5)
      && 2 in s'.mirrors && s'.mirrors[2].operationType == BackupType
  {
    FirstBackupAdmitted(s, service, instance, version, 1);
    var s' := BackupQueued(s, 2, Nightly(7, instance, 1), 4);
    assert s'.mirrors == s.mirrors[2 := QueuedMirror(s.instances[instance].serviceId, instance, BackupType,
        StepQueued, 4)];
    assert RecentTransfers(s'.mirrors, 5 - SECONDS_PER_HOUR) == {2};
  }

  /** With a limit of one, the first backup of the hour is admitted and the second, which a limit of two would
      admit, is refused and leaves no trace. */
  lemma SecondBackupRefused(service: string, instance: string, version: string, container: string, owner: string)
    returns (r: Run)
    requires container != "" && owner != ""
    ensures r.Valid() && |r.steps| == 6 && |r.states| == 7
    ensures r.steps[4] == QueueBackup(2, Nightly(7, instance, 1), 4)
        && r.steps[5] == QueueBackup(3, Nightly(8, instance, 1), 5)
    ensures 2 !in r.states[4].mirrors && 2 in r.states[5].mirrors && r.states[5].mirrors[2].operationType == BackupType
    ensures r.states[6] == r.states[5] && BackupAllowed(r.states[5], 3, Nightly(8, instance, 2), 5)
  {
    hide Enabled, Effect, Serving, BackupAllowed;
    r := ServiceServes(service, instance, version, container, owner);
    var s := Last(r);
    FirstBackupAdmitted(s, service, instance, version, 1);
    ServingHasOne(s, service, instance, version);
    SecondBackup(s, service, instance, version);
    EffectOfBackup(s, 2, Nightly(7, instance, 1), 4);
    r := Grow(r, QueueBackup(2, Nightly(7, instance, 1), 4));
    EffectOfBackup(Last(r), 3, Nightly(8, instance, 1), 5);
    r := Grow(r, QueueBackup(3, Nightly(8, instance, 1), 5));
  }

  lemma ServingHasOne(s: Db, service: string, instance: string, version: string)
    requires Serving(s, service, instance, version)
    ensures s.mirrors.Keys == {1}
  {}

  lemma EffectOfBackup(s: Db, id: Id, r: BackupRequest, now: Time)
    requires Enabled(s, QueueBackup(id, r, now))
    ensures Effect(s, QueueBackup(id, r, now)) == BackupQueued(s, id, r, now)
  {}

  /** From there every kind of database work can be queued: a runtime action, an upgrade, a backup, and, once the
      backup has succeeded, a restore. */
  lemma AllWorkCanBeQueued(service: string, instance: string, version: string, container: string, owner: string,
      image: string) returns (r: Run)
    requires container != "" && owner != "" && version != "" && image != ""
    ensures r.Valid() && |r.steps| == 6 && |r.states| == 7
    ensures InstanceActionAllowed(r.states[4], 2, instance, RestartType)
        && UpgradeAllowed(r.states[4], 2, instance, version, image)
    ensures BackupAllowed(r.states[4], 2, Nightly(7, instance, 2), 4)
    ensures RestoreAllowed(r.states[6], 3, RestoreRequest(7, instance, 0, NewService, 2, true, true), 6)
  {
    hide Enabled, Effect, Serving, BackupAllowed, UpgradeAllowed, InstanceActionAllowed, RestoreAllowed;
    r := ServiceServes(service, instance, version, container, owner);
    var s := Last(r);
    FirstBackupAdmitted(s, service, instance, version, 2);
    WorkOnServing(s, service, instance, version, image);
    EffectOfBackup(s, 2, Nightly(7, instance, 2), 4);
    r := Grow(r, QueueBackup(2, Nightly(7, instance, 2), 4));
    BackupSucceeds(Last(r));
    r := Grow(r, WriteJob(BackupCompleted(7, JobSuccess), 5));
    RestoreAfterBackup(s, service, instance, version);
  }

  lemma BackupSucceeds(s: Db)
    ensures Enabled(s, WriteJob(BackupCompleted(7, JobSuccess), 5))
    ensures Effect(s, WriteJob(BackupCompleted(7, JobSuccess), 5)) == JobWritten(s, BackupCompleted(7, JobSuccess), 5)
  {}

  lemma WorkOnServing(s: Db, service: string, instance: string, version: string, image: string)
    requires Serving(s, service, instance, version) && version != "" && image != ""
    ensures InstanceActionAllowed(s, 2, instance, RestartType) && UpgradeAllowed(s, 2, instance, version, image)
  {}

  lemma RestoreAfterBackup(s: Db, service: string, instance: string, version: string)
    requires Serving(s, service, instance, version)
    ensures var s' := JobWritten(BackupQueued(s, 2, Nightly(7, instance, 2), 4), BackupCompleted(7, JobSuccess), 5);
      RestoreAllowed(s', 3, RestoreRequest(7, instance, 0, NewService, 2, true, true), 6)
  {
    FirstBackupAdmitted(s, service, instance, version, 2);
    var s1 := BackupQueued(s, 2, Nightly(7, instance, 2), 4);
    assert s1.mirrors == s.mirrors[2 := QueuedMirror(s.instances[instance].serviceId, instance, BackupType,
        StepQueued, 4)];
    assert RecentTransfers(s1.mirrors, 6 - SECONDS_PER_HOUR) == {2};
  }
}
