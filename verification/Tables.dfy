/** Rows of the control-plane tables that the operations queue reads and writes.

    Row ids stand for the 32-hex-digit strings the program generates: they are only
    compared for equality and, in ORDER BY clauses, by their (total) order.
    A TEXT timestamp column whose sentinel is '' is an Option<Time>. */
module Tables {

  type Id = nat
  type Time = int

  datatype Option<+T> = None | Some(value: T)

  /** What a repository call gives its caller: a value, sql.ErrNoRows, or another error. */
  datatype Result<+T> = Ok(value: T) | NoRows | Rejected

  datatype Status = Queued | Running | Success | Failed | Cancelled {
    predicate Terminal() { Success? || Failed? || Cancelled? }
    predicate Live() { Queued? || Running? }
  }

  datatype DeployStatus = DeployQueued | DeployBuilding | DeploySuccess | DeployFailed | DeployCancelled {
    predicate Terminal() { DeploySuccess? || DeployFailed? || DeployCancelled? }
  }

  datatype JobStatus = JobQueued | JobRunning | JobSuccess | JobFailed | JobCancelled | JobDeleting | JobRolledBack

  datatype DesiredState = DesiredRunning | DesiredStopped | DesiredDeleted

  /** database_instances.status */
  datatype InstanceStatus =
    | Provisioning | Starting | Healthy | Unhealthy | Stopping | Stopped | InstanceFailed | Deleted | Purging

  /** database_operations.operation_type */
  datatype OperationType =
    | ProvisionType | StartType | StopType | RestartType | BackupType | RestoreType | RotateCredentialsType
    | UpgradeType | DeleteType | RestoreDeletedType | PurgeType

  /** operations.kind: 'db_' and the operation type, or the name another subsystem queues under. */
  datatype Kind = DatabaseKind(operationType: OperationType) | NamedKind(name: string)

  /** operations.lock_key: 'dbi:<instance>', 'dbsvc:<service>', or another subsystem's key. */
  datatype LockKey = InstanceLock(instance: string) | ServiceLock(service: string) | NamedLock(key: string)

  /** progress_step: the literals the repository writes, or what a handler reports. */
  datatype StepName =
    | NoStep | StepQueued | StepReserved | StepWaitingForTarget | StepVolumeReserved | StepVolumeRetained | StepStarting
    | StepWaiting | StepRecovery | StepInterrupted | StepCancelled | StepCancelledByDelete | Reported(name: string)

  /** error_code, error_message and event detail: the literals the repository writes, or given text. */
  datatype Note = Blank | Interrupted | RetryLimitExceeded | CancelledByOperator | Text(text: string)

  datatype BackupTrigger = NoTrigger | Manual | Scheduled | Safety

  const DEFAULT_PRIORITY := 100
  const DEFAULT_MAX_ATTEMPTS := 5
  const SECONDS_PER_HOUR := 3600

  /** A row of `operations`, the authoritative queue. */
  datatype Operation = Operation(
    kind: Kind, lockKey: LockKey, status: Status, priority: int,
    step: StepName, percent: int,
    availableAt: Option<Time>, attempt: int, maxAttempts: int,
    owner: string, leaseExpiresAt: Option<Time>, cancelRequestedAt: Option<Time>,
    serviceId: string, errorCode: Note, errorMessage: Note,
    startedAt: Option<Time>, completedAt: Option<Time>, createdAt: Time, updatedAt: Time)

  /** A row of `database_operations`, the read model that shares the operation's id. */
  datatype DatabaseOperation = DatabaseOperation(
    serviceId: string, instanceId: Option<string>, operationType: OperationType, status: Status,
    step: StepName, percent: int, errorCode: Note, errorMessage: Note,
    attemptCount: int, owner: string, leaseExpiresAt: Option<Time>,
    startedAt: Option<Time>, completedAt: Option<Time>, createdAt: Time, updatedAt: Time)

  /** A row of `deployments`, the read model of deploy operations. */
  datatype Deployment = Deployment(
    serviceId: string, status: DeployStatus, errorMessage: Note,
    cancelledAt: Option<Time>, createdAt: Time, updatedAt: Time)

  /** A row of `database_backups`, `database_restore_jobs` or `database_upgrade_jobs`. `instanceId` is '' once its
      instance is purged; `uses` are the backups a restore job refers to. */
  datatype Companion = Companion(
    operationId: Option<Id>, instanceId: string, trigger: BackupTrigger, status: JobStatus, uses: set<Id>,
        updatedAt: Time)

  /** A 'deployment' row of `platform_events`. */
  datatype Event = Event(deployment: Id, status: DeployStatus, detail: Note, at: Time)

  /** A row of `database_instances`. */
  datatype Instance = Instance(
    serviceId: string, desired: DesiredState, status: InstanceStatus, containerId: string,
    imageRef: string, engineVersion: string,
    deletedAt: Option<Time>, purgeAfter: Option<Time>, updatedAt: Time)

  /** The committed contents of the database between two transactions. */
  datatype Db = Db(
    ops: map<Id, Operation>, mirrors: map<Id, DatabaseOperation>, deployments: map<Id, Deployment>,
    backups: map<Id, Companion>, restores: map<Id, Companion>, upgrades: map<Id, Companion>,
    events: seq<Event>, instances: map<string, Instance>)
}

module Sets {

  lemma {:induction false} Included<T>(a: set<T>, b: set<T>)
    requires a <= b
    ensures |a| <= |b|
  {
    if a != {} {
      var x :| x in a;
      Included(a - {x}, b - {x});
    }
  }
}

/** The one form of SQL statement the recovery and deletion paths rely on. */
module Sql {

  /** Keys the WHERE clause selects. */
  function Matching<K, V>(table: map<K, V>, where: (K, V) -> bool): set<K> {
    set k | k in table && where(k, table[k])
  }

  /** The table after UPDATE ... SET assign WHERE where. */
  function Updated<K, V>(table: map<K, V>, where: (K, V) -> bool, assign: V -> V): map<K, V> {
    map k | k in table :: if where(k, table[k]) then assign(table[k]) else table[k]
  }

  /** Visits the rows one at a time, in no particular order, and counts the ones it changes. */
  method Update<K(==), V>(table: map<K, V>, where: (K, V) -> bool, assign: V -> V)
    returns (result: map<K, V>, affected: nat)
    ensures result == Updated(table, where, assign)
    ensures affected == |Matching(table, where)|
  {
    result, affected := table, 0;
    var todo := table.Keys;
    ghost var hit: set<K> := {};
    while todo != {}
      invariant todo <= table.Keys == result.Keys
      invariant forall k | k in table ::
        result[k] == if k !in todo && where(k, table[k]) then assign(table[k]) else table[k]
      invariant hit == set k | k in table && k !in todo && where(k, table[k])
      invariant affected == |hit|
    {
      var k :| k in todo;
      if where(k, table[k]) {
        result := result[k := assign(table[k])];
        affected := affected + 1;
        hit := hit + {k};
      }
      todo := todo - {k};
    }
    assert hit == Matching(table, where);
  }
}
