/** What each repository transaction does to the database, as a function of its state.

    `Store` (Store.dfy) runs the transactions statement by statement and is proved to reach
    exactly these states; everything proved about runs is proved about these functions. */
module Transitions {
  import opened Tables

  // ----- shared vocabulary ------------------------------------------------

  ghost predicate Holds(s: Db, id: Id, owner: string) {
    id in s.ops && s.ops[id].status == Running && s.ops[id].owner == owner
  }

  predicate ServiceKnown(instances: map<string, Instance>, service: string) {
    exists i | i in instances :: instances[i].serviceId == service
  }

  function OpsOfService(ops: map<Id, Operation>, service: string, status: Status): set<Id> {
    set id | id in ops && ops[id].serviceId == service && ops[id].status == status
  }

  /** A projection onto deployments: the row to write, if the status guard matched. The event that
      records the row's status is written with it. */
  function PutDeployment(deployments: map<Id, Deployment>, id: Id, row: Option<Deployment>): map<Id, Deployment> {
    if row.Some? then deployments[id := row.value] else deployments
  }

  function PutEvent(events: seq<Event>, id: Id, row: Option<Deployment>, detail: Note, now: Time): seq<Event> {
    if row.Some? then events + [Event(id, row.value.status, detail, now)] else events
  }

  function Project(s: Db, id: Id, row: Option<Deployment>, detail: Note, now: Time): Db {
    s.(deployments := PutDeployment(s.deployments, id, row), events := PutEvent(s.events, id, row, detail, now))
  }

  function PutMirror(mirrors: map<Id, DatabaseOperation>, id: Id,
      m: Option<DatabaseOperation>): map<Id, DatabaseOperation> {
    if m.Some? then mirrors[id := m.value] else mirrors
  }

  /** A step on one operation: its row, the mirror row if it has one, and the deployment projection. */
  function Touched(s: Db, id: Id, o: Operation, m: Option<DatabaseOperation>, row: Option<Deployment>, detail: Note,
      now: Time): Db {
    s.(ops := s.ops[id := o], mirrors := PutMirror(s.mirrors, id, m),
       deployments := PutDeployment(s.deployments, id, row), events := PutEvent(s.events, id, row, detail, now))
  }

  // ----- enqueue ----------------------------------------------------------

  datatype NewOperation = NewOperation(
    kind: Kind, lockKey: LockKey, status: Status, priority: int, maxAttempts: int,
    step: StepName, serviceId: string)

  function NewRow(input: NewOperation, now: Time): Operation {
    Operation(input.kind, input.lockKey, input.status,
              if input.priority == 0 then DEFAULT_PRIORITY else input.priority,
              input.step, if input.status == Success then 100 else 0,
              None, 0, if input.maxAttempts == 0 then DEFAULT_MAX_ATTEMPTS else input.maxAttempts,
              "", None, None, input.serviceId, Blank, Blank,
              None, if input.status.Terminal() then Some(now) else None, now, now)
  }

  function Enqueued(s: Db, id: Id, input: NewOperation, now: Time): Db {
    if input.kind == NamedKind("") || input.lockKey == NamedLock("") || id in s.ops
        || NewRow(input, now).maxAttempts < 1 then s
    else s.(ops := s.ops[id := NewRow(input, now)])
  }

  function LockKeyOf(m: DatabaseOperation): LockKey {
    match m.instanceId
    case Some(instance) => if instance != "" then InstanceLock(instance) else ServiceLock(m.serviceId)
    case None => ServiceLock(m.serviceId)
  }

  /** The queue row derived from a database_operations row. */
  function QueueRow(m: DatabaseOperation): Operation {
    Operation(DatabaseKind(m.operationType), LockKeyOf(m), m.status, DEFAULT_PRIORITY, m.step, m.percent,
              None, 0, DEFAULT_MAX_ATTEMPTS, "", None, None, m.serviceId, Blank, Blank,
              m.startedAt, m.completedAt, m.createdAt, m.updatedAt)
  }

  function QueuedMirror(service: string, instance: string, operationType: OperationType, step: StepName,
      now: Time): DatabaseOperation {
    DatabaseOperation(service, Some(instance), operationType, Queued, step, 0, Blank, Blank, 0, "", None, None, None,
        now, now)
  }

  function WithPair(s: Db, id: Id, m: DatabaseOperation): Db {
    s.(mirrors := s.mirrors[id := m], ops := s.ops[id := QueueRow(m)])
  }

  /** Both inserts of a database enqueue, or a primary-key failure that changes nothing. */
  predicate PairInsertable(s: Db, id: Id) { id !in s.mirrors && id !in s.ops }

  const RUNTIME_ACTIONS := {StartType, StopType, RestartType, RotateCredentialsType}

  predicate InstanceActionAllowed(s: Db, id: Id, instance: string, action: OperationType) {
    && action in RUNTIME_ACTIONS && instance in s.instances
    && s.instances[instance].deletedAt.None? && s.instances[instance].desired != DesiredDeleted
    && s.instances[instance].containerId != ""
    && PairInsertable(s, id)
  }

  function InstanceAfterAction(i: Instance, action: OperationType, now: Time): Instance {
    if action == RotateCredentialsType then i
    else if action == StopType then i.(desired := DesiredStopped, status := Stopping, updatedAt := now)
    else i.(desired := DesiredRunning, status := Starting, updatedAt := now)
  }

  function InstanceActionQueued(s: Db, id: Id, instance: string, action: OperationType, now: Time): Db {
    if !InstanceActionAllowed(s, id, instance, action) then s
    else
      var i := s.instances[instance];
      WithPair(s.(instances := s.instances[instance := InstanceAfterAction(i, action, now)]),
               id, QueuedMirror(i.serviceId, instance, action, StepQueued, now))
  }

  predicate Ready(s: Db, instance: string) {
    && instance in s.instances && s.instances[instance].deletedAt.None?
    && s.instances[instance].desired == DesiredRunning && s.instances[instance].status == Healthy
  }

  predicate UpgradeAllowed(s: Db, id: Id, instance: string, version: string, image: string) {
    && Ready(s, instance) && s.instances[instance].containerId != ""
    && version != "" && version == s.instances[instance].engineVersion
    && image != "" && image != s.instances[instance].imageRef
    && PairInsertable(s, id) && id !in s.upgrades
  }

  function UpgradeQueued(s: Db, id: Id, instance: string, version: string, image: string, now: Time): Db {
    if !UpgradeAllowed(s, id, instance, version, image) then s
    else
      WithPair(s.(upgrades := s.upgrades[id := Companion(Some(id), instance, NoTrigger, JobQueued, {}, now)]),
               id, QueuedMirror(s.instances[instance].serviceId, instance, UpgradeType, StepQueued, now))
  }

  const TRANSFERS := {BackupType, RestoreType}

  /** Backups and restores created in the hour that ends now (or later). */
  function RecentTransfers(mirrors: map<Id, DatabaseOperation>, since: Time): set<Id> {
    set id | id in mirrors && mirrors[id].operationType in TRANSFERS && mirrors[id].createdAt >= since
  }

  predicate TransferAdmitted(s: Db, now: Time, maxPerHour: int) {
    maxPerHour >= 1 && |RecentTransfers(s.mirrors, now - SECONDS_PER_HOUR)| < maxPerHour
  }

  datatype BackupRequest = BackupRequest(
    backupId: Id, instance: string, trigger: BackupTrigger, retentionDays: int, maxPerHour: int,
    known: bool)   // the destination, service and credential rows were found

  predicate BackupAllowed(s: Db, id: Id, r: BackupRequest, now: Time) {
    && Ready(s, r.instance) && r.known
    && r.trigger != NoTrigger && 1 <= r.retentionDays <= 3650
    && TransferAdmitted(s, now, r.maxPerHour)
    && PairInsertable(s, id) && r.backupId !in s.backups
  }

  function BackupQueued(s: Db, id: Id, r: BackupRequest, now: Time): Db {
    if !BackupAllowed(s, id, r, now) then s
    else
      WithPair(s.(backups := s.backups[r.backupId := Companion(Some(id), r.instance, r.trigger, JobQueued, {}, now)]),
               id, QueuedMirror(s.instances[r.instance].serviceId, r.instance, BackupType, StepQueued, now))
  }

  datatype RestoreMode = NewService | ReplaceCurrent | OtherMode

  datatype RestoreRequest = RestoreRequest(
    backupId: Id, target: string, safetyId: Id, mode: RestoreMode, maxPerHour: int,
    readable: bool,     // the backup has key material and an object key
    compatible: bool)   // engine and engine version of backup and target agree

  predicate RestoreAllowed(s: Db, id: Id, r: RestoreRequest, now: Time) {
    && r.backupId in s.backups && s.backups[r.backupId].status == JobSuccess && r.readable && r.compatible
    && r.target in s.instances
    && s.instances[r.target].deletedAt.None? && s.instances[r.target].desired == DesiredRunning
    && (|| (&& r.mode == ReplaceCurrent
            && s.instances[r.target].status == Healthy && s.instances[r.target].containerId != ""
            && r.safetyId in s.backups
            && s.backups[r.safetyId].instanceId == r.target && s.backups[r.safetyId].trigger == Safety)
        || (r.mode == NewService && s.instances[r.target].status in {Provisioning, Starting, Healthy}))
    && TransferAdmitted(s, now, r.maxPerHour)
    && PairInsertable(s, id) && id !in s.restores
  }

  function UsedBackups(r: RestoreRequest): set<Id> {
    if r.mode == ReplaceCurrent then {r.backupId, r.safetyId} else {r.backupId}
  }

  function RestoreQueued(s: Db, id: Id, r: RestoreRequest, now: Time): Db {
    if !RestoreAllowed(s, id, r, now) then s
    else
      WithPair(s.(restores := s.restores[id := Companion(Some(id), r.target, NoTrigger, JobQueued, UsedBackups(r),
          now)]),
               id, QueuedMirror(s.instances[r.target].serviceId, r.target, RestoreType, StepWaitingForTarget, now))
  }

  /** One instance of a request that touches several, with the id its operation will get. */
  datatype Item = Item(instance: string, operation: Id)
  datatype NewInstance = NewInstance(item: Item, imageRef: string, engineVersion: string)

  function PairsQueued(s: Db, service: string, items: seq<Item>, operationType: OperationType, step: StepName,
      now: Time): Db {
    if items == [] then s
    else
      var last := items[|items| - 1];
      WithPair(PairsQueued(s, service, items[..|items| - 1], operationType, step, now),
               last.operation, QueuedMirror(service, last.instance, operationType, step, now))
  }

  function ItemsOf(news: seq<NewInstance>): (items: seq<Item>) {
    seq(|news|, k requires 0 <= k < |news| => news[k].item)
  }

  function NewInstanceRow(service: string, n: NewInstance, now: Time): Instance {
    Instance(service, DesiredRunning, Provisioning, "", n.imageRef, n.engineVersion, None, None, now)
  }

  function WithInstances(instances: map<string, Instance>, service: string, news: seq<NewInstance>,
      now: Time): map<string, Instance> {
    if news == [] then instances
    else
      var last := news[|news| - 1];
      WithInstances(instances, service, news[..|news| - 1],
          now)[last.item.instance := NewInstanceRow(service, last, now)]
  }

  function ServiceCreated(s: Db, service: string, news: seq<NewInstance>, now: Time): Db {
    PairsQueued(s.(instances := WithInstances(s.instances, service, news, now)),
                service, ItemsOf(news), ProvisionType, StepReserved, now)
  }

  // ----- deployments ------------------------------------------------------

  function DeploymentCreated(s: Db, id: Id, service: string, now: Time): Db {
    Project(s, id, Some(Deployment(service, DeployQueued, Blank, None, now, now)), Blank, now)
  }

  function CancelledDeployment(deployments: map<Id, Deployment>, id: Id, now: Time): Option<Deployment> {
    if id !in deployments || deployments[id].status.Terminal() then None
    else Some(deployments[id].(status := DeployCancelled, cancelledAt := Some(now), updatedAt := now))
  }

  function DeploymentCancelled(s: Db, id: Id, now: Time): Db {
    Project(s, id, CancelledDeployment(s.deployments, id, now), CancelledByOperator, now)
  }

  /** UpdateDeploymentStatus: guarded on CANCELLED only. */
  function UpdatedDeployment(deployments: map<Id, Deployment>, id: Id, status: DeployStatus, message: Note,
      now: Time): Option<Deployment> {
    if id !in deployments || deployments[id].status == DeployCancelled then None
    else Some(deployments[id].(status := status, errorMessage := message, updatedAt := now))
  }

  function DeploymentUpdated(s: Db, id: Id, status: DeployStatus, message: Note, now: Time): Db {
    Project(s, id, UpdatedDeployment(s.deployments, id, status, message, now), message, now)
  }

  function BuildingDeployment(deployments: map<Id, Deployment>, id: Id, now: Time): Option<Deployment> {
    if id !in deployments || deployments[id].status != DeployQueued then None
    else Some(deployments[id].(status := DeployBuilding, updatedAt := now))
  }

  function RequeuedDeployment(deployments: map<Id, Deployment>, id: Id, now: Time): Option<Deployment> {
    if id !in deployments || deployments[id].status != DeployBuilding then None
    else Some(deployments[id].(status := DeployQueued, updatedAt := now))
  }

  function FinishedDeployment(deployments: map<Id, Deployment>, id: Id, status: Status, message: Note,
      now: Time): Option<Deployment>
    requires status.Terminal()
  {
    if id !in deployments || deployments[id].status.Terminal() then None
    else match status
      case Cancelled => Some(deployments[id].(status := DeployCancelled, cancelledAt := Some(now), updatedAt := now))
      case Success => Some(deployments[id].(status := DeploySuccess, errorMessage := message, updatedAt := now))
      case _ => Some(deployments[id].(status := DeployFailed, errorMessage := message, updatedAt := now))
  }

  // ----- claim ------------------------------------------------------------

  datatype ClaimOptions = ClaimOptions(owner: string, lease: int, minPriority: int, kinds: set<Kind>) {
    predicate Valid() { owner != "" && lease >= 1 }
  }

  predicate LockFree(ops: map<Id, Operation>, lockKey: LockKey) {
    forall r | r in ops :: ops[r].status == Running ==> ops[r].lockKey != lockKey
  }

  predicate Runnable(ops: map<Id, Operation>, id: Id, options: ClaimOptions, now: Time) {
    && id in ops && ops[id].status == Queued
    && (ops[id].availableAt.None? || ops[id].availableAt.value <= now)
    && ops[id].attempt < ops[id].maxAttempts
    && ops[id].priority >= options.minPriority
    && LockFree(ops, ops[id].lockKey)
    && (options.kinds == {} || ops[id].kind in options.kinds)
  }

  /** ORDER BY priority DESC, created_at, id. */
  predicate Precedes(ops: map<Id, Operation>, a: Id, b: Id)
    requires a in ops && b in ops
  {
    || ops[a].priority > ops[b].priority
    || (ops[a].priority == ops[b].priority
        && (ops[a].createdAt < ops[b].createdAt || (ops[a].createdAt == ops[b].createdAt && a < b)))
  }

  /** Runnable, and no other runnable operation comes first. */
  ghost predicate IsNext(ops: map<Id, Operation>, id: Id, options: ClaimOptions, now: Time) {
    && Runnable(ops, id, options, now)
    && forall other | other in ops && Runnable(ops, other, options, now) :: other == id || Precedes(ops, id, other)
  }

  function StartedAt(at: Option<Time>, now: Time): Option<Time> {
    if at.None? then Some(now) else at
  }

  function ClaimedRow(o: Operation, owner: string, expires: Time, now: Time): Operation {
    o.(status := Running, step := StepStarting, percent := 1, startedAt := StartedAt(o.startedAt, now),
       owner := owner, leaseExpiresAt := Some(expires), attempt := o.attempt + 1, updatedAt := now)
  }

  function ClaimedMirror(m: DatabaseOperation, owner: string, expires: Time, now: Time): DatabaseOperation {
    m.(status := Running, step := StepStarting, percent := 1, startedAt := StartedAt(m.startedAt, now),
       owner := owner, leaseExpiresAt := Some(expires), attemptCount := m.attemptCount + 1, updatedAt := now)
  }

  function Claimed(s: Db, id: Id, options: ClaimOptions, now: Time): Db
    requires id in s.ops
  {
    Touched(s, id, ClaimedRow(s.ops[id], options.owner, now + options.lease, now),
            if id in s.mirrors then Some(ClaimedMirror(s.mirrors[id], options.owner, now + options.lease, now))
                else None,
            BuildingDeployment(s.deployments, id, now), Blank, now)
  }

  // ----- lease holder's calls ---------------------------------------------

  function RenewedRow(o: Operation, expires: Time,
      now: Time): Operation { o.(leaseExpiresAt := Some(expires), updatedAt := now) }

  function RenewedMirror(m: DatabaseOperation, expires: Time, now: Time): DatabaseOperation {
    m.(leaseExpiresAt := Some(expires), updatedAt := now)
  }

  function Renewed(s: Db, id: Id, owner: string, lease: int, now: Time): Db {
    if id !in s.ops || s.ops[id].status != Running || s.ops[id].owner != owner then s
    else
      Touched(s, id, RenewedRow(s.ops[id], now + lease, now),
              if id in s.mirrors then Some(RenewedMirror(s.mirrors[id], now + lease, now)) else None,
              None, Blank, now)
  }

  function Max(a: int, b: int): int { if a >= b then a else b }

  function DeferredRow(o: Operation, available: Time, now: Time): Operation {
    o.(status := Queued, step := StepWaiting, percent := 0, availableAt := Some(available),
       attempt := Max(o.attempt - 1, 0), owner := "", leaseExpiresAt := None, updatedAt := now)
  }

  function DeferredMirror(m: DatabaseOperation, now: Time): DatabaseOperation {
    m.(status := Queued, step := StepWaiting, percent := 0,
       attemptCount := Max(m.attemptCount - 1, 0), owner := "", leaseExpiresAt := None, updatedAt := now)
  }

  function Deferred(s: Db, id: Id, owner: string, retryAfter: int, now: Time): Db {
    if id !in s.ops || s.ops[id].status != Running || s.ops[id].owner != owner then s
    else
      Touched(s, id, DeferredRow(s.ops[id], now + Max(retryAfter, 0), now),
              if id in s.mirrors then Some(DeferredMirror(s.mirrors[id], now)) else None,
              RequeuedDeployment(s.deployments, id, now), Blank, now)
  }

  datatype Completion = Completion(status: Status, step: StepName, errorCode: Note, errorMessage: Note)

  function CompletedRow(o: Operation, c: Completion, now: Time): Operation {
    o.(status := c.status, step := if c.step == NoStep then o.step else c.step,
       percent := if c.status == Success then 100 else o.percent,
       errorCode := c.errorCode, errorMessage := c.errorMessage, completedAt := Some(now),
       owner := "", leaseExpiresAt := None, updatedAt := now)
  }

  function CompletedMirror(m: DatabaseOperation, c: Completion, now: Time): DatabaseOperation {
    m.(status := c.status, step := if c.step == NoStep then m.step else c.step,
       percent := if c.status == Success then 100 else m.percent,
       errorCode := c.errorCode, errorMessage := c.errorMessage, completedAt := Some(now),
       owner := "", leaseExpiresAt := None, updatedAt := now)
  }

  function Completed(s: Db, id: Id, owner: string, c: Completion, now: Time): Db {
    if !c.status.Terminal() || id !in s.ops || s.ops[id].status != Running || s.ops[id].owner != owner then s
    else
      Touched(s, id, CompletedRow(s.ops[id], c, now),
              if id in s.mirrors then Some(CompletedMirror(s.mirrors[id], c, now)) else None,
              FinishedDeployment(s.deployments, id, c.status, c.errorMessage, now), c.errorMessage, now)
  }

  /** What a handler reports through UpdateDatabaseOperation. */
  datatype Report = Report(status: Status, step: StepName, percent: int, errorCode: Note, errorMessage: Note)

  function ReportedRow(o: Operation, r: Report, now: Time): Operation {
    o.(status := r.status, step := r.step, percent := r.percent, errorCode := r.errorCode,
        errorMessage := r.errorMessage,
       startedAt := if r.status == Running then StartedAt(o.startedAt, now) else o.startedAt,
       completedAt := if r.status.Terminal() then Some(now) else o.completedAt,
       owner := if r.status.Terminal() then "" else o.owner,
       leaseExpiresAt := if r.status.Terminal() then None else o.leaseExpiresAt, updatedAt := now)
  }

  function ReportedMirror(m: DatabaseOperation, r: Report, now: Time): DatabaseOperation {
    m.(status := r.status, step := r.step, percent := r.percent, errorCode := r.errorCode,
        errorMessage := r.errorMessage,
       startedAt := if r.status == Running then StartedAt(m.startedAt, now) else m.startedAt,
       completedAt := if r.status.Terminal() then Some(now) else m.completedAt,
       owner := if r.status.Terminal() then "" else m.owner,
       leaseExpiresAt := if r.status.Terminal() then None else m.leaseExpiresAt, updatedAt := now)
  }

  function ReportApplied(s: Db, id: Id, r: Report, now: Time): Db {
    if !(0 <= r.percent <= 100) || id !in s.mirrors then s
    else
      s.(mirrors := s.mirrors[id := ReportedMirror(s.mirrors[id], r, now)],
         ops := if id in s.ops then s.ops[id := ReportedRow(s.ops[id], r, now)] else s.ops)
  }

  // ----- cancellation -----------------------------------------------------

  function CancelRequestedRow(o: Operation,
      now: Time): Operation { o.(cancelRequestedAt := Some(now), updatedAt := now) }

  function CancelledRow(o: Operation, now: Time): Operation {
    o.(status := Cancelled, step := StepCancelled, percent := 0,
       completedAt := Some(now), cancelRequestedAt := Some(now), updatedAt := now)
  }

  function CancelledMirror(m: DatabaseOperation, now: Time): DatabaseOperation {
    m.(status := Cancelled, step := StepCancelled, percent := 0,
       completedAt := Some(now), owner := "", leaseExpiresAt := None, updatedAt := now)
  }

  function CancelRequested(s: Db, id: Id, now: Time): Db {
    if id in s.ops && s.ops[id].status == Running && s.ops[id].cancelRequestedAt.None? then
      Touched(s, id, CancelRequestedRow(s.ops[id], now), None, None, Blank, now)
    else if id in s.ops && s.ops[id].status == Queued then
      Touched(s, id, CancelledRow(s.ops[id], now),
              if id in s.mirrors then Some(CancelledMirror(s.mirrors[id], now)) else None,
              FinishedDeployment(s.deployments, id, Cancelled, Blank, now), Blank, now)
    else s
  }

  /** Running operations of the service with no cancellation request yet. */
  function Unmarked(ops: map<Id, Operation>, service: string): set<Id> {
    set id | id in ops && ops[id].serviceId == service && ops[id].status == Running && ops[id].cancelRequestedAt.None?
  }

  function MarkedForCancel(ops: map<Id, Operation>, service: string, now: Time): map<Id, Operation> {
    map id | id in ops ::
      if ops[id].serviceId == service && ops[id].status == Running && ops[id].cancelRequestedAt.None?
      then CancelRequestedRow(ops[id], now) else ops[id]
  }

  function ServiceCancelRequested(s: Db, service: string, now: Time): Db {
    s.(ops := MarkedForCancel(s.ops, service, now))
  }

  // ----- recovery at boot -------------------------------------------------

  predicate IsExhausted(o: Operation) { o.status == Running && o.attempt >= o.maxAttempts }
  predicate IsAbandoned(o: Operation) { o.status == Running && o.attempt < o.maxAttempts }

  function Exhausted(ops: map<Id, Operation>): set<Id> { set id | id in ops && IsExhausted(ops[id]) }
  function Abandoned(ops: map<Id, Operation>): set<Id> { set id | id in ops && IsAbandoned(ops[id]) }

  function FailedRow(o: Operation, now: Time): Operation {
    o.(status := Failed, step := StepInterrupted, errorCode := Interrupted,
       errorMessage := RetryLimitExceeded, completedAt := Some(now),
       owner := "", leaseExpiresAt := None, updatedAt := now)
  }

  function FailedMirror(m: DatabaseOperation, now: Time): DatabaseOperation {
    m.(status := Failed, step := StepInterrupted, errorCode := Interrupted,
       errorMessage := RetryLimitExceeded, completedAt := Some(now),
       owner := "", leaseExpiresAt := None, updatedAt := now)
  }

  function RequeuedRow(o: Operation, now: Time): Operation {
    o.(status := Queued, step := StepRecovery, percent := 0, availableAt := None,
       owner := "", leaseExpiresAt := None, updatedAt := now)
  }

  function RequeuedMirror(m: DatabaseOperation, now: Time): DatabaseOperation {
    m.(status := Queued, step := StepRecovery, percent := 0, owner := "", leaseExpiresAt := None, updatedAt := now)
  }

  function RecoveredRow(o: Operation, now: Time): Operation {
    if IsExhausted(o) then FailedRow(o, now) else if IsAbandoned(o) then RequeuedRow(o, now) else o
  }

  function RecoveredOps(ops: map<Id, Operation>, now: Time): map<Id, Operation> {
    map id | id in ops :: RecoveredRow(ops[id], now)
  }

  function RecoveredMirrors(s: Db, now: Time): map<Id, DatabaseOperation> {
    map id | id in s.mirrors ::
      if id in Exhausted(s.ops) then FailedMirror(s.mirrors[id], now)
      else if id in Abandoned(s.ops) then RequeuedMirror(s.mirrors[id], now)
      else s.mirrors[id]
  }

  predicate BelongsTo(c: Companion, ids: set<Id>) { c.operationId.Some? && c.operationId.value in ids }

  /** Each companion row is judged once, by what happens to its operation. */
  function RecoveredCompanions(ops: map<Id, Operation>, t: map<Id, Companion>, now: Time): map<Id, Companion> {
    map k | k in t ::
      if BelongsTo(t[k], Exhausted(ops)) && t[k].status in {JobQueued, JobRunning}
          then t[k].(status := JobFailed, updatedAt := now)
      else if BelongsTo(t[k], Abandoned(ops)) && t[k].status == JobRunning
          then t[k].(status := JobQueued, updatedAt := now)
      else t[k]
  }

  function ExhaustedDeploys(s: Db): set<Id> {
    set id | id in s.deployments && !s.deployments[id].status.Terminal() && id in Exhausted(s.ops)
  }

  /** Non-terminal deployments that recovery leaves with no live operation, other than the exhausted ones. */
  function OrphanDeploys(s: Db): set<Id> {
    set id | id in s.deployments && !s.deployments[id].status.Terminal() && !(id in s.ops && s.ops[id].status.Live())
  }

  function InterruptedRow(d: Deployment, now: Time): Deployment {
    d.(status := DeployFailed, errorMessage := Interrupted, updatedAt := now)
  }

  function RecoveredDeployments(s: Db, now: Time): map<Id, Deployment> {
    map id | id in s.deployments ::
      if id in ExhaustedDeploys(s) + OrphanDeploys(s) then InterruptedRow(s.deployments[id], now) else s.deployments[id]
  }

  /** `order` lists the members of `ids`, each once: the order an INSERT ... SELECT happens to visit them in. */
  ghost predicate Lists(order: seq<Id>, ids: set<Id>) {
    && (forall k | 0 <= k < |order| :: order[k] in ids)
    && (forall id | id in ids :: id in order)
    && (forall j, k | 0 <= j < k < |order| :: order[j] != order[k])
  }

  function Interruptions(order: seq<Id>, now: Time): (events: seq<Event>)
    ensures |events| == |order|
  {
    if order == [] then []
    else Interruptions(order[..|order| - 1], now) + [Event(order[|order| - 1], DeployFailed, Interrupted, now)]
  }

  function Recovered(s: Db, now: Time, exhausted: seq<Id>, orphans: seq<Id>): Db {
    Db(RecoveredOps(s.ops, now), RecoveredMirrors(s, now), RecoveredDeployments(s, now),
       RecoveredCompanions(s.ops, s.backups, now), RecoveredCompanions(s.ops, s.restores, now),
       RecoveredCompanions(s.ops, s.upgrades, now),
       s.events + Interruptions(exhausted, now) + Interruptions(orphans, now), s.instances)
  }

  // ----- deletion, retention, restore, purge ------------------------------

  predicate Undeleted(instances: map<string, Instance>, service: string) {
    exists i | i in instances :: instances[i].serviceId == service && instances[i].deletedAt.None?
  }

  function CancelledByDelete(ops: map<Id, Operation>, service: string, now: Time): map<Id, Operation> {
    map id | id in ops ::
      if ops[id].serviceId == service && ops[id].status == Queued
      then ops[id].(status := Cancelled, step := StepCancelledByDelete, completedAt := Some(now),
                    owner := "", leaseExpiresAt := None, updatedAt := now)
      else ops[id]
  }

  function MirrorsCancelledByDelete(mirrors: map<Id, DatabaseOperation>, service: string,
      now: Time): map<Id, DatabaseOperation> {
    map id | id in mirrors ::
      if mirrors[id].serviceId == service && mirrors[id].status == Queued
      then mirrors[id].(status := Cancelled, step := StepCancelledByDelete, completedAt := Some(now),
                        owner := "", leaseExpiresAt := None, updatedAt := now)
      else mirrors[id]
  }

  function Deleting(instances: map<string, Instance>, service: string, now: Time): map<string, Instance> {
    map i | i in instances ::
      if instances[i].serviceId == service && instances[i].deletedAt.None?
      then instances[i].(desired := DesiredDeleted, status := Stopping, updatedAt := now) else instances[i]
  }

  function DeletionBegun(s: Db, service: string, now: Time): Db {
    if !ServiceKnown(s.instances, service) then s
    else if OpsOfService(s.ops, service, Running) != {} then ServiceCancelRequested(s, service, now)
    else if !Undeleted(s.instances, service) then s
    else s.(ops := CancelledByDelete(s.ops, service, now),
            mirrors := MirrorsCancelledByDelete(s.mirrors, service, now),
            instances := Deleting(s.instances, service, now))
  }

  predicate AwaitingFinalize(i: Instance, service: string) {
    i.serviceId == service && i.deletedAt.None? && i.desired == DesiredDeleted
  }

  function Retained(instances: map<string, Instance>, service: string, retention: int,
      now: Time): map<string, Instance> {
    map i | i in instances ::
      if AwaitingFinalize(instances[i], service)
      then instances[i].(containerId := "", desired := DesiredDeleted, status := Deleted,
                         deletedAt := Some(now), purgeAfter := Some(now + retention), updatedAt := now)
      else instances[i]
  }

  function AuditMirror(service: string, now: Time): DatabaseOperation {
    DatabaseOperation(service, None, DeleteType, Success, StepVolumeRetained, 100, Blank, Blank, 0, "", None,
                      Some(now), Some(now), now, now)
  }

  predicate FinalizeAllowed(s: Db, audit: Id, service: string, retention: int) {
    && retention > 0
    && OpsOfService(s.ops, service, Queued) == {} && OpsOfService(s.ops, service, Running) == {}
    && (exists i | i in s.instances :: AwaitingFinalize(s.instances[i], service))
    && PairInsertable(s, audit)
  }

  function DeletionFinalized(s: Db, audit: Id, service: string, retention: int, now: Time): Db {
    if !FinalizeAllowed(s, audit, service, retention) then s
    else WithPair(s.(instances := Retained(s.instances, service, retention, now)), audit, AuditMirror(service, now))
  }

  predicate WithinRetention(i: Instance, now: Time) {
    i.deletedAt.Some? && i.purgeAfter.Some? && i.purgeAfter.value > now
  }

  function ReopenedRow(i: Instance, now: Time): Instance {
    i.(desired := DesiredRunning, status := Provisioning, deletedAt := None, purgeAfter := None, updatedAt := now)
  }

  function Reopened(instances: map<string, Instance>, service: string, now: Time): map<string, Instance> {
    map i | i in instances ::
      if instances[i].serviceId == service
      then ReopenedRow(instances[i], now) else instances[i]
  }

  predicate RestoreDeletedAllowed(s: Db, items: seq<Item>, now: Time) {
    && items != []
    && (forall k | 0 <= k < |items| ::
      items[k].instance in s.instances && WithinRetention(s.instances[items[k].instance], now))
    && (forall k | 0 <= k < |items| :: PairInsertable(s, items[k].operation))
  }

  /** `items` lists the service's instances, as ListDatabaseInstances returns them. */
  ghost predicate ListsInstances(s: Db, service: string, items: seq<Item>) {
    && (forall k | 0 <= k < |items| ::
      items[k].instance in s.instances && s.instances[items[k].instance].serviceId == service)
    && (forall i | i in s.instances && s.instances[i].serviceId == service ::
      exists k | 0 <= k < |items| :: items[k].instance == i)
    && (forall j, k | 0 <= j < k < |items| :: items[j].operation != items[k].operation)
    && (forall j, k | 0 <= j < k < |items| :: items[j].instance != items[k].instance)
  }

  function ServiceRestored(s: Db, service: string, items: seq<Item>, now: Time): Db {
    if !RestoreDeletedAllowed(s, items, now) then s
    else PairsQueued(s.(instances := Reopened(s.instances, service, now)), service, items, RestoreDeletedType,
        StepVolumeReserved, now)
  }

  predicate PurgeDue(i: Instance, at: Time) {
    i.deletedAt.Some? && i.purgeAfter.Some? && i.purgeAfter.value <= at
  }

  predicate PurgeAllowed(s: Db, service: string, at: Time) {
    && ServiceKnown(s.instances, service)
    && forall i | i in s.instances && s.instances[i].serviceId == service :: PurgeDue(s.instances[i], at)
  }

  function InstancesOf(instances: map<string, Instance>, service: string): set<string> {
    set i | i in instances && instances[i].serviceId == service
  }

  predicate Refers(m: DatabaseOperation, service: string, instances: set<string>) {
    m.serviceId == service || (m.instanceId.Some? && m.instanceId.value in instances)
  }

  function MirrorsOf(mirrors: map<Id, DatabaseOperation>, service: string, instances: set<string>): set<Id> {
    set id | id in mirrors && Refers(mirrors[id], service, instances)
  }

  /** ON DELETE SET NULL, on both columns. */
  function DetachedRow(c: Companion, gone: set<Id>, instances: set<string>): Companion {
    c.(operationId := if BelongsTo(c, gone) then None else c.operationId,
       instanceId := if c.instanceId in instances then "" else c.instanceId)
  }

  function Detached(t: map<Id, Companion>, gone: set<Id>, instances: set<string>): map<Id, Companion> {
    map k | k in t :: DetachedRow(t[k], gone, instances)
  }

  /** ON DELETE CASCADE, through either column. */
  function Cascaded(t: map<Id, Companion>, gone: set<Id>, instances: set<string>): map<Id, Companion> {
    map k | k in t && !BelongsTo(t[k], gone) && t[k].instanceId !in instances :: t[k]
  }

  /** DELETE FROM services, with the foreign-key actions the schema declares. */
  function ServiceDeleted(s: Db, service: string): Db {
    var instances := InstancesOf(s.instances, service);
    var gone := MirrorsOf(s.mirrors, service, instances);
    s.(instances := s.instances - instances, mirrors := s.mirrors - gone,
       backups := Detached(s.backups, gone, instances),
       restores := Cascaded(s.restores, gone, instances), upgrades := Cascaded(s.upgrades, gone, instances))
  }

  function ServicePurged(s: Db, service: string, at: Time): Db {
    if PurgeAllowed(s, service, at) then ServiceDeleted(s, service) else s
  }

  // ----- what handlers and the reconciler write ---------------------------

  datatype InstanceChange =
    | StateChange(clearContainer: bool, container: string, desired: Option<DesiredState>,
        status: Option<InstanceStatus>)
    | UpgradeCommit(previousImage: string, targetImage: string, container: string)

  predicate ChangeApplies(instances: map<string, Instance>, instance: string, c: InstanceChange) {
    && instance in instances
    && (c.UpgradeCommit? ==> instances[instance].imageRef == c.previousImage && instances[instance].deletedAt.None?)
  }

  function ChangedInstance(i: Instance, c: InstanceChange, now: Time): Instance {
    match c
    case StateChange(clear, container, desired, status) =>
      i.(containerId := if clear then "" else if container != "" then container else i.containerId,
         desired := if desired.Some? then desired.value else i.desired,
         status := if status.Some? then status.value else i.status, updatedAt := now)
    case UpgradeCommit(_, target, container) =>
      i.(imageRef := target, containerId := container, desired := DesiredRunning, status := Healthy, updatedAt := now)
  }

  function InstanceWritten(s: Db, instance: string, c: InstanceChange, now: Time): Db {
    if !ChangeApplies(s.instances, instance, c) then s
    else s.(instances := s.instances[instance := ChangedInstance(s.instances[instance], c, now)])
  }

  datatype JobWrite =
    | BackupStarted(id: Id)
    | BackupCompleted(id: Id, status: JobStatus)
    | BackupDeleting(id: Id)
    | BackupDeleted(id: Id)
    | RestoreStatus(id: Id, status: JobStatus)
    | UpgradeStatus(id: Id, status: JobStatus)

  function WithStatus(t: map<Id, Companion>, id: Id, status: JobStatus, now: Time): map<Id, Companion> {
    if id in t then t[id := t[id].(status := status, updatedAt := now)] else t
  }

  predicate InUse(restores: map<Id, Companion>, backup: Id) { exists k | k in restores :: backup in restores[k].uses }

  predicate JobWriteApplies(s: Db, w: JobWrite) {
    match w
    case BackupStarted(id) => id in s.backups && s.backups[id].status == JobQueued
    case BackupCompleted(id, status) => id in s.backups && status in {JobSuccess, JobFailed, JobCancelled}
    case BackupDeleting(id) => id in s.backups && s.backups[id].status in {JobSuccess, JobDeleting}
    case BackupDeleted(id) => id in s.backups && s.backups[id].status in {JobDeleting, JobFailed, JobCancelled}
        && !InUse(s.restores, id)
    case RestoreStatus(id, status) => id in s.restores && status in {JobQueued, JobRunning, JobSuccess, JobFailed}
    case UpgradeStatus(id, status) => id in s.upgrades && status in {JobRunning, JobSuccess, JobFailed, JobRolledBack}
  }

  function JobWritten(s: Db, w: JobWrite, now: Time): Db {
    if !JobWriteApplies(s, w) then s
    else match w
      case BackupStarted(id) => s.(backups := WithStatus(s.backups, id, JobRunning, now))
      case BackupCompleted(id, status) => s.(backups := WithStatus(s.backups, id, status, now))
      case BackupDeleting(id) => s.(backups := WithStatus(s.backups, id, JobDeleting, now))
      case BackupDeleted(id) => s.(backups := s.backups - {id})
      case RestoreStatus(id, status) => s.(restores := WithStatus(s.restores, id, status, now))
      case UpgradeStatus(id, status) => s.(upgrades := WithStatus(s.upgrades, id, status, now))
  }
}
