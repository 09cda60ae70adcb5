/** External database access: gateway endpoints, connections and their credentials.

    A connection's route only links it to an engine, so a connection carries the engine itself.
    Secrets are the sealed texts; '' is an erased one. */
module Gateways {
  import opened Tables
  import Sql

  datatype DesiredStatus = Absent | Active | Deleting
  datatype ObservedStatus =
    | ObservedAbsent | ObservedProvisioning | ObservedActive | ObservedDegraded | ObservedFailed | ObservedDeleting
  datatype ConnectionStatus = Pending | Enabled | Disabled | Expired | Rotating | Revoking | Revoked | Broken
  datatype CredentialState = Current | Grace | Retired

  datatype Endpoint = Endpoint(desired: DesiredStatus, observed: ObservedStatus)
  datatype Connection = Connection(engine: string, status: ConnectionStatus, generation: nat, expiresAt: Option<Time>)
  datatype Credential = Credential(
    connection: Id, generation: nat, state: CredentialState, password: string, verifier: string,
        graceDeadline: Option<Time>) {
    predicate Erased() { password == "" && verifier == "" }
    predicate Sealed() { password != "" && verifier != "" }
  }

  datatype WorkType =
    | ProvisionWork | TeardownWork | CreateWork | UpdateWork | DisableWork | EnableWork | RotateWork | RevokeWork
    | ExpireWork
  datatype Work = Work(engine: string, connection: Option<Id>, workType: WorkType, status: Status)

  datatype Gateway = Gateway(
    endpoints: map<string, Endpoint>, connections: map<Id, Connection>, credentials: map<Id, Credential>,
        work: map<Id, Work>)

  // ----- the transactions -------------------------------------------------

  predicate IsPending(w: Work) { w.status == Queued || w.status == Running }

  function Provisioned(e: Endpoint): Endpoint {
    Endpoint(Active, if e.observed == ObservedActive then ObservedActive else ObservedProvisioning)
  }

  function EndpointEnsured(g: Gateway, engine: string): Gateway {
    if engine in g.endpoints then g else g.(endpoints := g.endpoints[engine := Endpoint(Absent, ObservedAbsent)])
  }

  function ProvisionQueued(g: Gateway, engine: string, workId: Id): Gateway {
    if engine !in g.endpoints || g.endpoints[engine].desired == Deleting || workId in g.work then g
    else g.(endpoints := g.endpoints[engine := Provisioned(g.endpoints[engine])],
            work := g.work[workId := Work(engine, None, ProvisionWork, Queued)])
  }

  predicate EngineUnused(g: Gateway, engine: string) {
    forall c | c in g.connections :: g.connections[c].engine == engine ==> g.connections[c].status == Revoked
  }

  predicate TeardownAllowed(g: Gateway, engine: string, workId: Id) {
    && engine in g.endpoints && EngineUnused(g, engine) && workId !in g.work
    && forall w | w in g.work ::
      g.work[w].engine == engine && g.work[w].workType == TeardownWork ==> !IsPending(g.work[w])
  }

  function TeardownQueued(g: Gateway, engine: string, workId: Id): Gateway {
    if !TeardownAllowed(g, engine, workId) then g
    else g.(endpoints := g.endpoints[engine := Endpoint(Deleting, ObservedDeleting)],
            work := g.work[workId := Work(engine, None, TeardownWork, Queued)])
  }

  /** `accepted`: name, profile and address ranges are valid and the instance is running. */
  predicate CreateAllowed(g: Gateway, id: Id, engine: string, accepted: bool, expiresAt: Option<Time>, now: Time,
      workId: Id) {
    && accepted
    && engine in g.endpoints && g.endpoints[engine].desired != Deleting
    && (expiresAt.Some? ==> expiresAt.value > now)
    && id !in g.connections && workId !in g.work
  }

  function ConnectionCreated(g: Gateway, id: Id, engine: string, accepted: bool, expiresAt: Option<Time>, now: Time,
      workId: Id): Gateway {
    if !CreateAllowed(g, id, engine, accepted, expiresAt, now, workId) then g
    else g.(connections := g.connections[id := Connection(engine, Pending, 0, expiresAt)],
            endpoints := g.endpoints[engine := Provisioned(g.endpoints[engine])],
            work := g.work[workId := Work(engine, Some(id), CreateWork, Queued)])
  }

  function ConnectionUpdated(g: Gateway, id: Id, accepted: bool, expiresAt: Option<Time>, workId: Id): Gateway {
    if !accepted || id !in g.connections || g.connections[id].status in {Revoked, Revoking} || workId in g.work then g
    else
      var c := g.connections[id];
      g.(connections := g.connections[id := c.(status := if c.status == Broken then Pending
          else c.status, expiresAt := expiresAt)],
         work := g.work[workId := Work(c.engine, Some(id), UpdateWork, Queued)])
  }

  const MAXIMUM_GRACE_HOURS := 168

  datatype Action = Disable | Enable | Rotate(graceHours: int) | Revoke

  predicate ActionAllowed(g: Gateway, id: Id, action: Action, now: Time, workId: Id) {
    && id in g.connections && workId !in g.work
    && var c := g.connections[id];
       match action
       case Disable => c.status == Enabled || c.status == Rotating
       case Enable => (c.status == Disabled || c.status == Expired || c.status == Broken)
           && (c.expiresAt.Some? ==> c.expiresAt.value > now)
       case Rotate(graceHours) => c.status == Enabled && 0 <= graceHours <= MAXIMUM_GRACE_HOURS
       case Revoke =>
         c.status != Revoked
         && forall w | w in g.work ::
           g.work[w].connection == Some(id) && g.work[w].workType == RevokeWork ==> !IsPending(g.work[w])
  }

  function AfterAction(action: Action): (ConnectionStatus, WorkType) {
    match action
    case Disable => (Disabled, DisableWork)
    case Enable => (Pending, EnableWork)
    case Rotate(_) => (Rotating, RotateWork)
    case Revoke => (Revoking, RevokeWork)
  }

  function ActionQueued(g: Gateway, id: Id, action: Action, now: Time, workId: Id): Gateway {
    if !ActionAllowed(g, id, action, now, workId) then g
    else
      g.(connections := g.connections[id := g.connections[id].(status := AfterAction(action).0)],
         work := g.work[workId := Work(g.connections[id].engine, Some(id), AfterAction(action).1, Queued)])
  }

  /** One due connection of the expiry sweep. */
  function ConnectionExpired(g: Gateway, id: Id, now: Time, workId: Id): Gateway {
    if id !in g.connections || g.connections[id].status != Enabled || workId in g.work
       || g.connections[id].expiresAt.None? || g.connections[id].expiresAt.value > now
       || (exists w | w in g.work ::
         g.work[w].connection == Some(id) && g.work[w].workType == ExpireWork && IsPending(g.work[w])) then g
    else
      g.(connections := g.connections[id := g.connections[id].(status := Expired)],
         work := g.work[workId := Work(g.connections[id].engine, Some(id), ExpireWork, Queued)])
  }

  /** UNIQUE(connection_id, generation) */
  predicate GenerationTaken(credentials: map<Id, Credential>, connection: Id, generation: nat) {
    exists k | k in credentials :: credentials[k].connection == connection && credentials[k].generation == generation
  }

  /** The credential is made for the generation after the one read just before. */
  predicate CredentialAllowed(g: Gateway, id: Id, connection: Id, password: string, verifier: string) {
    && connection in g.connections && id !in g.credentials && password != "" && verifier != ""
    && !GenerationTaken(g.credentials, connection, g.connections[connection].generation + 1)
  }

  function CredentialCreated(g: Gateway, id: Id, connection: Id, password: string, verifier: string): Gateway {
    if !CredentialAllowed(g, id, connection, password, verifier) then g
    else
      var next := g.connections[connection].generation + 1;
      g.(credentials := g.credentials[id := Credential(connection, next, Current, password, verifier, None)],
         connections := g.connections[connection := g.connections[connection].(generation := next)])
  }

  function InGrace(c: Credential, deadline: Time): Credential { c.(state := Grace, graceDeadline := Some(deadline)) }
  function Erase(c: Credential): Credential {
    c.(state := Retired, password := "", verifier := "", graceDeadline := None)
  }

  function GraceSet(g: Gateway, id: Id, deadline: Time): Gateway {
    if id !in g.credentials || g.credentials[id].state != Current then g
    else g.(credentials := g.credentials[id := InGrace(g.credentials[id], deadline)])
  }

  function CredentialRevoked(g: Gateway, id: Id): Gateway {
    if id !in g.credentials || g.credentials[id].state == Retired then g
    else g.(credentials := g.credentials[id := Erase(g.credentials[id])])
  }

  predicate RollbackAllowed(g: Gateway, connection: Id, failed: Id, previous: int) {
    && previous >= 1
    && failed in g.credentials && g.credentials[failed].connection == connection
    && connection in g.connections && g.connections[connection].generation > previous
  }

  function RotationRolledBack(g: Gateway, connection: Id, failed: Id, previous: int): Gateway {
    if !RollbackAllowed(g, connection, failed, previous) then g
    else
      g.(credentials := g.credentials[failed := Erase(g.credentials[failed])],
         connections := g.connections[connection := g.connections[connection].(generation := previous,
             status := Enabled)])
  }

  function RotationCompleted(g: Gateway, connection: Id, previous: Option<Id>, deadline: Time): Gateway {
    if connection !in g.connections || g.connections[connection].status !in {Pending, Rotating, Broken} then g
    else
      g.(credentials :=
           if previous.Some? && previous.value in g.credentials
               && g.credentials[previous.value].connection == connection
              && g.credentials[previous.value].state == Current
           then g.credentials[previous.value := InGrace(g.credentials[previous.value], deadline)] else g.credentials,
         connections := g.connections[connection := g.connections[connection].(status := Enabled)])
  }

  function AllErased(credentials: map<Id, Credential>, connection: Id): map<Id, Credential> {
    map k | k in credentials ::
      if credentials[k].connection == connection then Erase(credentials[k]) else credentials[k]
  }

  function RevocationFinalized(g: Gateway, connection: Id): Gateway {
    if connection !in g.connections then g
    else g.(credentials := AllErased(g.credentials, connection),
            connections := g.connections[connection := g.connections[connection].(status := Revoked)])
  }

  function StatusSet(g: Gateway, connection: Id, status: ConnectionStatus): Gateway {
    if connection !in g.connections then g
    else g.(connections := g.connections[connection := g.connections[connection].(status := status)])
  }

  function RuntimeCleared(g: Gateway, engine: string): Gateway {
    if engine !in g.endpoints then g else g.(endpoints := g.endpoints[engine := Endpoint(Absent, ObservedAbsent)])
  }

  function EndpointSet(g: Gateway, engine: string, desired: Option<DesiredStatus>,
      observed: Option<ObservedStatus>): Gateway {
    if engine !in g.endpoints then g
    else
      var e := g.endpoints[engine];
      g.(endpoints := g.endpoints[engine := Endpoint(if desired.None? then e.desired else desired.value,
                                                     if observed.None? then e.observed else observed.value)])
  }

  function WorkUpdated(g: Gateway, workId: Id, status: Status): Gateway {
    if workId !in g.work then g else g.(work := g.work[workId := g.work[workId].(status := status)])
  }

  /** DELETE FROM services, as it reaches this part of the schema: the routes and connections of the purged
      instances go, with all credentials of those connections; gateway work only loses its reference. */
  function ConnectionsPurged(g: Gateway, gone: set<Id>): Gateway {
    g.(connections := g.connections - gone,
       credentials := map k | k in g.credentials && g.credentials[k].connection !in gone :: g.credentials[k],
       work := map w | w in g.work ::
         if g.work[w].connection.Some? && g.work[w].connection.value in gone then g.work[w].(connection := None)
             else g.work[w])
  }

  // ----- steps ------------------------------------------------------------

  datatype Step =
    | EnsureEndpoint(engine: string)
    | QueueProvision(engine: string, workId: Id)
    | QueueTeardown(engine: string, workId: Id)
    | CreateConnection(id: Id, engine: string, accepted: bool, expiresAt: Option<Time>, now: Time, workId: Id)
    | UpdateConnection(id: Id, accepted: bool, expiresAt: Option<Time>, workId: Id)
    | QueueAction(id: Id, action: Action, now: Time, workId: Id)
    | ExpireConnection(id: Id, now: Time, workId: Id)
    | CreateCredential(id: Id, connection: Id, password: string, verifier: string)
    | SetGrace(id: Id, deadline: Time)
    | RevokeCredential(id: Id)
    | RollbackRotation(connection: Id, failed: Id, previous: int)
    | CompleteRotation(connection: Id, previousCredential: Option<Id>, deadline: Time)
    | FinalizeRevocation(connection: Id)
    | SetConnectionStatus(connection: Id, status: ConnectionStatus)
    | SetEndpointState(engine: string, desired: Option<DesiredStatus>, observed: Option<ObservedStatus>)
    | ClearRuntime(engine: string)
    | FinishWork(workId: Id, workStatus: Status)
    | PurgeConnections(gone: set<Id>)

  function Effect(g: Gateway, step: Step): Gateway {
    match step
    case EnsureEndpoint(engine) => EndpointEnsured(g, engine)
    case QueueProvision(engine, workId) => ProvisionQueued(g, engine, workId)
    case QueueTeardown(engine, workId) => TeardownQueued(g, engine, workId)
    case CreateConnection(id, engine, accepted, expiresAt, now, workId) => ConnectionCreated(g, id, engine, accepted,
        expiresAt, now, workId)
    case UpdateConnection(id, accepted, expiresAt, workId) => ConnectionUpdated(g, id, accepted, expiresAt, workId)
    case QueueAction(id, action, now, workId) => ActionQueued(g, id, action, now, workId)
    case ExpireConnection(id, now, workId) => ConnectionExpired(g, id, now, workId)
    case CreateCredential(id, connection, password, verifier) => CredentialCreated(g, id, connection, password,
        verifier)
    case SetGrace(id, deadline) => GraceSet(g, id, deadline)
    case RevokeCredential(id) => CredentialRevoked(g, id)
    case RollbackRotation(connection, failed, previous) => RotationRolledBack(g, connection, failed, previous)
    case CompleteRotation(connection, previous, deadline) => RotationCompleted(g, connection, previous, deadline)
    case FinalizeRevocation(connection) => RevocationFinalized(g, connection)
    case SetConnectionStatus(connection, status) => StatusSet(g, connection, status)
    case SetEndpointState(engine, desired, observed) => EndpointSet(g, engine, desired, observed)
    case ClearRuntime(engine) => RuntimeCleared(g, engine)
    case FinishWork(workId, status) => WorkUpdated(g, workId, status)
    case PurgeConnections(gone) => ConnectionsPurged(g, gone)
  }

  /** The worker only rolls back or re-activates connections that are not revoked, revokes one only by
      finalising it, and never asks for an endpoint's deletion itself. */
  predicate Proper(g: Gateway, step: Step) {
    match step
    case RollbackRotation(connection, _, _) => connection in g.connections ==>
      g.connections[connection].status != Revoked
    case SetConnectionStatus(connection, _) => connection in g.connections ==>
      g.connections[connection].status != Revoked
    case SetEndpointState(_, desired, _) => desired != Some(Deleting)
    case _ => true
  }

  // ----- credentials ------------------------------------------------------

  /** Secret material is there exactly until the credential is revoked. */
  ghost predicate SecretsOk(credentials: map<Id, Credential>) {
    forall k | k in credentials ::
      if credentials[k].state == Retired then credentials[k].Erased() else credentials[k].Sealed()
  }

  function Rank(s: CredentialState): nat {
    match s case Current => 0 case Grace => 1 case Retired => 2
  }

  /** A credential that stays keeps its connection and generation, and only moves forward. */
  ghost predicate OnlyForward(a: map<Id, Credential>, b: map<Id, Credential>) {
    forall k | k in a && k in b ::
      b[k].connection == a[k].connection && b[k].generation == a[k].generation && Rank(a[k].state) <= Rank(b[k].state)
  }

  predicate TouchesCredentials(step: Step) {
    step.CreateCredential? || step.SetGrace? || step.RevokeCredential? || step.RollbackRotation?
        || step.CompleteRotation?
    || step.FinalizeRevocation? || step.PurgeConnections?
  }

  predicate TouchesConnections(step: Step) {
    step.CreateConnection? || step.UpdateConnection? || step.QueueAction? || step.ExpireConnection?
        || step.SetConnectionStatus?
  }

  lemma OthersLeaveCredentials(g: Gateway, step: Step)
    requires !TouchesCredentials(step)
    ensures Effect(g, step).credentials == g.credentials
  {
    hide EngineUnused, IsPending, ActionAllowed, TeardownAllowed, CreateAllowed, Provisioned, AfterAction;
  }

  lemma OneCredentialMovesForward(g: Gateway, step: Step)
    requires step.CreateCredential? || step.SetGrace? || step.RevokeCredential?
    requires SecretsOk(g.credentials)
    ensures OnlyForward(g.credentials, Effect(g, step).credentials) && SecretsOk(Effect(g, step).credentials)
  {
    hide GenerationTaken;
  }

  lemma RotationMovesForward(g: Gateway, step: Step)
    requires (step.RollbackRotation? || step.CompleteRotation?) && SecretsOk(g.credentials)
    ensures OnlyForward(g.credentials, Effect(g, step).credentials) && SecretsOk(Effect(g, step).credentials)
  {}

  lemma RevocationMovesForward(g: Gateway, step: Step)
    requires (step.FinalizeRevocation? || step.PurgeConnections?) && SecretsOk(g.credentials)
    ensures OnlyForward(g.credentials, Effect(g, step).credentials) && SecretsOk(Effect(g, step).credentials)
  {}

  lemma StepMovesForward(g: Gateway, step: Step)
    requires SecretsOk(g.credentials)
    ensures OnlyForward(g.credentials, Effect(g, step).credentials) && SecretsOk(Effect(g, step).credentials)
  {
    hide Effect, SecretsOk;
    if step.CreateCredential? || step.SetGrace? || step.RevokeCredential? { OneCredentialMovesForward(g, step); }
    else if step.RollbackRotation? || step.CompleteRotation? { RotationMovesForward(g, step); }
    else if step.FinalizeRevocation? || step.PurgeConnections? { RevocationMovesForward(g, step); }
    else { OthersLeaveCredentials(g, step); }
  }

  predicate Purges(step: Step, connection: Id) { step.PurgeConnections? && connection in step.gone }

  /** Only a purge of its connection deletes a credential. */
  lemma CredentialsStay(g: Gateway, step: Step, k: Id)
    requires k in g.credentials && !Purges(step, g.credentials[k].connection)
    ensures k in Effect(g, step).credentials
  {
    hide EngineUnused, IsPending, ActionAllowed, TeardownAllowed, CreateAllowed, Provisioned, AfterAction,
        GenerationTaken;
  }

  // ----- the teardown guard -----------------------------------------------

  ghost predicate Guarded(g: Gateway) {
    forall e | e in g.endpoints && g.endpoints[e].desired == Deleting :: EngineUnused(g, e)
  }

  ghost predicate Guardable(g: Gateway) {
    Guarded(g) && forall c | c in g.connections :: g.connections[c].engine in g.endpoints
  }

  lemma EndpointStepKeepsGuard(g: Gateway, step: Step)
    requires Guardable(g) && Proper(g, step) && !TouchesCredentials(step) && !TouchesConnections(step)
    ensures Guardable(Effect(g, step))
  {
    hide IsPending;
    var g' := Effect(g, step);
    assert g'.connections == g.connections;
    forall e | e in g'.endpoints && g'.endpoints[e].desired == Deleting ensures EngineUnused(g', e) {
      assert EngineUnused(g, e);
    }
  }

  lemma ConnectionStepKeepsGuard(g: Gateway, step: Step)
    requires Guardable(g) && Proper(g, step) && TouchesConnections(step)
    ensures Guardable(Effect(g, step))
  {
    hide IsPending;
    var g' := Effect(g, step);
    forall e, c | e in g'.endpoints && g'.endpoints[e].desired == Deleting && c in g'.connections
        && g'.connections[c].engine == e
      ensures g'.connections[c].status == Revoked
    {
      assert EngineUnused(g, e);
    }
  }

  lemma CredentialStepKeepsGuard(g: Gateway, step: Step)
    requires Guardable(g) && Proper(g, step) && TouchesCredentials(step)
    ensures Guardable(Effect(g, step))
  {
    hide GenerationTaken, AllErased, InGrace, Erase;
    var g' := Effect(g, step);
    forall e, c | e in g'.endpoints && g'.endpoints[e].desired == Deleting && c in g'.connections
        && g'.connections[c].engine == e
      ensures g'.connections[c].status == Revoked
    {
      assert EngineUnused(g, e);
    }
  }

  lemma ProperStepKeepsGuard(g: Gateway, step: Step)
    requires Guardable(g) && Proper(g, step)
    ensures Guardable(Effect(g, step))
  {
    hide Guardable, Proper, Effect;
    if TouchesCredentials(step) { CredentialStepKeepsGuard(g, step); }
    else if TouchesConnections(step) { ConnectionStepKeepsGuard(g, step); }
    else { EndpointStepKeepsGuard(g, step); }
  }

  /** A write to a revoked connection that makes it live again is what the guard does not survive: it
      holds afterwards exactly if the endpoint is not being deleted or the status written is 'revoked'. */
  lemma StatusKeepsGuardIff(g: Gateway, connection: Id, status: ConnectionStatus)
    requires Guardable(g) && connection in g.connections
    ensures Guardable(StatusSet(g, connection, status))
       <==> (g.endpoints[g.connections[connection].engine].desired != Deleting || status == Revoked)
  {
    var g' := StatusSet(g, connection, status);
    var e := g.connections[connection].engine;
    if g.endpoints[e].desired == Deleting && status != Revoked {
      assert g'.connections[connection].engine == e && g'.connections[connection].status != Revoked;
      assert !EngineUnused(g', e);
    } else {
      forall e', c | e' in g'.endpoints && g'.endpoints[e'].desired == Deleting && c in g'.connections
          && g'.connections[c].engine == e'
        ensures g'.connections[c].status == Revoked
      {
        assert g.connections[c].status == Revoked || c == connection;
      }
    }
  }

  /** Likewise a rollback, which always writes 'active': its only guard is the generation. */
  lemma RollbackKeepsGuardIff(g: Gateway, connection: Id, failed: Id, previous: int)
    requires Guardable(g) && RollbackAllowed(g, connection, failed, previous)
    ensures Guardable(RotationRolledBack(g, connection, failed, previous))
       <==> g.endpoints[g.connections[connection].engine].desired != Deleting
  {
    var g' := RotationRolledBack(g, connection, failed, previous);
    var same := StatusSet(g, connection, Enabled);
    StatusKeepsGuardIff(g, connection, Enabled);
    assert g'.endpoints == same.endpoints && g'.connections.Keys == same.connections.Keys;
    forall c | c in g'.connections
      ensures g'.connections[c].engine == same.connections[c].engine
          && g'.connections[c].status == same.connections[c].status {}
    SameGuard(g', same);
  }

  lemma SameGuard(a: Gateway, b: Gateway)
    requires a.endpoints == b.endpoints && a.connections.Keys == b.connections.Keys
    requires forall c | c in a.connections ::
      a.connections[c].engine == b.connections[c].engine && a.connections[c].status == b.connections[c].status
    ensures Guardable(a) <==> Guardable(b)
  {
    forall e ensures EngineUnused(a, e) <==> EngineUnused(b, e) {}
  }

  // ----- generations ------------------------------------------------------

  /** Every generation up to the current one has had its credential, and every credential a connection. */
  ghost predicate Dense(g: Gateway) {
    && (forall c: Id, n: nat | c in g.connections && 1 <= n <= g.connections[c].generation ::
      GenerationTaken(g.credentials, c, n))
    && (forall k | k in g.credentials ::
      g.credentials[k].connection in g.connections && g.credentials[k].generation >= 1)
  }

  lemma ForwardKeepsTaken(a: map<Id, Credential>, b: map<Id, Credential>, connection: Id, n: nat)
    requires OnlyForward(a, b) && GenerationTaken(a, connection, n)
    requires forall k | k in a && a[k].connection == connection :: k in b
    ensures GenerationTaken(b, connection, n)
  {
    var k :| k in a && a[k].connection == connection && a[k].generation == n;
    assert k in b && b[k].connection == connection && b[k].generation == n;
  }

  /** A connection whose next generation is already taken. */
  ghost predicate Stuck(g: Gateway, connection: Id) {
    connection in g.connections && GenerationTaken(g.credentials, connection, g.connections[connection].generation + 1)
  }

  /** Until purged a connection stays; its generation moves by one with a new credential, or back with a rollback. */
  lemma GenerationMoves(g: Gateway, step: Step, c: Id)
    requires c in g.connections && !Purges(step, c)
    ensures var g' := Effect(g, step);
      && c in g'.connections
      && (g'.connections[c].generation == g.connections[c].generation
          || (step.CreateCredential? && step.connection == c && !Stuck(g, c)
             && g'.connections[c].generation == g.connections[c].generation + 1)
          || (step.RollbackRotation? && step.connection == c && RollbackAllowed(g, c, step.failed, step.previous)
              && g'.connections[c].generation == step.previous < g.connections[c].generation))
  {}

  /** A new credential is one past the connection's generation, which moves up to it. */
  lemma NewCredentials(g: Gateway, step: Step, k: Id)
    requires k in Effect(g, step).credentials && k !in g.credentials
    ensures var g' := Effect(g, step);
      && step.CreateCredential? && k == step.id && !Stuck(g, step.connection) && step.connection in g.connections
      && g'.credentials[k].connection == step.connection
      && g'.credentials[k].generation == g.connections[step.connection].generation + 1
  {}

  lemma StepKeepsDense(g: Gateway, step: Step)
    requires Dense(g) && SecretsOk(g.credentials)
    ensures Dense(Effect(g, step))
  {
    hide Effect, SecretsOk;
    var g' := Effect(g, step);
    StepMovesForward(g, step);
    forall k | k in g'.credentials
      ensures g'.credentials[k].connection in g'.connections && g'.credentials[k].generation >= 1
    {
      if k !in g.credentials {
        NewCredentials(g, step, k);
        GenerationMoves(g, step, step.connection);
      } else {
        PurgedWithConnection(g, step, k);
        GenerationMoves(g, step, g.credentials[k].connection);
      }
    }
    forall c: Id, n: nat | c in g'.connections
        && 1 <= n <= g'.connections[c].generation ensures GenerationTaken(g'.credentials, c, n) {
      TakenAfterStep(g, step, c, n);
    }
  }

  lemma PurgedWithConnection(g: Gateway, step: Step, k: Id)
    requires k in g.credentials && k in Effect(g, step).credentials
    ensures !Purges(step, g.credentials[k].connection)
  {
    hide EngineUnused, IsPending, ActionAllowed, TeardownAllowed, CreateAllowed, Provisioned, AfterAction,
        GenerationTaken;
  }

  lemma PurgedIsGone(g: Gateway, step: Step, c: Id)
    requires Purges(step, c)
    ensures c !in Effect(g, step).connections
    ensures forall k | k in Effect(g, step).credentials :: Effect(g, step).credentials[k].connection != c
  {}

  lemma TakenAfterStep(g: Gateway, step: Step, c: Id, n: nat)
    requires Dense(g) && SecretsOk(g.credentials)
    requires c in Effect(g, step).connections && 1 <= n <= Effect(g, step).connections[c].generation
    ensures GenerationTaken(Effect(g, step).credentials, c, n)
  {
    hide SecretsOk;
    if Purges(step, c) {
      PurgedIsGone(g, step, c);
    } else if c in g.connections && n <= g.connections[c].generation {
      TakenStays(g, step, c, n);
    } else {
      NewGenerationTaken(g, step, c, n);
    }
  }

  lemma TakenStays(g: Gateway, step: Step, c: Id, n: nat)
    requires SecretsOk(g.credentials) && !Purges(step, c) && GenerationTaken(g.credentials, c, n)
    ensures GenerationTaken(Effect(g, step).credentials, c, n)
  {
    hide Effect, SecretsOk;
    StepMovesForward(g, step);
    forall k | k in g.credentials && g.credentials[k].connection == c { CredentialsStay(g, step, k); }
    ForwardKeepsTaken(g.credentials, Effect(g, step).credentials, c, n);
  }

  lemma NewGenerationTaken(g: Gateway, step: Step, c: Id, n: nat)
    requires !Purges(step, c) && c in Effect(g, step).connections && 1 <= n <= Effect(g, step).connections[c].generation
    requires c in g.connections ==> n > g.connections[c].generation
    ensures GenerationTaken(Effect(g, step).credentials, c, n)
  {
    hide EngineUnused, IsPending, Provisioned, AfterAction;
    if step.CreateCredential? {
      assert Effect(g, step).credentials[step.id].connection == c
          && Effect(g, step).credentials[step.id].generation == n;
    }
  }

  // ----- statuses ---------------------------------------------------------

  /** How a request changes the status of a connection, and from which. */
  predicate RequestMoves(a: Connection, b: Connection, action: Action, now: Time) {
    match action
    case Disable => a.status in {Enabled, Rotating} && b.status == Disabled
    case Enable => a.status in {Disabled, Expired, Broken} && b.status == Pending
        && (a.expiresAt.Some? ==> now < a.expiresAt.value)
    case Rotate(hours) => a.status == Enabled && b.status == Rotating && 0 <= hours <= 168
    case Revoke => a.status != Revoked && b.status == Revoking
  }

  /** Over all 18 steps, what can change the status of a connection that stays, and to what. */
  lemma ConnectionMoves(g: Gateway, step: Step, c: Id)
    requires c in g.connections && c in Effect(g, step).connections
    requires Effect(g, step).connections[c].status != g.connections[c].status
    ensures var a, b := g.connections[c], Effect(g, step).connections[c];
      && b.engine == a.engine
      && match step
         case UpdateConnection(id, _, _, _) => id == c && a.status == Broken && b.status == Pending
         case QueueAction(id, action, now, _) => id == c && RequestMoves(a, b, action, now)
         case ExpireConnection(id, now, _) => id == c && a.status == Enabled && b.status == Expired
             && a.expiresAt.Some? && a.expiresAt.value <= now
         case RollbackRotation(id, _, previous) => id == c && b.status == Enabled && b.generation == previous
         case CompleteRotation(id, _, _) => id == c && a.status in {Pending, Rotating, Broken}
             && b.status == Enabled
         case FinalizeRevocation(id) => id == c && b.status == Revoked
         case SetConnectionStatus(id, status) => id == c && b.status == status
         case _ => false
  {
    hide EngineUnused, IsPending, TeardownAllowed, GenerationTaken, Provisioned;
  }

  /** A request goes on the queue, and changes the status, exactly from the statuses it is meant for. */
  lemma RequestIff(g: Gateway, c: Id, action: Action, now: Time, workId: Id)
    requires c in g.connections && workId !in g.work
    ensures var a, g' := g.connections[c], ActionQueued(g, c, action, now, workId);
      && (workId in g'.work <==>
            match action
            case Disable => a.status in {Enabled, Rotating}
            case Enable => a.status in {Disabled, Expired, Broken} && (a.expiresAt.Some? ==> now < a.expiresAt.value)
            case Rotate(hours) => a.status == Enabled && 0 <= hours <= 168
            case Revoke => a.status != Revoked && forall w | w in g.work && g.work[w].status in {Queued, Running} ::
              g.work[w].connection != Some(c) || g.work[w].workType != RevokeWork)
      && (workId !in g'.work ==> g' == g)
      && (workId in g'.work ==>
            && g'.work == g.work[workId := g'.work[workId]]
            && g'.work[workId].connection == Some(c) && g'.work[workId].status == Queued
            && g'.work[workId].engine == a.engine
            && g'.connections == g.connections[c := a.(status := g'.connections[c].status)]
            && match action
               case Disable => g'.work[workId].workType == DisableWork && g'.connections[c].status == Disabled
               case Enable => g'.work[workId].workType == EnableWork && g'.connections[c].status == Pending
               case Rotate(_) => g'.work[workId].workType == RotateWork && g'.connections[c].status == Rotating
               case Revoke => g'.work[workId].workType == RevokeWork && g'.connections[c].status == Revoking)
  {}

  /** A new connection needs an endpoint that is not being deleted, and makes it one to run. */
  lemma CreationIff(g: Gateway, c: Id, engine: string, accepted: bool, expiresAt: Option<Time>, now: Time, workId: Id)
    requires c !in g.connections && workId !in g.work
    ensures var g' := ConnectionCreated(g, c, engine, accepted, expiresAt, now, workId);
      && (c in g'.connections <==>
            && accepted && engine in g.endpoints && g.endpoints[engine].desired != Deleting
            && (expiresAt.Some? ==> now < expiresAt.value))
      && (c !in g'.connections ==> g' == g)
      && (c in g'.connections ==>
            && g'.connections == g.connections[c := Connection(engine, Pending, 0, expiresAt)]
            && g'.endpoints[engine].desired == Active
            && g'.work == g.work[workId := Work(engine, Some(c), CreateWork, Queued)])
  {}

  /** A new credential is current, sealed, and of the generation after its connection's. */
  lemma CredentialIff(g: Gateway, k: Id, c: Id, password: string, verifier: string)
    requires c in g.connections && k !in g.credentials
    ensures var g' := CredentialCreated(g, k, c, password, verifier);
      && (k in g'.credentials <==>
            && password != "" && verifier != ""
            && forall j | j in g.credentials && g.credentials[j].connection == c ::
              g.credentials[j].generation != g.connections[c].generation + 1)
      && (k !in g'.credentials ==> g' == g)
      && (k in g'.credentials ==>
            && g'.credentials == g.credentials[k := Credential(c, g.connections[c].generation + 1, Current, password,
                verifier, None)]
            && g'.connections[c] == g.connections[c].(generation := g.connections[c].generation + 1))
  {}

  /** A rollback needs an earlier generation to go back to; it erases the failed credential and no other. */
  lemma RollbackIff(g: Gateway, c: Id, failed: Id, previous: int, k: Id)
    requires c in g.connections && failed in g.credentials && g.credentials[failed].connection == c
    ensures var g' := RotationRolledBack(g, c, failed, previous);
      && (1 <= previous < g.connections[c].generation ==>
            && g'.connections[c].status == Enabled && g'.connections[c].generation == previous
            && g'.credentials[failed].state == Retired && g'.credentials[failed].Erased())
      && (!(1 <= previous < g.connections[c].generation) ==> g' == g)
      && (k in g.credentials && k != failed ==> k in g'.credentials && g'.credentials[k] == g.credentials[k])
  {}

  /** A teardown needs every connection of the engine revoked, and no teardown pending. */
  lemma TeardownIff(g: Gateway, engine: string, workId: Id)
    requires workId !in g.work
    ensures var g' := TeardownQueued(g, engine, workId);
      && (workId in g'.work <==>
            && engine in g.endpoints
            && (forall c | c in g.connections && g.connections[c].engine == engine ::
                  g.connections[c].status == Revoked)
            && (forall w | w in g.work && g.work[w].engine == engine && g.work[w].workType == TeardownWork ::
                  g.work[w].status !in {Queued, Running}))
      && (workId !in g'.work ==> g' == g)
      && (workId in g'.work ==>
            && g'.endpoints == g.endpoints[engine := Endpoint(Deleting, ObservedDeleting)]
            && g'.work == g.work[workId := Work(engine, None, TeardownWork, Queued)])
  {}

  /** What the calls that end a rotation or a connection achieve. */
  lemma EndsTakeEffect(g: Gateway, c: Id, previous: Id, deadline: Time, k: Id)
    requires c in g.connections
    ensures var g' := RotationCompleted(g, c, Some(previous), deadline);
      && (g.connections[c].status in {Pending, Rotating, Broken} ==> g'.connections[c].status == Enabled)
      && (g.connections[c].status in {Pending, Rotating, Broken} && previous in g.credentials
            && g.credentials[previous].connection == c && g.credentials[previous].state == Current ==>
            g'.credentials[previous].state == Grace && g'.credentials[previous].graceDeadline == Some(deadline))
      && (k in g.credentials && k != previous ==> k in g'.credentials && g'.credentials[k] == g.credentials[k])
    ensures var g' := RevocationFinalized(g, c);
      && g'.connections[c].status == Revoked
      && (k in g.credentials && g.credentials[k].connection == c ==>
            k in g'.credentials && g'.credentials[k].state == Retired && g'.credentials[k].Erased())
      && (k in g.credentials && g.credentials[k].connection != c ==>
            k in g'.credentials && g'.credentials[k] == g.credentials[k])
  {}

  // ----- runs -------------------------------------------------------------

  const NOTHING := Gateway(map[], map[], map[], map[])

  datatype Run = Run(states: seq<Gateway>, steps: seq<Step>) {
    ghost predicate Valid() {
      && |states| == |steps| + 1 && states[0] == NOTHING
      && forall k | 0 <= k < |steps| :: Proper(states[k], steps[k]) && states[k + 1] == Effect(states[k], steps[k])
    }
  }

  /** In every reachable state secrets are erased exactly with revocation, and an endpoint that is being
      deleted has no connection that is not revoked. */
  lemma {:induction false} Reachable(r: Run, k: nat)
    requires r.Valid() && k < |r.states|
    ensures SecretsOk(r.states[k].credentials) && Guardable(r.states[k]) && Dense(r.states[k])
  {
    hide Effect, Proper;
    if k > 0 {
      Reachable(r, k - 1);
      StepMovesForward(r.states[k - 1], r.steps[k - 1]);
      ProperStepKeepsGuard(r.states[k - 1], r.steps[k - 1]);
      StepKeepsDense(r.states[k - 1], r.steps[k - 1]);
    }
  }

  /** A credential's state never goes back, over any stretch of a run through which it is kept. */
  lemma {:induction false} CredentialsOnlyMoveForward(r: Run, i: nat, j: nat, k: Id)
    requires r.Valid() && i <= j < |r.states| && forall m | i <= m <= j :: k in r.states[m].credentials
    ensures var c, c' := r.states[i].credentials[k], r.states[j].credentials[k];
      c'.connection == c.connection && c'.generation == c.generation && Rank(c.state) <= Rank(c'.state)
  {
    hide Effect, Proper;
    if i < j {
      CredentialsOnlyMoveForward(r, i, j - 1, k);
      Reachable(r, j - 1);
      StepMovesForward(r.states[j - 1], r.steps[j - 1]);
    }
  }

  /** A credential disappears only with its connection, by a purge. */
  lemma CredentialGoesWithConnection(r: Run, j: nat, k: Id)
    requires r.Valid() && j < |r.steps| && k in r.states[j].credentials && k !in r.states[j + 1].credentials
    ensures Purges(r.steps[j], r.states[j].credentials[k].connection)
    ensures r.states[j].credentials[k].connection !in r.states[j + 1].connections
  {
    hide Effect, Proper;
    if !Purges(r.steps[j], r.states[j].credentials[k].connection) { CredentialsStay(r.states[j], r.steps[j], k); }
    else { PurgedIsGone(r.states[j], r.steps[j], r.states[j].credentials[k].connection); }
  }

  predicate RollsBack(g: Gateway, step: Step, connection: Id) {
    step.RollbackRotation? && step.connection == connection
        && RollbackAllowed(g, connection, step.failed, step.previous)
  }

  /** Some rotation of this connection was rolled back, and the connection has not been purged since. */
  ghost predicate RolledBackBefore(r: Run, k: nat, connection: Id)
    requires k <= |r.steps| < |r.states|
  {
    exists j :: 0 <= j < k && RollsBack(r.states[j], r.steps[j], connection) && KeptFrom(r, j + 1, k, connection)
  }

  ghost predicate KeptFrom(r: Run, j: nat, k: nat, connection: Id)
    requires k < |r.states|
  {
    forall m | j <= m <= k :: connection in r.states[m].connections
  }

  /** No credential of the connection is ahead of its generation. */
  ghost predicate NoneAhead(g: Gateway, connection: Id) {
    forall k | k in g.credentials && g.credentials[k].connection == connection ::
      connection in g.connections && g.credentials[k].generation <= g.connections[connection].generation
  }

  lemma StepKeepsNoneAhead(g: Gateway, step: Step, c: Id)
    requires SecretsOk(g.credentials) && NoneAhead(g, c) && !RollsBack(g, step, c)
    ensures NoneAhead(Effect(g, step), c)
  {
    hide Effect, SecretsOk, RollbackAllowed, GenerationTaken;
    var g' := Effect(g, step);
    StepMovesForward(g, step);
    if Purges(step, c) {
      PurgedIsGone(g, step, c);
    } else {
      forall k | k in g'.credentials && g'.credentials[k].connection == c
        ensures c in g'.connections && g'.credentials[k].generation <= g'.connections[c].generation
      {
        if k in g.credentials {
          GenerationMoves(g, step, c);
        } else {
          NewCredentials(g, step, k);
          CreationMovesUp(g, step, k);
        }
      }
    }
  }

  lemma CreationMovesUp(g: Gateway, step: Step, k: Id)
    requires step.CreateCredential? && k in Effect(g, step).credentials && k !in g.credentials
    ensures step.connection in Effect(g, step).connections
    ensures Effect(g, step).connections[step.connection].generation == Effect(g, step).credentials[k].generation
  {}

  /** The failed generation keeps its credential row, and the next attempt would need that generation
      again: after one rollback a connection never gets another credential, and before one it always can. */
  lemma {:induction false} StuckIffRolledBack(r: Run, k: nat, connection: Id)
    requires r.Valid() && k < |r.states|
    ensures Stuck(r.states[k], connection) <==> RolledBackBefore(r, k, connection)
    ensures !RolledBackBefore(r, k, connection) ==> NoneAhead(r.states[k], connection)
  {
    hide Effect, Proper, GenerationTaken, RollbackAllowed;
    if k == 0 {
      assert !RolledBackBefore(r, 0, connection);
    } else {
      var g, step, g' := r.states[k - 1], r.steps[k - 1], r.states[k];
      StuckIffRolledBack(r, k - 1, connection);
      Reachable(r, k - 1);
      if Purges(step, connection) { PurgedIsGone(g, step, connection); }
      RolledBackStep(r, k, connection);
      if RollsBack(g, step, connection) {
        RollbackSticks(g, step, connection);
      } else if Purges(step, connection) {
        assert NoneAhead(g', connection);
      } else if RolledBackBefore(r, k - 1, connection) {
        StuckStays(g, step, connection);
      } else {
        StepKeepsNoneAhead(g, step, connection);
        NoneAheadIsFree(g', connection);
      }
    }
  }

  lemma RolledBackStep(r: Run, k: nat, connection: Id)
    requires r.Valid() && 0 < k < |r.states|
    ensures RolledBackBefore(r, k, connection)
       <==> (RolledBackBefore(r, k - 1, connection) || RollsBack(r.states[k - 1], r.steps[k - 1], connection))
            && connection in r.states[k].connections
  {
    hide Effect, Proper, RollbackAllowed;
    if RollsBack(r.states[k - 1], r.steps[k - 1], connection) && connection in r.states[k].connections {
      assert KeptFrom(r, k - 1 + 1, k, connection);
    } else if RolledBackBefore(r, k - 1, connection) && connection in r.states[k].connections {
      var j :| 0 <= j < k - 1 && RollsBack(r.states[j], r.steps[j], connection)
          && KeptFrom(r, j + 1, k - 1, connection);
      assert KeptFrom(r, j + 1, k, connection);
    }
    if RolledBackBefore(r, k, connection) {
      var j :| 0 <= j < k && RollsBack(r.states[j], r.steps[j], connection) && KeptFrom(r, j + 1, k, connection);
      assert connection in r.states[k].connections;
      if j < k - 1 { assert KeptFrom(r, j + 1, k - 1, connection); }
    }
  }

  lemma RollbackSticks(g: Gateway, step: Step, c: Id)
    requires Dense(g) && RollsBack(g, step, c)
    ensures Stuck(Effect(g, step), c)
  {
    var n := step.previous + 1;
    assert GenerationTaken(g.credentials, c, n);
    var k :| k in g.credentials && g.credentials[k].connection == c && g.credentials[k].generation == n;
    assert Effect(g, step).credentials[k].connection == c && Effect(g, step).credentials[k].generation == n;
  }

  lemma StuckStays(g: Gateway, step: Step, c: Id)
    requires Dense(g) && SecretsOk(g.credentials) && Stuck(g, c) && !Purges(step, c)
    ensures Stuck(Effect(g, step), c)
  {
    hide Effect, SecretsOk, RollbackAllowed, GenerationTaken;
    GenerationMoves(g, step, c);
    TakenStays(g, step, c, Effect(g, step).connections[c].generation + 1);
  }

  lemma NoneAheadIsFree(g: Gateway, c: Id)
    requires NoneAhead(g, c)
    ensures !Stuck(g, c)
  {}

  /** A well-formed new credential is accepted exactly if the connection was never rolled back. */
  lemma NewCredentialIffNeverRolledBack(r: Run, k: nat, id: Id, connection: Id, password: string, verifier: string)
    requires r.Valid() && k < |r.states| && connection in r.states[k].connections
    requires id !in r.states[k].credentials && password != "" && verifier != ""
    ensures CredentialAllowed(r.states[k], id, connection, password, verifier) <==> !RolledBackBefore(r, k, connection)
  {
    hide Effect, Proper, GenerationTaken, RolledBackBefore;
    StuckIffRolledBack(r, k, connection);
  }

  // ----- two runs ---------------------------------------------------------

  ghost function Last(r: Run): Gateway
    requires r.states != []
  {
    r.states[|r.states| - 1]
  }

  lemma Grow(r: Run, step: Step, next: Gateway) returns (r': Run)
    requires r.Valid() && Proper(Last(r), step) && next == Effect(Last(r), step)
    ensures r'.Valid() && r'.steps == r.steps + [step] && r'.states == r.states + [next] && Last(r') == next
  {
    hide Proper, Effect;
    r' := Run(r.states + [next], r.steps + [step]);
  }

  /** One connection, number 1, on one engine. */
  function Stage(engine: string, endpoint: Endpoint, status: ConnectionStatus, generation: nat,
                 credentials: map<Id, Credential>, work: map<Id, Work>): Gateway {
    Gateway(map[engine := endpoint], map[1 := Connection(engine, status, generation, None)], credentials, work)
  }

  const READY := Endpoint(Active, ObservedProvisioning)

  function NewCredential(generation: nat, password: string, verifier: string): Credential {
    Credential(1, generation, Current, password, verifier, None)
  }

  /** Created, given its first credential and activated. */
  lemma FirstCredential(engine: string, password: string, verifier: string, created: map<Id, Work>) returns (r: Run)
    requires password != "" && verifier != "" && created == map[10 := Work(engine, Some(1), CreateWork, Queued)]
    ensures r.Valid() && |r.steps| == 4 && |r.states| == 5
    ensures Last(r) == Stage(engine, READY, Enabled, 1, map[1 := NewCredential(1, password, verifier)], created)
  {
    hide Run.Valid;
    r := Start();
    r := Grow(r, EnsureEndpoint(engine), Gateway(map[engine := Endpoint(Absent, ObservedAbsent)], map[], map[], map[]));
    r := Grow(r, CreateConnection(1, engine, true, None, 0, 10), Stage(engine, READY, Pending, 0, map[], created));
    var credentials := map[1 := NewCredential(1, password, verifier)];
    r := Grow(r, CreateCredential(1, 1, password, verifier), Stage(engine, READY, Pending, 1, credentials, created));
    r := Grow(r, CompleteRotation(1, None, 0), Stage(engine, READY, Enabled, 1, credentials, created));
  }

  lemma StageActs(engine: string, status: ConnectionStatus, n: nat, credentials: map<Id, Credential>,
      work: map<Id, Work>,
                  action: Action, now: Time, workId: Id)
    requires (action == Rotate(24) && status == Enabled) || (action == Revoke && status != Revoked)
    requires workId !in work && forall w | w in work :: work[w].workType != RevokeWork
    ensures var g, step := Stage(engine, READY, status, n, credentials, work), QueueAction(1, action, now, workId);
      && Proper(g, step)
      && Effect(g, step) == Stage(engine, READY, AfterAction(action).0, n, credentials,
                                  work[workId := Work(engine, Some(1), AfterAction(action).1, Queued)])
  {}

  lemma StageCreates(engine: string, first: Credential, work: map<Id, Work>, password: string, verifier: string)
    requires first.connection == 1 && first.generation == 1 && password != "" && verifier != ""
    ensures var g, step := Stage(engine, READY, Rotating, 1, map[1 := first], work),
        CreateCredential(2, 1, password, verifier);
      && Proper(g, step)
      && Effect(g, step) == Stage(engine, READY, Rotating, 2,
         map[1 := first, 2 := NewCredential(2, password, verifier)], work)
  {
    assert map[1 := first][2 := NewCredential(2, password, verifier)]
        == map[1 := first, 2 := NewCredential(2, password, verifier)];
  }

  lemma StageEnds(engine: string, credentials: map<Id, Credential>, work: map<Id, Work>, workId: Id)
    requires workId !in work && forall w | w in work :: work[w].workType != TeardownWork
    ensures var g := Stage(engine, READY, Revoking, 2, credentials, work);
      Effect(g, FinalizeRevocation(1)) == Stage(engine, READY, Revoked, 2, AllErased(credentials, 1), work)
    ensures var g := Stage(engine, READY, Revoked, 2, AllErased(credentials, 1), work);
      Effect(g, QueueTeardown(engine, workId))
        == Stage(engine, Endpoint(Deleting, ObservedDeleting), Revoked, 2, AllErased(credentials, 1),
                 work[workId := Work(engine, None, TeardownWork, Queued)])
  {
    hide AllErased;
  }

  /** Then a rotation creates the second one. */
  lemma RotationUnderWay(engine: string, password: string, verifier: string) returns (r: Run, work: map<Id, Work>)
    requires password != "" && verifier != ""
    ensures r.Valid() && |r.steps| == 6 && |r.states| == 7 && r.steps[4] == QueueAction(1, Rotate(24), 1, 11)
    ensures work == map[10 := Work(engine, Some(1), CreateWork, Queued),
        11 := Work(engine, Some(1), RotateWork, Queued)]
    ensures Last(r) == Stage(engine, READY, Rotating, 2,
        map[1 := NewCredential(1, password, verifier), 2 := NewCredential(2, password, verifier)], work)
  {
    hide Run.Valid, Effect, Proper, Stage;
    var created := map[10 := Work(engine, Some(1), CreateWork, Queued)];
    work := created[11 := Work(engine, Some(1), RotateWork, Queued)];
    var first := NewCredential(1, password, verifier);
    r := FirstCredential(engine, password, verifier, created);
    StageActs(engine, Enabled, 1, map[1 := first], created, Rotate(24), 1, 11);
    r := Grow(r, QueueAction(1, Rotate(24), 1, 11), Stage(engine, READY, Rotating, 1, map[1 := first], work));
    StageCreates(engine, first, work, password, verifier);
    r := Grow(r, CreateCredential(2, 1, password, verifier),
              Stage(engine, READY, Rotating, 2, map[1 := first, 2 := NewCredential(2, password, verifier)], work));
  }

  lemma Start() returns (r: Run)
    ensures r.Valid() && Last(r) == NOTHING && r.steps == [] && |r.states| == 1
  {
    r := Run([NOTHING], []);
  }

  /** Provisioning the second credential fails and the rotation is rolled back, as the worker does it. The
      connection works as before, but no later rotation can create a credential for it. */
  lemma RollbackBlocksRotation(engine: string, password: string, verifier: string) returns (r: Run)
    requires password != "" && verifier != ""
    ensures r.Valid() && |r.steps| == 7 && r.steps[6] == RollbackRotation(1, 2, 1)
    ensures 1 in Last(r).connections && Last(r).connections[1].status == Enabled && RolledBackBefore(r, 7, 1)
    ensures forall id, password', verifier' :: !CredentialAllowed(Last(r), id, 1, password', verifier')
  {
    var work;
    r, work := RotationUnderWay(engine, password, verifier);
    var before := r;
    var rolledBack := RotationRolledBack(Last(r), 1, 2, 1);
    assert RollsBack(Last(r), RollbackRotation(1, 2, 1), 1);
    r := Grow(r, RollbackRotation(1, 2, 1), rolledBack);
    assert r.states[6] == Last(before) && r.states[7] == rolledBack;
    assert KeptFrom(r, 6 + 1, 7, 1) && RollsBack(r.states[6], r.steps[6], 1);
    StuckIffRolledBack(r, 7, 1);
  }

  lemma RevocationQueued(engine: string, password: string, verifier: string)
    returns (r: Run, credentials: map<Id, Credential>, work: map<Id, Work>)
    requires password != "" && verifier != ""
    ensures r.Valid() && |r.steps| == 7 && |r.states| == 8
    ensures work == map[10 := Work(engine, Some(1), CreateWork, Queued),
        11 := Work(engine, Some(1), RotateWork, Queued),
                        12 := Work(engine, Some(1), RevokeWork, Queued)]
    ensures credentials == map[1 := NewCredential(1, password, verifier), 2 := NewCredential(2, password, verifier)]
    ensures Last(r) == Stage(engine, READY, Revoking, 2, credentials, work)
  {
    hide Run.Valid, Effect, Proper, Stage;
    r, work := RotationUnderWay(engine, password, verifier);
    credentials := map[1 := NewCredential(1, password, verifier), 2 := NewCredential(2, password, verifier)];
    StageActs(engine, Rotating, 2, credentials, work, Revoke, 2, 12);
    work := work[12 := Work(engine, Some(1), RevokeWork, Queued)];
    r := Grow(r, QueueAction(1, Revoke, 2, 12), Stage(engine, READY, Revoking, 2, credentials, work));
  }

  /** While a rotation is under way its connection is revoked and its endpoint's teardown queued. The rollback
      of that rotation, coming only now, is the first step that is not proper, and makes the connection active
      again. */
  lemma RollbackCanReviveRevoked(engine: string, password: string, verifier: string) returns (r: Run)
    requires password != "" && verifier != ""
    ensures r.Valid() && 1 in Last(r).connections && Last(r).connections[1].status == Revoked
    ensures engine in Last(r).endpoints && Last(r).endpoints[engine].desired == Deleting && Guardable(Last(r))
    ensures var g' := Effect(Last(r), RollbackRotation(1, 2, 1));
      !Guardable(g') && 1 in g'.connections && g'.connections[1].status == Enabled
  {
    hide Run.Valid, Effect, Stage, Guardable;
    var credentials, work;
    r, credentials, work := RevocationQueued(engine, password, verifier);
    StageEnds(engine, credentials, work, 13);
    var erased := AllErased(credentials, 1);
    r := Grow(r, FinalizeRevocation(1), Stage(engine, READY, Revoked, 2, erased, work));
    work := work[13 := Work(engine, None, TeardownWork, Queued)];
    r := Grow(r, QueueTeardown(engine, 13),
        Stage(engine, Endpoint(Deleting, ObservedDeleting), Revoked, 2, erased, work));
    SecondErased(credentials, NewCredential(2, password, verifier));
    LateRollback(r, engine, erased, work);
  }

  lemma SecondErased(credentials: map<Id, Credential>, second: Credential)
    requires 2 in credentials && credentials[2] == second && second.connection == 1
    ensures 2 in AllErased(credentials, 1) && AllErased(credentials, 1)[2].connection == 1
  {}

  lemma LateRollback(r: Run, engine: string, credentials: map<Id, Credential>, work: map<Id, Work>)
    requires r.Valid() && Last(r) == Stage(engine, Endpoint(Deleting, ObservedDeleting), Revoked, 2, credentials, work)
    requires 2 in credentials && credentials[2].connection == 1
    ensures 1 in Last(r).connections && Last(r).connections[1].status == Revoked
    ensures engine in Last(r).endpoints && Last(r).endpoints[engine].desired == Deleting && Guardable(Last(r))
    ensures var g' := Effect(Last(r), RollbackRotation(1, 2, 1));
      !Guardable(g') && 1 in g'.connections && g'.connections[1].status == Enabled
  {
    Reachable(r, |r.states| - 1);
    assert RollbackAllowed(Last(r), 1, 2, 1);
    RollbackKeepsGuardIff(Last(r), 1, 2, 1);
  }

  // ----- the store --------------------------------------------------------

  class GatewayStore {
    var endpoints: map<string, Endpoint>
    var connections: map<Id, Connection>
    var credentials: map<Id, Credential>
    var operations: map<Id, Work>

    ghost function State(): Gateway
      reads this
    {
      Gateway(endpoints, connections, credentials, operations)
    }

    constructor ()
      ensures State() == NOTHING
    {
      endpoints, connections, credentials, operations := map[], map[], map[], map[];
    }

    method QueueDatabaseGatewayProvision(engine: string, workId: Id) returns (ok: bool)
      modifies this`endpoints, this`operations
      ensures State() == ProvisionQueued(old(State()), engine, workId)
      ensures ok <==> workId !in old(operations) && workId in operations
    {
      if engine !in endpoints || endpoints[engine].desired == Deleting { return false; }
      if workId in operations { return false; }
      endpoints := endpoints[engine := Endpoint(Active, if endpoints[engine].observed == ObservedActive
          then ObservedActive else ObservedProvisioning)];
      operations := operations[workId := Work(engine, None, ProvisionWork, Queued)];
      ok := true;
    }

    /** Marks the endpoint first, so that a connection created meanwhile sees it, then looks for what forbids it. */
    method QueueDatabaseGatewayTeardown(engine: string, workId: Id) returns (ok: bool)
      modifies this`endpoints, this`operations
      ensures State() == TeardownQueued(old(State()), engine, workId)
      ensures ok <==> TeardownAllowed(old(State()), engine, workId)
    {
      if engine !in endpoints { return false; }
      var before := endpoints;
      endpoints := endpoints[engine := Endpoint(Deleting, ObservedDeleting)];
      var teardowns := set w | w in operations && operations[w].engine == engine
          && operations[w].workType == TeardownWork && IsPending(operations[w]);
      var active := set c | c in connections && connections[c].engine == engine && connections[c].status != Revoked;
      if teardowns != {} || active != {} || workId in operations {
        ghost var w := if teardowns != {} then Pick(teardowns) else 0;
        ghost var c := if active != {} then Pick(active) else 0;
        assert teardowns != {} ==> w in teardowns;
        assert active != {} ==> c in active;
        endpoints := before;   // rollback
        return false;
      }
      assert forall c | c in connections && connections[c].engine == engine :: c !in active;
      assert forall w | w in operations && operations[w].engine == engine && operations[w].workType == TeardownWork ::
        w !in teardowns;
      operations := operations[workId := Work(engine, None, TeardownWork, Queued)];
      ok := true;
    }

    method CreateDatabaseExternalConnection(id: Id, engine: string, accepted: bool, expiresAt: Option<Time>,
        now: Time, workId: Id) returns (ok: bool)
      modifies this`endpoints, this`connections, this`operations
      ensures State() == ConnectionCreated(old(State()), id, engine, accepted, expiresAt, now, workId)
      ensures ok <==> CreateAllowed(old(State()), id, engine, accepted, expiresAt, now, workId)
    {
      if !accepted { return false; }
      if expiresAt.Some? && expiresAt.value <= now { return false; }
      if engine !in endpoints || endpoints[engine].desired == Deleting { return false; }
      if id in connections || workId in operations { return false; }
      connections := connections[id := Connection(engine, Pending, 0, expiresAt)];
      operations := operations[workId := Work(engine, Some(id), CreateWork, Queued)];
      endpoints := endpoints[engine := Endpoint(Active, if endpoints[engine].observed == ObservedActive
          then ObservedActive else ObservedProvisioning)];
      ok := true;
    }

    method QueueDatabaseExternalConnectionAction(id: Id, action: Action, now: Time, workId: Id) returns (ok: bool)
      modifies this`connections, this`operations
      ensures State() == ActionQueued(old(State()), id, action, now, workId)
      ensures ok <==> ActionAllowed(old(State()), id, action, now, workId)
    {
      if id !in connections { return false; }
      var c, before := connections[id], connections;
      var next, workType;
      match action {
        case Disable =>
          if c.status != Enabled && c.status != Rotating { return false; }
          next, workType := Disabled, DisableWork;
        case Enable =>
          if c.status != Disabled && c.status != Expired && c.status != Broken { return false; }
          if c.expiresAt.Some? && c.expiresAt.value <= now { return false; }
          next, workType := Pending, EnableWork;
        case Rotate(graceHours) =>
          if c.status != Enabled { return false; }
          if graceHours < 0 || graceHours > 168 { return false; }
          next, workType := Rotating, RotateWork;
        case Revoke =>
          if c.status == Revoked { return false; }
          next, workType := Revoking, RevokeWork;
      }
      connections := connections[id := c.(status := next)];
      var revocations := set w | w in operations && operations[w].connection == Some(id)
          && operations[w].workType == RevokeWork && IsPending(operations[w]);
      if action == Revoke && revocations != {} {
        ghost var w := Pick(revocations);
        assert w in revocations;
        connections := before;   // rollback
        return false;
      }
      if workId in operations {
        connections := before;
        return false;
      }
      assert action == Revoke ==>
        forall w | w in operations && operations[w].connection == Some(id) && operations[w].workType == RevokeWork ::
          w !in revocations;
      operations := operations[workId := Work(c.engine, Some(id), workType, Queued)];
      ok := true;
    }

    /** The caller's identity names the generation after the one it read. */
    method CreateDatabaseExternalCredentialWithIdentity(id: Id, connection: Id, password: string, verifier: string)
      returns (ok: bool)
      modifies this`connections, this`credentials
      ensures State() == CredentialCreated(old(State()), id, connection, password, verifier)
      ensures ok <==> CredentialAllowed(old(State()), id, connection, password, verifier)
    {
      if connection !in connections { return false; }
      var generation := connections[connection].generation + 1;
      if password == "" || verifier == "" { return false; }
      // PRIMARY KEY, UNIQUE
      if id in credentials || GenerationTaken(credentials, connection, generation) { return false; }
      credentials := credentials[id := Credential(connection, generation, Current, password, verifier, None)];
      connections := connections[connection := connections[connection].(generation := generation)];
      ok := true;
    }

    method SetDatabaseExternalCredentialGrace(id: Id, deadline: Time) returns (r: Result<()>)
      modifies this`credentials
      ensures State() == GraceSet(old(State()), id, deadline)
      ensures r.Ok? <==> id in old(credentials) && old(credentials)[id].state == Current
    {
      if id !in credentials || credentials[id].state != Current { return NoRows; }
      credentials := credentials[id := credentials[id].(state := Grace, graceDeadline := Some(deadline))];
      r := Ok(());
    }

    method RevokeDatabaseExternalCredential(id: Id) returns (r: Result<()>)
      modifies this`credentials
      ensures State() == CredentialRevoked(old(State()), id)
      ensures r.Ok? <==> id in old(credentials) && old(credentials)[id].state != Retired
    {
      if id !in credentials || credentials[id].state == Retired { return NoRows; }
      credentials := credentials[id := credentials[id].(state := Retired, password := "", verifier := "",
          graceDeadline := None)];
      r := Ok(());
    }

    /** After provisioning generation N+1 failed: its secret is erased, its row kept, and N is current again. */
    method RollbackDatabaseExternalCredentialRotation(connection: Id, failed: Id, previous: int) returns (r: Result<()>)
      modifies this`connections, this`credentials
      ensures State() == RotationRolledBack(old(State()), connection, failed, previous)
      ensures r.Ok? <==> RollbackAllowed(old(State()), connection, failed, previous)
    {
      if previous < 1 { return Rejected; }
      if failed !in credentials || credentials[failed].connection != connection { return NoRows; }
      var before := credentials;
      credentials := credentials[failed := credentials[failed].(state := Retired, password := "", verifier := "",
          graceDeadline := None)];
      if connection !in connections || connections[connection].generation <= previous {
        credentials := before;   // rollback
        return Rejected;
      }
      connections := connections[connection := connections[connection].(generation := previous, status := Enabled)];
      r := Ok(());
    }

    method CompleteDatabaseExternalCredentialRotation(connection: Id, previous: Option<Id>, deadline: Time)
      returns (r: Result<()>)
      modifies this`connections, this`credentials
      ensures State() == RotationCompleted(old(State()), connection, previous, deadline)
      ensures r == if connection in old(connections)
          && old(connections)[connection].status in {Pending, Rotating, Broken} then Ok(()) else Rejected
    {
      var before := credentials;
      if previous.Some? && previous.value in credentials && credentials[previous.value].connection == connection
         && credentials[previous.value].state == Current {
        credentials := credentials[previous.value := credentials[previous.value].(state := Grace,
            graceDeadline := Some(deadline))];
      }
      if connection !in connections || connections[connection].status !in {Pending, Rotating, Broken} {
        credentials := before;   // rollback
        return Rejected;
      }
      connections := connections[connection := connections[connection].(status := Enabled)];
      r := Ok(());
    }

    method FinalizeDatabaseExternalConnectionRevocation(connection: Id) returns (r: Result<()>)
      modifies this`connections, this`credentials
      ensures State() == RevocationFinalized(old(State()), connection)
      ensures r == if connection in old(connections) then Ok(()) else NoRows
      ensures r.Ok? ==> forall k | k in credentials && credentials[k].connection == connection ::
        credentials[k].Erased()
    {
      var before, n := credentials, 0;
      credentials, n := Sql.Update(credentials, (k: Id, c: Credential) => c.connection == connection,
                                   (c: Credential) => c.(state := Retired, password := "", verifier := "",
                                       graceDeadline := None));
      if connection !in connections {
        credentials := before;   // rollback
        return NoRows;
      }
      assert credentials == AllErased(before, connection);
      connections := connections[connection := connections[connection].(status := Revoked)];
      r := Ok(());
    }

    method EnsureDatabaseGatewayEndpoint(engine: string)
      modifies this`endpoints
      ensures State() == EndpointEnsured(old(State()), engine)
    {
      if engine !in endpoints { endpoints := endpoints[engine := Endpoint(Absent, ObservedAbsent)]; }
    }

    method UpdateDatabaseExternalConnection(id: Id, accepted: bool, expiresAt: Option<Time>, workId: Id)
      returns (ok: bool)
      modifies this`connections, this`operations
      ensures State() == ConnectionUpdated(old(State()), id, accepted, expiresAt, workId)
      ensures ok <==> workId !in old(operations) && workId in operations
    {
      if id !in connections || connections[id].status == Revoked || connections[id].status == Revoking { return false; }
      if !accepted { return false; }
      if workId in operations { return false; }
      var c := connections[id];
      connections := connections[id := c.(expiresAt := expiresAt, status := if c.status == Broken then Pending
          else c.status)];
      operations := operations[workId := Work(c.engine, Some(id), UpdateWork, Queued)];
      ok := true;
    }

    method SetDatabaseGatewayEndpointState(engine: string, desired: Option<DesiredStatus>,
        observed: Option<ObservedStatus>) returns (r: Result<()>)
      modifies this`endpoints
      ensures State() == EndpointSet(old(State()), engine, desired, observed)
      ensures r == if engine in old(endpoints) then Ok(()) else NoRows
    {
      if engine !in endpoints { return NoRows; }
      var e := endpoints[engine];
      if desired.Some? { e := e.(desired := desired.value); }
      if observed.Some? { e := e.(observed := observed.value); }
      endpoints := endpoints[engine := e];
      r := Ok(());
    }

    method SetDatabaseExternalConnectionStatus(connection: Id, status: ConnectionStatus) returns (r: Result<()>)
      modifies this`connections
      ensures State() == StatusSet(old(State()), connection, status)
      ensures r == if connection in old(connections) then Ok(()) else NoRows
    {
      if connection !in connections { return NoRows; }
      connections := connections[connection := connections[connection].(status := status)];
      r := Ok(());
    }

    method ClearDatabaseGatewayEndpointRuntime(engine: string) returns (r: Result<()>)
      modifies this`endpoints
      ensures State() == RuntimeCleared(old(State()), engine)
      ensures r == if engine in old(endpoints) then Ok(()) else NoRows
    {
      if engine !in endpoints { return NoRows; }
      endpoints := endpoints[engine := Endpoint(Absent, ObservedAbsent)];
      r := Ok(());
    }
  }

  ghost function Pick(s: set<Id>): (x: Id)
    requires s != {}
    ensures x in s
  {
    var x :| x in s;
    x
  }
}
