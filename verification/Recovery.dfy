/** What the boot-time recovery pass achieves, and why its statement order is what it is. */
module Recovery {
  import opened Tables
  import opened Transitions
  import opened StateMachine
  import opened Invariants
  import opened BulkInvariants

  /** Nothing runs afterwards; exactly the exhausted operations failed, and every other one that ran waits again. */
  lemma RecoveryOutcome(s: Db, now: Time, id: Id)
    requires id in s.ops
    ensures id in RecoveredOps(s.ops, now)
    ensures var o, o' := s.ops[id], RecoveredOps(s.ops, now)[id];
      && o'.status != Running
      && (o.status != Running ==> o' == o)
      && (o.status == Running && o.attempt >= o.maxAttempts <==> o.status != Failed && o'.status == Failed)
      && (o.status == Running && o.attempt < o.maxAttempts <==> o.status != Queued && o'.status == Queued)
      && (o.status == Running && o'.status == Queued ==> o'.availableAt.None? && o'.attempt < o'.maxAttempts)
      && (o.status == Running ==> o'.attempt == o.attempt && o'.owner == "" && o'.leaseExpiresAt.None?)
      && (o.status == Running && o'.status == Failed ==>
            o'.errorCode == Interrupted && o'.errorMessage == RetryLimitExceeded && o'.completedAt == Some(now))
  {}

  lemma NoLeaseSurvivesRecovery(s: Db, step: Step, id: Id, owner: string)
    requires Enabled(s, step) && step.Recover?
    ensures !Holds(Effect(s, step), id, owner)
  {
    if id in s.ops { RecoveryOutcome(s, step.now, id); }
  }

  /** Every deployment recovery leaves open has a queued operation to finish it. */
  lemma OpenDeploymentsHaveWork(s: Db, now: Time, id: Id)
    requires Inv(s) && id in s.deployments
    requires !RecoveredDeployments(s, now)[id].status.Terminal()
    ensures id in RecoveredOps(s.ops, now) && RecoveredOps(s.ops, now)[id].status == Queued
    ensures RecoveredDeployments(s, now)[id] == s.deployments[id] && s.deployments[id].status == DeployQueued
  {
    RecoveryKeepsDeployments(s, now);
  }

  /** An open deployment whose operation does not wait, or waits no more, is failed and says why; no other changes. */
  lemma DeploymentsRecover(s: Db, now: Time, id: Id)
    requires Inv(s) && id in s.deployments
    ensures var d, d' := s.deployments[id], RecoveredDeployments(s, now)[id];
      if d.status in {DeployQueued, DeployBuilding} && !(id in s.ops && s.ops[id].status == Queued)
      then d'.status == DeployFailed && d'.errorMessage == Interrupted && d'.updatedAt == now
      else d' == d
  {
    if id in s.ops && s.ops[id].status == Running {
      assert RowOk(s.ops[id]) && DeploymentOk(s.ops, id, s.deployments[id]);
      assert IsExhausted(s.ops[id]);
    }
  }

  // ----- the pass, phase by phase -----------------------------------------

  function RunningIds(ops: map<Id, Operation>): set<Id> { set id | id in ops && ops[id].status == Running }

  function FailCompanions(t: map<Id, Companion>, ids: set<Id>, now: Time): map<Id, Companion> {
    map k | k in t ::
      if BelongsTo(t[k], ids) && t[k].status in {JobQueued, JobRunning}
          then t[k].(status := JobFailed, updatedAt := now) else t[k]
  }

  function RequeueCompanions(t: map<Id, Companion>, ids: set<Id>, now: Time): map<Id, Companion> {
    map k | k in t ::
      if BelongsTo(t[k], ids) && t[k].status == JobRunning then t[k].(status := JobQueued, updatedAt := now) else t[k]
  }

  function FailOps(ops: map<Id, Operation>, now: Time): map<Id, Operation> {
    map id | id in ops :: if IsExhausted(ops[id]) then FailedRow(ops[id], now) else ops[id]
  }

  function RequeueOps(ops: map<Id, Operation>, now: Time): map<Id, Operation> {
    map id | id in ops :: if ops[id].status == Running then RequeuedRow(ops[id], now) else ops[id]
  }

  function FailMirrors(mirrors: map<Id, DatabaseOperation>, ids: set<Id>, now: Time): map<Id, DatabaseOperation> {
    map id | id in mirrors :: if id in ids then FailedMirror(mirrors[id], now) else mirrors[id]
  }

  function RequeueMirrors(mirrors: map<Id, DatabaseOperation>, ids: set<Id>, now: Time): map<Id, DatabaseOperation> {
    map id | id in mirrors :: if id in ids then RequeuedMirror(mirrors[id], now) else mirrors[id]
  }

  function InterruptDeployments(deployments: map<Id, Deployment>, ids: set<Id>, now: Time): map<Id, Deployment> {
    map id | id in deployments :: if id in ids then InterruptedRow(deployments[id], now) else deployments[id]
  }

  /** Exhausted operations and everything that hangs off them, before the operations rows change. */
  function FailPhase(s: Db, now: Time, exhausted: seq<Id>): Db {
    var ids := Exhausted(s.ops);
    Db(FailOps(s.ops, now), FailMirrors(s.mirrors, ids, now),
        InterruptDeployments(s.deployments, ExhaustedDeploys(s), now),
       FailCompanions(s.backups, ids, now), FailCompanions(s.restores, ids, now), FailCompanions(s.upgrades, ids, now),
       s.events + Interruptions(exhausted, now), s.instances)
  }

  /** Whatever is still running then was abandoned. */
  function RequeuePhase(s: Db, now: Time): Db {
    var ids := RunningIds(s.ops);
    Db(RequeueOps(s.ops, now), RequeueMirrors(s.mirrors, ids, now), s.deployments,
       RequeueCompanions(s.backups, ids, now), RequeueCompanions(s.restores, ids, now),
           RequeueCompanions(s.upgrades, ids, now),
       s.events, s.instances)
  }

  function SweepPhase(s: Db, now: Time, orphans: seq<Id>): Db {
    s.(deployments := InterruptDeployments(s.deployments, OrphanDeploys(s), now),
        events := s.events + Interruptions(orphans, now))
  }

  lemma CompanionPhases(ops: map<Id, Operation>, t: map<Id, Companion>, now: Time)
    ensures RunningIds(FailOps(ops, now)) == Abandoned(ops)
    ensures RequeueCompanions(FailCompanions(t, Exhausted(ops), now), Abandoned(ops), now)
        == RecoveredCompanions(ops, t, now)
  {}

  lemma MirrorPhases(s: Db, now: Time)
    ensures RequeueMirrors(FailMirrors(s.mirrors, Exhausted(s.ops), now), Abandoned(s.ops), now)
        == RecoveredMirrors(s, now)
  {
    assert Exhausted(s.ops) !! Abandoned(s.ops);
  }

  lemma SweptAreOrphans(s: Db, now: Time, exhausted: seq<Id>)
    ensures OrphanDeploys(RequeuePhase(FailPhase(s, now, exhausted), now)) == OrphanDeploys(s)
  {
    var s2 := RequeuePhase(FailPhase(s, now, exhausted), now);
    assert s2.ops == RequeueOps(FailOps(s.ops, now), now);
    assert s2.deployments == InterruptDeployments(s.deployments, ExhaustedDeploys(s), now);
    forall id | id in s.deployments ensures id in OrphanDeploys(s2) <==> id in OrphanDeploys(s) {
      if id in s.ops && IsExhausted(s.ops[id]) && !s.deployments[id].status.Terminal() {
        assert id in ExhaustedDeploys(s);
      }
    }
  }

  /** In the order the code runs them, the phases do to each row exactly what its own situation calls for. */
  lemma PhasesCompose(s: Db, now: Time, exhausted: seq<Id>, orphans: seq<Id>)
    ensures SweepPhase(RequeuePhase(FailPhase(s, now, exhausted), now), now, orphans)
        == Recovered(s, now, exhausted, orphans)
  {
    SweptAreOrphans(s, now, exhausted);
    CompanionPhases(s.ops, s.backups, now);
    CompanionPhases(s.ops, s.restores, now);
    CompanionPhases(s.ops, s.upgrades, now);
    MirrorPhases(s, now);
    assert RequeueOps(FailOps(s.ops, now), now) == RecoveredOps(s.ops, now);
    assert InterruptDeployments(InterruptDeployments(s.deployments, ExhaustedDeploys(s), now), OrphanDeploys(s), now)
        == RecoveredDeployments(s, now);
  }

  // ----- the returned counts ----------------------------------------------

  function RequeuedCount(s: Db): nat { |Abandoned(s.ops)| }
  function FailedCount(s: Db): nat { |Exhausted(s.ops)| + |OrphanDeploys(s)| }

  /** Ids whose operation went from running to queued. */
  function RequeuedIds(s: Db, s': Db): set<Id> {
    set id | id in s.ops && id in s'.ops && s.ops[id].status == Running && s'.ops[id].status == Queued
  }

  /** Ids whose operation or deployment (they share the id) was not failed before and is now. */
  function FailedIds(s: Db, s': Db): set<Id> {
    (set id | id in s.ops && id in s'.ops && s.ops[id].status != Failed && s'.ops[id].status == Failed)
    + (set id | id in s.deployments && id in s'.deployments
         && s.deployments[id].status != DeployFailed && s'.deployments[id].status == DeployFailed)
  }

  /** A deploy failed in both tables is counted once; an orphan, which no operations row counts, is counted too. */
  lemma CountsAreExact(s: Db, now: Time, exhausted: seq<Id>, orphans: seq<Id>)
    ensures var s' := Recovered(s, now, exhausted, orphans);
      RequeuedCount(s) == |RequeuedIds(s, s')| && FailedCount(s) == |FailedIds(s, s')|
  {
    var s' := Recovered(s, now, exhausted, orphans);
    assert s'.ops == RecoveredOps(s.ops, now) && s'.deployments == RecoveredDeployments(s, now);
    assert RequeuedIds(s, s') == Abandoned(s.ops);
    assert FailedIds(s, s') == Exhausted(s.ops) + OrphanDeploys(s) by { FailedIdsAre(s, s', now); }
    assert Exhausted(s.ops) !! OrphanDeploys(s);
  }

  lemma NewlyFailedOps(ops: map<Id, Operation>, now: Time)
    ensures (set id | id in ops && id in RecoveredOps(ops, now) && ops[id].status != Failed
        && RecoveredOps(ops, now)[id].status == Failed)
         == Exhausted(ops)
  {}

  lemma FailedIdsAre(s: Db, s': Db, now: Time)
    requires s'.ops == RecoveredOps(s.ops, now) && s'.deployments == RecoveredDeployments(s, now)
    ensures FailedIds(s, s') == Exhausted(s.ops) + OrphanDeploys(s)
  {
    NewlyFailedOps(s.ops, now);
    assert (set id | id in s.deployments && id in s'.deployments
              && s.deployments[id].status != DeployFailed && s'.deployments[id].status == DeployFailed)
        == ExhaustedDeploys(s) + OrphanDeploys(s);
    assert ExhaustedDeploys(s) <= Exhausted(s.ops);
  }

  // ----- a second pass ----------------------------------------------------

  lemma NothingLeftToRecover(s: Db, now: Time, exhausted: seq<Id>, orphans: seq<Id>)
    requires Inv(s)
    ensures var s' := Recovered(s, now, exhausted, orphans);
      Exhausted(s'.ops) == {} && Abandoned(s'.ops) == {} && ExhaustedDeploys(s') == {} && OrphanDeploys(s') == {}
  {
    var s' := Recovered(s, now, exhausted, orphans);
    assert s'.ops == RecoveredOps(s.ops, now) && s'.deployments == RecoveredDeployments(s, now);
    forall id | id in s.ops { RecoveryOutcome(s, now, id); }
    forall id | id in s'.deployments && !s'.deployments[id].status.Terminal() ensures id !in OrphanDeploys(s') {
      OpenDeploymentsHaveWork(s, now, id);
    }
  }

  /** Running recovery again reports (0, 0) and changes nothing. */
  lemma RecoveryIsIdempotent(s: Db, now: Time, exhausted: seq<Id>, orphans: seq<Id>, later: Time, e2: seq<Id>,
      o2: seq<Id>)
    requires Inv(s)
    requires Lists(e2, ExhaustedDeploys(Recovered(s, now, exhausted, orphans)))
    requires Lists(o2, OrphanDeploys(Recovered(s, now, exhausted, orphans)))
    ensures var s' := Recovered(s, now, exhausted, orphans);
      RequeuedCount(s') == 0 && FailedCount(s') == 0 && Recovered(s', later, e2, o2) == s'
  {
    var s' := Recovered(s, now, exhausted, orphans);
    NothingLeftToRecover(s, now, exhausted, orphans);
    ListsHaveLength(e2, ExhaustedDeploys(s'));
    ListsHaveLength(o2, OrphanDeploys(s'));
    SettledStateIsFixed(s', later);
  }

  lemma {:induction false} ListsHaveLength(order: seq<Id>, ids: set<Id>)
    requires Lists(order, ids)
    ensures |order| == |ids|
  {
    if order == [] {
      assert ids == {};
    } else {
      var front, last := order[..|order| - 1], order[|order| - 1];
      assert order == front + [last];
      ListsHaveLength(front, ids - {last});
    }
  }

  lemma SettledStateIsFixed(s: Db, now: Time)
    requires Exhausted(s.ops) == {} && Abandoned(s.ops) == {} && ExhaustedDeploys(s) == {} && OrphanDeploys(s) == {}
    ensures Recovered(s, now, [], []) == s
  {
    forall id | id in s.ops ensures RecoveredRow(s.ops[id], now) == s.ops[id] {
      assert id !in Exhausted(s.ops) && id !in Abandoned(s.ops);
    }
    assert RecoveredOps(s.ops, now) == s.ops;
    assert RecoveredMirrors(s, now) == s.mirrors;
    assert RecoveredDeployments(s, now) == s.deployments;
    assert RecoveredCompanions(s.ops, s.backups, now) == s.backups;
    assert RecoveredCompanions(s.ops, s.restores, now) == s.restores;
    assert RecoveredCompanions(s.ops, s.upgrades, now) == s.upgrades;
  }

  // ----- companion rows ---------------------------------------------------

  /** Running companions exist only under running operations. */
  ghost predicate CompanionsFollow(ops: map<Id, Operation>, t: map<Id, Companion>) {
    forall k | k in t && t[k].status == JobRunning ::
      t[k].operationId.Some? && t[k].operationId.value in ops && ops[t[k].operationId.value].status == Running
  }

  /** No companion runs afterwards. Those of an operation with no attempt left are failed if they were open, running
      ones of an operation with an attempt left wait again, and no other row is touched. */
  lemma CompanionsRecover(ops: map<Id, Operation>, t: map<Id, Companion>, now: Time, k: Id)
    requires CompanionsFollow(ops, t) && k in t
    ensures RecoveredCompanions(ops, t, now)[k].status != JobRunning
    ensures t[k].operationId.Some? && t[k].operationId.value in ops && ops[t[k].operationId.value].status == Running ==>
      var c, c', o := t[k], RecoveredCompanions(ops, t, now)[k], ops[t[k].operationId.value];
      && (o.attempt >= o.maxAttempts && c.status in {JobQueued, JobRunning} ==>
            c' == c.(status := JobFailed, updatedAt := now))
      && (o.attempt < o.maxAttempts && c.status == JobRunning ==> c' == c.(status := JobQueued, updatedAt := now))
      && (c.status !in {JobQueued, JobRunning} || (o.attempt < o.maxAttempts && c.status == JobQueued) ==> c' == c)
    ensures !(t[k].operationId.Some? && t[k].operationId.value in ops
              && ops[t[k].operationId.value].status == Running) ==>
      RecoveredCompanions(ops, t, now)[k] == t[k]
  {
    if t[k].status == JobRunning {
      assert t[k].operationId.value in Exhausted(ops) + Abandoned(ops);
    }
  }

  // ----- why the order matters --------------------------------------------

  /** Had the parents been written first, the companion statements would select nothing. */
  lemma ParentsFirstStrandsCompanions(ops: map<Id, Operation>, t: map<Id, Companion>, now: Time)
    ensures RecoveredCompanions(RecoveredOps(ops, now), t, now) == t
  {
    assert Exhausted(RecoveredOps(ops, now)) == {} && Abandoned(RecoveredOps(ops, now)) == {};
  }
}
