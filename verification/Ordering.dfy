/** The order operations start in, and what a cancellation request is worth. */
module Ordering {
  import opened Tables
  import opened Transitions
  import opened StateMachine
  import opened Invariants
  import opened Histories
  import opened Runs
  import opened Causes

  // ----- claim order ------------------------------------------------------

  /** ORDER BY priority DESC, created_at, id is a strict total order on distinct rows. */
  lemma PrecedesIsStrictTotal(ops: map<Id, Operation>, a: Id, b: Id, c: Id)
    requires a in ops && b in ops && c in ops
    ensures !Precedes(ops, a, a)
    ensures a != b ==> (Precedes(ops, a, b) <==> !Precedes(ops, b, a))
    ensures Precedes(ops, a, b) && Precedes(ops, b, c) ==> Precedes(ops, a, c)
  {}

  /** So the claim query determines the operation it returns. */
  lemma NextIsUnique(ops: map<Id, Operation>, a: Id, b: Id, options: ClaimOptions, now: Time)
    requires IsNext(ops, a, options, now) && IsNext(ops, b, options, now)
    ensures a == b
  {
    PrecedesIsStrictTotal(ops, a, b, a);
  }

  /** What the claim query may return, in the columns of the table. */
  lemma NextMayRun(ops: map<Id, Operation>, id: Id, options: ClaimOptions, now: Time)
    requires IsNext(ops, id, options, now)
    ensures id in ops && ops[id].status == Queued && (ops[id].availableAt.None? || ops[id].availableAt.value <= now)
    ensures ops[id].attempt < ops[id].maxAttempts && ops[id].priority >= options.minPriority
    ensures options.kinds == {} || ops[id].kind in options.kinds
    ensures forall r | r in ops && ops[r].status == Running :: ops[r].lockKey != ops[id].lockKey
  {}

  /** Any other operation it could have returned has a lower priority, or the same one and is younger, or the same
      age and a greater id. */
  lemma NextComesFirst(ops: map<Id, Operation>, id: Id, options: ClaimOptions, now: Time, other: Id)
    requires IsNext(ops, id, options, now) && other in ops && other != id
    requires ops[other].status == Queued && (ops[other].availableAt.None? || ops[other].availableAt.value <= now)
    requires ops[other].attempt < ops[other].maxAttempts && ops[other].priority >= options.minPriority
    requires options.kinds == {} || ops[other].kind in options.kinds
    requires forall r | r in ops && ops[r].status == Running :: ops[r].lockKey != ops[other].lockKey
    ensures
      || ops[id].priority > ops[other].priority
      || (ops[id].priority == ops[other].priority && ops[id].createdAt < ops[other].createdAt)
      || (ops[id].priority == ops[other].priority && ops[id].createdAt == ops[other].createdAt && id < other)
  {
    assert Runnable(ops, other, options, now);
  }

  /** When it returns nothing, every waiting operation is delayed, out of attempts, below the priority asked for,
      of another kind, or behind a running one with its lock key. */
  lemma NothingRunnable(ops: map<Id, Operation>, options: ClaimOptions, now: Time, id: Id)
    requires !Runnable(ops, id, options, now) && id in ops && ops[id].status == Queued
    ensures
      || (ops[id].availableAt.Some? && ops[id].availableAt.value > now)
      || ops[id].attempt >= ops[id].maxAttempts || ops[id].priority < options.minPriority
      || (options.kinds != {} && ops[id].kind !in options.kinds)
      || exists r :: r in ops && ops[r].status == Running && ops[r].lockKey == ops[id].lockKey
  {}

  ghost predicate ClaimedWithin(r: Run, i: nat, j: nat, id: Id)
    requires j <= |r.steps|
  {
    exists k | i <= k < j :: r.steps[k].Claim? && r.steps[k].chosen == Some(id)
  }

  /** Until it is claimed, a queued operation waits with the delay it has, or is cancelled. */
  lemma {:induction false} WaitsUnchanged(r: Run, i: nat, j: nat, a: Id)
    requires r.Valid() && i <= j <= |r.steps| && a in r.states[i].ops
    requires r.states[i].ops[a].status == Queued && !ClaimedWithin(r, i, j, a)
    ensures a in r.states[j].ops
    ensures r.states[j].ops[a].priority == r.states[i].ops[a].priority
        && r.states[j].ops[a].lockKey == r.states[i].ops[a].lockKey
    ensures r.states[j].ops[a].createdAt == r.states[i].ops[a].createdAt
    ensures r.states[j].ops[a].status.Terminal()
         || (r.states[j].ops[a].status == Queued
             && r.states[j].ops[a].availableAt == r.states[i].ops[a].availableAt)
  {
    if i < j {
      WaitsUnchanged(r, i, j - 1, a);
      HistoryEvolves(r);
      assert RowsEvolve(History(r)[j - 1], History(r)[j - 1 + 1]) && RowsOk(History(r)[j - 1]);
      assert Next(r.states[j - 1], r.steps[j - 1], r.states[j]);
      assert Evolves(r.states[j - 1].ops[a], r.states[j].ops[a]);
      MovesHaveCauses(r.states[j - 1], r.steps[j - 1], a);
    }
  }

  /** Fairness: with the same lock key and priority, the operation that comes first in (created_at, id)
      is claimed before the other one, unless it is cancelled while it waits. The claim that takes the
      second one is by a worker that handles the first one's kind, and by then the first one's
      available_at, if any, has passed. */
  lemma FirstComeFirstClaimed(r: Run, i: nat, j: nat, a: Id, b: Id)
    requires r.Valid() && i <= j < |r.steps|
    requires a in r.states[i].ops && b in r.states[i].ops && a != b
    requires r.states[i].ops[a].status == Queued
    requires r.states[i].ops[a].availableAt.None? || r.states[i].ops[a].availableAt.value <= r.steps[j].now
    requires r.states[i].ops[a].lockKey == r.states[i].ops[b].lockKey
    requires r.states[i].ops[a].priority == r.states[i].ops[b].priority
    requires r.states[i].ops[a].createdAt < r.states[i].ops[b].createdAt
          || (r.states[i].ops[a].createdAt == r.states[i].ops[b].createdAt && a < b)
    requires r.steps[j].Claim? && r.steps[j].chosen == Some(b)
    requires r.steps[j].options.kinds == {} || r.states[i].ops[a].kind in r.steps[j].options.kinds
    ensures ClaimedWithin(r, i, j, a) || (a in r.states[j].ops && r.states[j].ops[a].status.Terminal())
  {
    if !ClaimedWithin(r, i, j, a) {
      WaitsUnchanged(r, i, j, a);
      IdentityFixed(r, i, j, a);
      IdentityFixed(r, i, j, b);
      ReachableInv(r, j);
      var s, step := r.states[j], r.steps[j];
      assert Next(s, step, r.states[j + 1]);
      assert IsNext(s.ops, b, step.options, step.now);
      if s.ops[a].status == Queued {
        assert RowOk(s.ops[a]);
        NextMayRun(s.ops, b, step.options, step.now);
        NextComesFirst(s.ops, b, step.options, step.now, a);
        assert false;
      }
    }
  }

  /** The first claim after a deferral comes no sooner than the time asked for. */
  lemma DeferralDelaysClaim(r: Run, i: nat, j: nat, id: Id)
    requires r.Valid() && i < j < |r.steps|
    requires r.steps[i].Defer? && r.steps[i].id == id && Holds(r.states[i], id, r.steps[i].owner)
    requires r.steps[j].Claim? && r.steps[j].chosen == Some(id) && !ClaimedWithin(r, i + 1, j, id)
    ensures r.steps[j].now >= r.steps[i].now + r.steps[i].retryAfter && r.steps[j].now >= r.steps[i].now
  {
    ReachableInv(r, i);
    assert Next(r.states[i], r.steps[i], r.states[i + 1]);
    assert RowOk(r.states[i].ops[id]);
    MovesHaveCauses(r.states[i], r.steps[i], id);
    WaitsUnchanged(r, i + 1, j, id);
    assert Next(r.states[j], r.steps[j], r.states[j + 1]);
    NextMayRun(r.states[j].ops, id, r.steps[j].options, r.steps[j].now);
  }

  lemma {:induction false} IdentityFixed(r: Run, i: nat, j: nat, id: Id)
    requires r.Valid() && i <= j < |r.states| && id in r.states[i].ops
    ensures id in r.states[j].ops
    ensures var o, o' := r.states[i].ops[id], r.states[j].ops[id];
      o'.priority == o.priority && o'.lockKey == o.lockKey && o'.createdAt == o.createdAt
      && o'.kind == o.kind && o'.maxAttempts == o.maxAttempts && o'.serviceId == o.serviceId
  {
    if i < j {
      IdentityFixed(r, i, j - 1, id);
      HistoryEvolves(r);
      assert RowsEvolve(History(r)[j - 1], History(r)[j - 1 + 1]);
      assert Evolves(r.states[j - 1].ops[id], r.states[j].ops[id]);
    }
  }

  // ----- cancellation -----------------------------------------------------

  /** What RenewOperationLease reports to a holder. */
  predicate RenewReportsCancel(s: Db, id: Id) { id in s.ops && s.ops[id].cancelRequestedAt.Some? }

  /** A recorded request is reported by every later renewal, through deferral, recovery and re-claim by any
      worker, however it was recorded. */
  lemma CancellationReachesEveryRenewal(r: Run, i: nat, j: nat, id: Id)
    requires r.Valid() && i <= j < |r.states| && id in r.states[i].ops && r.states[i].ops[id].cancelRequestedAt.Some?
    ensures RenewReportsCancel(r.states[j], id)
  {
    HistoryEvolves(r);
    RequestsPersist(History(r), i, j, id);
  }

  /** Each of the three calls records one on every running operation it concerns; an earlier one keeps its time. */
  lemma RequestsAreRecorded(s: Db, id: Id, service: string, now: Time)
    requires id in s.ops && s.ops[id].status == Running
    ensures RenewReportsCancel(CancelRequested(s, id, now), id)
    ensures s.ops[id].serviceId == service ==> RenewReportsCancel(ServiceCancelRequested(s, service, now), id)
    ensures s.ops[id].serviceId == service && ServiceKnown(s.instances, service) ==>
      RenewReportsCancel(DeletionBegun(s, service, now), id)
    ensures s.ops[id].cancelRequestedAt.Some? ==>
      CancelRequested(s, id, now) == s && ServiceCancelRequested(s, service, now).ops[id] == s.ops[id]
    ensures s.ops[id].cancelRequestedAt.None? ==> CancelRequested(s, id, now).ops[id].cancelRequestedAt == Some(now)
  {
    if s.ops[id].serviceId == service { assert id in OpsOfService(s.ops, service, Running); }
  }

  /** A queued operation is made terminal at once, together with both read models. */
  lemma CancellingQueuedClosesAll(s: Db, id: Id, now: Time)
    requires Inv(s) && id in s.ops && s.ops[id].status == Queued
    ensures var s' := CancelRequested(s, id, now);
      && s'.ops[id].status == Cancelled
      && (id in s.mirrors ==> s'.mirrors[id].status == Cancelled && s'.mirrors[id].owner == "")
      && (id in s.deployments ==> s'.deployments[id].status.Terminal())
      && (id in s.deployments && !s.deployments[id].status.Terminal() ==>
            s'.deployments[id].status == DeployCancelled && s'.deployments[id].cancelledAt == Some(now))
  {
    var s' := CancelRequested(s, id, now);
    assert s'.ops == s.ops[id := CancelledRow(s.ops[id], now)];
    assert id in s.mirrors ==> s'.mirrors == s.mirrors[id := CancelledMirror(s.mirrors[id], now)];
    assert s'.deployments == PutDeployment(s.deployments, id,
        FinishedDeployment(s.deployments, id, Cancelled, Blank, now));
  }
}
