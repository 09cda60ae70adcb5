/** Safety, accounting and ordering over whole runs. */
module Theorems {
  import opened Tables
  import opened Transitions
  import opened StateMachine
  import opened Invariants
  import opened Histories
  import opened Runs
  import opened Causes

  // ----- leases -----------------------------------------------------------

  /** A renew, defer or complete by anyone but the holder changes no table. */
  lemma StrangerChangesNothing(s: Db, id: Id, owner: string, lease: int, retryAfter: int, c: Completion, now: Time)
    ensures !Holds(s, id, owner) ==>
      Renewed(s, id, owner, lease, now) == s && Deferred(s, id, owner, retryAfter, now) == s
          && Completed(s, id, owner, c, now) == s
  {}

  ghost predicate ClaimedBy(step: Step, id: Id, owner: string) {
    step.Claim? && step.chosen == Some(id) && step.options.owner == owner
  }

  lemma LeaseComesFromClaim(r: Run, k: nat, id: Id, owner: string)
    requires r.Valid() && k < |r.steps| && owner != "" && Holds(r.states[k + 1], id, owner)
    ensures Holds(r.states[k], id, owner) || ClaimedBy(r.steps[k], id, owner)
  {
    var s, s' := r.states[k], r.states[k + 1];
    HistoryEvolves(r);
    assert RowsEvolve(History(r)[k], History(r)[k + 1]) && RowsOk(History(r)[k]);
    assert Next(s, r.steps[k], s');
    if id in s.ops {
      assert Evolves(s.ops[id], s'.ops[id]);
      MovesHaveCauses(s, r.steps[k], id);
    }
  }

  lemma {:induction false} NotHeldUntilReclaimed(r: Run, i: nat, j: nat, id: Id, owner: string)
    requires r.Valid() && i <= j < |r.states| && owner != "" && !Holds(r.states[i], id, owner)
    requires forall k | i <= k < j :: !ClaimedBy(r.steps[k], id, owner)
    ensures !Holds(r.states[j], id, owner)
  {
    if i < j {
      NotHeldUntilReclaimed(r, i, j - 1, id, owner);
      if Holds(r.states[j], id, owner) { LeaseComesFromClaim(r, j - 1, id, owner); }
    }
  }

  /** The lease on record is the one the holder's last claim or renewal asked for. */
  lemma {:induction false} LeaseIsTheLastOne(r: Run, k: nat, id: Id) returns (j: nat)
    requires r.Valid() && k < |r.states| && id in r.states[k].ops && r.states[k].ops[id].status == Running
    ensures j < k && Leases(r.states[j], r.steps[j], id)
    ensures var step := r.steps[j];
      r.states[k].ops[id].leaseExpiresAt == Some(step.now + if step.Claim? then step.options.lease else step.lease)
    ensures forall m | j < m < k :: !Leases(r.states[m], r.steps[m], id)
    ensures Holds(r.states[k], id, if r.steps[j].Claim? then r.steps[j].options.owner else r.steps[j].owner)
  {
    hide Enabled, Effect, LocksExclusive, MirrorsAgree, DeploymentsOk, TimelinesOk, InstancesOk;
    HistoryEvolves(r);
    assert k > 0;
    assert RowsEvolve(History(r)[k - 1], History(r)[k - 1 + 1]) && RowsOk(History(r)[k - 1]) && RowsOk(History(r)[k]);
    assert Next(r.states[k - 1], r.steps[k - 1], r.states[k]);
    assert id in r.states[k - 1].ops && RowOk(r.states[k - 1].ops[id]) && RowOk(r.states[k].ops[id]);
    MovesHaveCauses(r.states[k - 1], r.steps[k - 1], id);
    assert Evolves(r.states[k - 1].ops[id], r.states[k].ops[id]);
    if Leases(r.states[k - 1], r.steps[k - 1], id) {
      j := k - 1;
    } else {
      j := LeaseIsTheLastOne(r, k - 1, id);
    }
  }

  /** Every terminal status goes back to the one call that gave it, and has stood since. */
  lemma {:induction false} EndHasCause(r: Run, i: nat, j: nat, id: Id) returns (k: nat)
    requires r.Valid() && i <= j < |r.states|
    requires id in r.states[i].ops && r.states[i].ops[id].status.Live()
    requires id in r.states[j].ops && r.states[j].ops[id].status.Terminal()
    ensures i <= k < j && id in r.states[k].ops && r.states[k].ops[id].status.Live()
    ensures EndedBy(r.states[k], r.steps[k], id, r.states[j].ops[id])
  {
    hide Enabled, Effect, RowOk, EndedBy, Leases, LocksExclusive, MirrorsAgree, DeploymentsOk, TimelinesOk, InstancesOk;
    HistoryEvolves(r);
    RequestsPersist(History(r), i, j - 1, id);
    assert RowsEvolve(History(r)[j - 1], History(r)[j - 1 + 1]) && RowsOk(History(r)[j - 1]);
    assert Next(r.states[j - 1], r.steps[j - 1], r.states[j]);
    assert Evolves(r.states[j - 1].ops[id], r.states[j].ops[id]);
    if r.states[j - 1].ops[id].status.Live() {
      k := j - 1;
      MovesHaveCauses(r.states[k], r.steps[k], id);
    } else {
      k := EndHasCause(r, i, j - 1, id);
    }
  }

  predicate HolderCall(step: Step, id: Id, owner: string) {
    (step.Renew? || step.Defer? || step.Complete?) && step.id == id && step.owner == owner
  }

  /** A worker that lost an operation cannot renew, defer or finish it until it claims it again. */
  lemma SupersededWorkerIsFenced(r: Run, i: nat, j: nat, id: Id, owner: string)
    requires r.Valid() && i <= j < |r.steps| && owner != "" && !Holds(r.states[i], id, owner)
    requires forall k | i <= k < j :: !ClaimedBy(r.steps[k], id, owner)
    requires HolderCall(r.steps[j], id, owner)
    ensures r.states[j + 1] == r.states[j]
  {
    NotHeldUntilReclaimed(r, i, j, id, owner);
    assert Next(r.states[j], r.steps[j], r.states[j + 1]);
    var step := r.steps[j];
    StrangerChangesNothing(r.states[j], id, owner,
                           if step.Renew? then step.lease else 0, if step.Defer? then step.retryAfter else 0,
                           if step.Complete? then step.completion
                               else Completion(Failed, NoStep, Blank, Blank), step.now);
  }

  /** The handler's progress report has no such fence: a terminal report ends whatever run is in
      progress, whoever sends it, and the worker that holds the lease can then no longer complete it. */
  lemma TerminalReportEndsAnyRun(s: Db, id: Id, owner: string, report: Report, c: Completion, now: Time)
    requires Inv(s) && id in s.mirrors && Holds(s, id, owner) && report.status.Terminal() && 0 <= report.percent <= 100
    ensures var s' := ReportApplied(s, id, report, now);
      s'.ops[id].status == report.status && !Holds(s', id, owner) && Completed(s', id, owner, c, now) == s'
  {
    assert id in s.ops;
  }

  /** A report leaves the holder's run alone exactly if it is refused or says "running". */
  lemma ReportLeavesHolderIff(s: Db, id: Id, owner: string, report: Report, now: Time)
    requires Inv(s) && Holds(s, id, owner)
    ensures Holds(ReportApplied(s, id, report, now), id, owner)
       <==> (id !in s.mirrors || !(0 <= report.percent <= 100) || report.status == Running)
  {}

  /** A report is a permitted change to a consistent row exactly if the row was not terminal yet and the
      report ends it or repeats its status, or if it changes nothing at all. Reporting "running" on work that is
      queued again gives a running row nobody holds; any report on a finished one rewrites history. */
  lemma ReportKeepsRowIff(o: Operation, report: Report, now: Time)
    requires RowOk(o)
    ensures var o' := ReportedRow(o, report, now);
      && (RowOk(o') <==> report.status.Terminal() || report.status == o.status)
      && (RowOk(o') && Evolves(o, o')
          <==> (!o.status.Terminal() && (report.status.Terminal() || report.status == o.status)) || o' == o)
  {}

  // ----- attempts, termination --------------------------------------------

  /** attempt counts claims minus deferrals, so the MAX(attempt-1, 0) clamp never bites. */
  lemma AttemptsAreClaimsMinusDeferrals(r: Run, id: Id)
    requires r.Valid() && id in r.states[|r.steps|].ops
    ensures r.states[|r.steps|].ops[id].attempt == Moves(History(r), id, Start) - Moves(History(r), id, PutOff)
  {
    HistoryEvolves(r);
    Accounting(History(r), id);
  }

  lemma ClampNeverBites(r: Run, k: nat, id: Id, owner: string)
    requires r.Valid() && k < |r.states| && Holds(r.states[k], id, owner)
    ensures Max(r.states[k].ops[id].attempt - 1, 0) == r.states[k].ops[id].attempt - 1
  {
    ReachableInv(r, k);
  }

  lemma {:induction false} NoRequeueWithOneAttempt(h: seq<Ops>, id: Id)
    requires Evolving(h)
    requires forall k | 0 <= k < |h| && id in h[k] :: h[k][id].maxAttempts == 1
    ensures Moves(h, id, Requeue) == 0
  {
    if |h| >= 2 {
      NoRequeueWithOneAttempt(h[..|h| - 1], id);
      var ops, ops' := h[|h| - 2], h[|h| - 1];
      assert RowsEvolve(h[|h| - 2], h[|h| - 2 + 1]);
      if id in ops {
        assert RowOk(ops[id]) && RowOk(ops'[id]) && Evolves(ops[id], ops'[id]);
      }
    }
  }

  /** An operation with one attempt, as every deploy has, starts once more than it is deferred at
      most, and recovery never requeues it. */
  lemma SingleAttemptStartsOnce(r: Run, id: Id)
    requires r.Valid() && id in r.states[|r.steps|].ops && r.states[|r.steps|].ops[id].maxAttempts == 1
    ensures Moves(History(r), id, Start) <= 1 + Moves(History(r), id, PutOff)
    ensures Moves(History(r), id, Requeue) == 0
  {
    var h := History(r);
    HistoryEvolves(r);
    Accounting(h, id);
    assert RowOk(h[|h| - 1][id]);
    forall k | 0 <= k < |h| && id in h[k] ensures h[k][id].maxAttempts == 1 {
      MaxAttemptsFixed(h, k, |h| - 1, id);
    }
    NoRequeueWithOneAttempt(h, id);
  }

  lemma {:induction false} MaxAttemptsFixed(h: seq<Ops>, i: nat, j: nat, id: Id)
    requires Evolving(h) && i <= j < |h| && id in h[i]
    ensures id in h[j] && h[j][id].maxAttempts == h[i][id].maxAttempts
  {
    if i < j {
      MaxAttemptsFixed(h, i, j - 1, id);
      assert RowsEvolve(h[j - 1], h[j - 1 + 1]);
      assert Evolves(h[j - 1][id], h[j][id]);
    }
  }

  /** Deferrals that took effect in the first `m` steps. */
  ghost function DeferSteps(r: Run, m: nat): nat
    requires m <= |r.steps| < |r.states|
  {
    if m == 0 then 0
    else
      var step := r.steps[m - 1];
      DeferSteps(r, m - 1) + (if step.Defer? && Holds(r.states[m - 1], step.id, step.owner) then 1 else 0)
  }

  /** PutOff moves among the operations below `n` in one step. */
  ghost function PutOffs(ops: Ops, ops': Ops, n: nat): nat {
    if n == 0 then 0 else PutOffs(ops, ops', n - 1) + Moved(ops, ops', n - 1, PutOff)
  }

  lemma {:induction false} PutOffsOfOneStep(ops: Ops, ops': Ops, at: Id, n: nat)
    requires forall id: Id | id < n && id != at :: Moved(ops, ops', id, PutOff) == 0
    ensures PutOffs(ops, ops', n) <= if at < n then Moved(ops, ops', at, PutOff) else 0
  {
    if n > 0 { PutOffsOfOneStep(ops, ops', at, n - 1); }
  }

  lemma {:induction false} SumDeferralsStep(h: seq<Ops>, n: nat)
    requires |h| >= 2
    ensures SumDeferrals(h, n) == SumDeferrals(h[..|h| - 1], n) + PutOffs(h[|h| - 2], h[|h| - 1], n)
  {
    if n > 0 { SumDeferralsStep(h, n - 1); }
  }

  lemma {:induction false} NoDeferrals(ops: Ops, n: nat)
    ensures SumDeferrals([ops], n) == 0
  {
    if n > 0 { NoDeferrals(ops, n - 1); }
  }

  lemma StepPutOffs(r: Run, k: nat, n: nat)
    requires r.Valid() && k < |r.steps|
    ensures PutOffs(r.states[k].ops, r.states[k + 1].ops, n)
         <= (if r.steps[k].Defer? && Holds(r.states[k], r.steps[k].id, r.steps[k].owner) then 1 else 0)
  {
    var s, step, s' := r.states[k], r.steps[k], r.states[k + 1];
    ReachableInv(r, k);
    assert Next(s, step, s');
    forall id | id in s.ops ensures Caused(s, step, s'.ops, id) { MovesHaveCauses(s, step, id); }
    PutOffsOfOneStep(s.ops, s'.ops, if step.Defer? then step.id else 0, n);
  }

  lemma {:induction false} DeferralsAreSteps(r: Run, m: nat, n: nat)
    requires r.Valid() && m <= |r.steps|
    ensures SumDeferrals(History(r)[..m + 1], n) <= DeferSteps(r, m)
  {
    hide Enabled, Effect;
    var h := History(r)[..m + 1];
    if m == 0 {
      assert h == [r.states[0].ops];
      NoDeferrals(r.states[0].ops, n);
    } else {
      DeferralsAreSteps(r, m - 1, n);
      assert h[..|h| - 1] == History(r)[..m - 1 + 1];
      SumDeferralsStep(h, n);
      StepPutOffs(r, m - 1, n);
    }
  }

  /** Whatever the interleaving, operations 0..n make at most twice their allowed attempts plus one
      transition per deferral that took effect: the queue cannot churn for ever. */
  lemma RunTransitionBound(r: Run, n: nat)
    requires r.Valid()
    ensures SumProgressions(History(r), n) <= Budget(r.states[|r.steps|].ops, n) + DeferSteps(r, |r.steps|)
  {
    var h := History(r);
    HistoryEvolves(r);
    TransitionBound(h, n);
    DeferralsAreSteps(r, |r.steps|, n);
    assert h[..|r.steps| + 1] == h;
  }
}
