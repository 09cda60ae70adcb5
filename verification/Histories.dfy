/** One operation row over time, given only the row changes that steps are permitted to make. */
module Histories {
  import opened Tables
  import opened Transitions
  import opened StateMachine
  import opened Invariants

  type Ops = map<Id, Operation>

  /** Successive contents of the operations table. */
  ghost predicate Evolving(h: seq<Ops>) {
    && (forall k | 0 <= k < |h| :: RowsOk(h[k]))
    && (forall k | 0 <= k < |h| - 1 :: RowsEvolve(h[k], h[k + 1]))
  }

  /** Rows are never deleted, a cancellation request is never lost, and a terminal row never changes. */
  lemma {:induction false} RequestsPersist(h: seq<Ops>, i: nat, j: nat, id: Id)
    requires Evolving(h) && i <= j < |h| && id in h[i]
    ensures id in h[j]
    ensures h[i][id].cancelRequestedAt.Some? ==> h[j][id].cancelRequestedAt.Some?
    ensures h[i][id].status.Terminal() ==> h[j][id] == h[i][id]
  {
    if i < j {
      RequestsPersist(h, i, j - 1, id);
      assert RowsEvolve(h[j - 1], h[j - 1 + 1]);
      assert Evolves(h[j - 1][id], h[j][id]);
    }
  }

  ghost function Moved(ops: Ops, ops': Ops, id: Id, move: Move): nat {
    if id in ops && id in ops' && MoveOf(ops[id], ops'[id]) == move then 1 else 0
  }

  /** How often operation `id` makes the given move. */
  ghost function Moves(h: seq<Ops>, id: Id, move: Move): nat {
    if |h| < 2 then 0
    else Moves(h[..|h| - 1], id, move) + Moved(h[|h| - 2], h[|h| - 1], id, move)
  }

  /** Claims, requeues, completions and queued cancellations of one operation. */
  ghost function Progressions(h: seq<Ops>, id: Id): nat {
    Moves(h, id, Start) + Moves(h, id, Requeue) + Moves(h, id, Finish) + Moves(h, id, Drop)
  }

  /** What an operation can still do: two for each attempt left, one more while it runs. */
  function Weight(o: Operation): int {
    match o.status
    case Queued => 2 * (o.maxAttempts - o.attempt)
    case Running => 2 * (o.maxAttempts - o.attempt) + 1
    case _ => 0
  }

  /** Every transition strictly decreases the weight; a deferral adds exactly one; nothing else changes it. */
  lemma WeightOfMove(o: Operation, o': Operation)
    requires RowOk(o) && RowOk(o') && Evolves(o, o')
    ensures match MoveOf(o, o')
      case Stay => Weight(o') == Weight(o)
      case PutOff => Weight(o') == Weight(o) + 1
      case _ => Weight(o') < Weight(o)
    ensures Weight(o') >= 0
  {}

  /** attempt counts claims minus deferrals, and the weight bounds what has happened so far. */
  ghost predicate Accounted(h: seq<Ops>, id: Id) {
    if h != [] && id in h[|h| - 1] then
      var o := h[|h| - 1][id];
      && o.attempt == Moves(h, id, Start) - Moves(h, id, PutOff)
      && Progressions(h, id) + Weight(o) <= 2 * o.maxAttempts + Moves(h, id, PutOff)
    else
      Progressions(h, id) == 0 && Moves(h, id, PutOff) == 0
  }

  lemma AccountingStep(h: seq<Ops>, id: Id)
    requires |h| > 1 && Accounted(h[..|h| - 1], id)
    requires RowsOk(h[|h| - 2]) && RowsOk(h[|h| - 1]) && RowsEvolve(h[|h| - 2], h[|h| - 1])
    ensures Accounted(h, id)
  {
    var ops, ops' := h[|h| - 2], h[|h| - 1];
    assert h[..|h| - 1][|h| - 2] == ops;
    if id in ops {
      assert RowOk(ops[id]) && Evolves(ops[id], ops'[id]);
      WeightOfMove(ops[id], ops'[id]);
    }
  }

  lemma {:induction false} Accounting(h: seq<Ops>, id: Id)
    requires Evolving(h) && h != [] && h[0] == map[]
    ensures Accounted(h, id)
  {
    hide RowsOk, RowsEvolve;
    if |h| > 1 {
      Accounting(h[..|h| - 1], id);
      assert RowsEvolve(h[|h| - 2], h[|h| - 2 + 1]);
      AccountingStep(h, id);
    }
  }

  // ----- sums over all operations -----------------------------------------

  ghost function SumProgressions(h: seq<Ops>, n: nat): nat {
    if n == 0 then 0 else SumProgressions(h, n - 1) + Progressions(h, n - 1)
  }

  ghost function SumDeferrals(h: seq<Ops>, n: nat): nat {
    if n == 0 then 0 else SumDeferrals(h, n - 1) + Moves(h, n - 1, PutOff)
  }

  /** Twice the attempts all operations are allowed. */
  function Budget(ops: Ops, n: nat): int {
    if n == 0 then 0 else Budget(ops, n - 1) + (if n - 1 in ops then 2 * ops[n - 1].maxAttempts else 0)
  }

  /** A history with D deferrals makes at most twice the allowed attempts plus D transitions. */
  lemma {:induction false} TransitionBound(h: seq<Ops>, n: nat)
    requires Evolving(h) && h != [] && h[0] == map[]
    ensures SumProgressions(h, n) <= Budget(h[|h| - 1], n) + SumDeferrals(h, n)
  {
    if n > 0 {
      TransitionBound(h, n - 1);
      Accounting(h, n - 1);
      if n - 1 in h[|h| - 1] {
        assert RowOk(h[|h| - 1][n - 1]);
      }
    }
  }
}
