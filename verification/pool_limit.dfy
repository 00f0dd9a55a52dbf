/** When a call of drive returns, and with which policy. */
module PoolLimit {
  import opened Common
  import opened Reconcile
  import opened PoolSpec
  import opened PoolInvariant
  import opened PoolSafety
  import opened PoolDelivery

  /** A call driving under a limit has rounds left to play. */
  predicate RoundsLeft(p: Pool) {
    p.status.Driving? && p.limit.Some? ==> |p.completed| < p.limit.value
  }

  function PolicyOf(boundary: Boundary, current: Policy): Policy {
    match boundary
    case Continue(next) => next
    case Halt(last) => last
    case CallbackRaises => current
  }

  /** The call went on below its limit, returned at it, or was halted, and each time with the policy
      the boundary callback gave. */
  ghost predicate Crossed(p: Pool, boundary: Boundary, q: Pool) {
    && q.limit == p.limit
    && match q.status
       case Raised(_) => true
       case Driving =>
         && |p.completed| <= |q.completed| <= |p.completed| + 1 && RoundsLeft(q)
         && (if q.completed == p.completed then q.policy == p.policy
             else !boundary.Halt? && q.policy == PolicyOf(boundary, p.policy))
       case NotDriving =>
         && !boundary.CallbackRaises? && q.policy == PolicyOf(boundary, p.policy)
         && |q.completed| == |p.completed| + 1
         && (!boundary.Halt? ==> q.limit == Some(|q.completed|))
  }

  lemma {:induction false} EventsLeaveCall(p: Pool, n: nat, values: map<int, real>)
    requires n <= |p.events| && HaveValues(p.events, n, values)
    ensures var q := ProcessAll(p, n, values);
            && q.limit == p.limit && q.completed == p.completed && q.policy == p.policy
            && (q.status == p.status || q.status.Raised?)
    decreases n
  {
    if n > 0 && !p.status.Raised? {
      ProcessLeaves(p.(events := p.events[1..]), p.events[0], values);
      assert forall i :: 0 <= i < n - 1 ==> p.events[1..][i] == p.events[i + 1];
      EventsLeaveCall(TakeFirst(p, values), n - 1, values);
    }
  }

  lemma EnterRoundLeavesCall(p: Pool)
    ensures var q := EnterRound(p);
            && q.limit == p.limit && q.completed == p.completed && q.policy == p.policy
            && q.sunk == p.sunk && (q.status == p.status || q.status.Raised?)
  {
  }

  lemma BarrierCrosses(p: Pool, boundary: Boundary)
    requires p.status.Driving? && RoundsLeft(p)
    ensures Crossed(p, boundary, Barrier(p, boundary))
  {
    var r := ReconcileRound(p.round, p.policy.version, p.results, p.order);
    if r.Reconciled? {
      var q := p.(completed := p.completed + [r.record]);
      assert |q.completed| == |p.completed| + 1;
      EnterRoundLeavesCall(q.(policy := PolicyOf(boundary, p.policy)));
    }
  }

  lemma SubmitLeavesCall(p: Pool, picks: int -> seq<int>)
    ensures var q := SubmitAll(p, picks);
            && q.limit == p.limit && q.completed == p.completed && q.policy == p.policy
            && q.sunk == p.sunk && (q.status == p.status || q.status.Raised?)
  {
  }

  lemma EndingCrosses(p: Pool, picks: int -> seq<int>, boundary: Boundary)
    requires p.status.Driving? && RoundsLeft(p)
    ensures Crossed(p, boundary, FinishTurn(p, picks, boundary))
  {
    var m := if |p.results| == |p.order| then Barrier(p, boundary) else p;
    BarrierCrosses(p, boundary);
    SubmitLeavesCall(m, picks);
  }

  /** Only events reach the sink. */
  lemma EndingDeliversNothing(p: Pool, picks: int -> seq<int>, boundary: Boundary)
    ensures FinishTurn(p, picks, boundary).sunk == p.sunk
  {
    var m := if |p.results| == |p.order| then Barrier(p, boundary) else p;
    BarrierDeliversNothing(p, boundary);
    SubmitLeavesCall(m, picks);
  }

  lemma BarrierDeliversNothing(p: Pool, boundary: Boundary)
    ensures Barrier(p, boundary).sunk == p.sunk
  {
    var r := ReconcileRound(p.round, p.policy.version, p.results, p.order);
    if r.Reconciled? {
      EnterRoundLeavesCall(
        p.(completed := p.completed + [r.record], policy := PolicyOf(boundary, p.policy)));
    }
  }

  lemma TurnCrosses(p: Pool, n: nat, picks: int -> seq<int>, boundary: Boundary)
    requires p.status.Driving? && RoundsLeft(p) && n <= |p.events|
    ensures Crossed(p, boundary, Iterate(p, n, picks, boundary))
  {
    var m := Processed(p, n);
    EventsLeaveCall(p, n, NextValues(p.policy, p.events[..n]));
    if !m.status.Raised? {
      EndingCrosses(m, picks, boundary);
    }
  }

  /** How a call that has returned came to return. */
  ghost predicate ReturnedBy(act: Act, q: Pool) {
    && act.DriveTurns? && !act.boundary.CallbackRaises?
    && q.policy == PolicyOf(act.boundary, q.policy)
    && (!act.boundary.Halt? ==> q.limit == Some(|q.completed|))
  }

  lemma ActCrosses(p: Pool, act: Act)
    requires Holds(p) && p.status.Driving? && RoundsLeft(p) && Enabled(p, act)
    ensures var q := Next(p, act);
            && Holds(q) && q.limit == p.limit && RoundsLeft(q)
            && (q.status.NotDriving? ==> ReturnedBy(act, q))
  {
    NextKeeps(p, act);
    if act.DriveTurns? {
      TurnCrosses(p, act.n, act.picks, act.boundary);
    }
  }

  /** While a call of drive runs it has completed fewer rounds than its limit, and it returns exactly
      at its limit unless the boundary callback halts it before, with the policy the callback gave
      last; without a limit only the callback ends it. */
  lemma {:induction false} CallReturnsAtItsLimit(p: Pool, acts: seq<Act>)
    requires Holds(p) && p.status.Driving? && RoundsLeft(p) && Possible(p, acts)
    requires forall k :: 0 <= k < |acts| ==> !acts[k].DriveIsCalled?
    ensures var q := After(p, acts);
            && q.limit == p.limit && RoundsLeft(q)
            && (q.status.NotDriving? ==> acts != [] && ReturnedBy(acts[|acts| - 1], q))
    decreases |acts|
  {
    if acts != [] {
      var q, rest := Next(p, acts[0]), acts[1..];
      ActCrosses(p, acts[0]);
      if q.status.Driving? {
        assert forall k :: 0 <= k < |rest| ==> rest[k] == acts[k + 1];
        CallReturnsAtItsLimit(q, rest);
      } else {
        NothingMore(q, rest);
      }
    }
  }

  /** A pool that is not driving moves only when drive is called again. */
  lemma NothingMore(p: Pool, acts: seq<Act>)
    requires Holds(p) && !p.status.Driving? && Possible(p, acts)
    requires acts != [] ==> !acts[0].DriveIsCalled?
    ensures acts == []
  {
  }

  /** A limit that is not positive starts nothing. */
  lemma BadLimitsStartNothing(p: Pool, policy: Policy, limit: int)
    ensures limit <= 0 <==> StartDrive(p, policy, Some(limit)).sequence == p.sequence
    ensures limit <= 0 ==> StartDrive(p, policy, Some(limit)) == p
  {
  }

  /** A new call starts with every round of its limit left. */
  lemma CallStartsWithRoundsLeft(p: Pool, policy: Policy, limit: Option<int>)
    requires Holds(p) && p.status.NotDriving? && (limit.Some? ==> 0 < limit.value)
    ensures var q := StartDrive(p, policy, limit);
            && Holds(q) && q.status.Driving? && RoundsLeft(q)
            && q.limit == limit && q.policy == policy && q.completed == []
  {
    NextKeeps(p, DriveIsCalled(policy, limit));
    EnterRoundKeeps(Called(p, policy, limit));
  }
}
