/** Counting over whole runs: with environments that never both acknowledge an action and end its
    episode, exactly one exchange per client and round is discarded. */
module PoolAccounting {
  import opened Common
  import opened Reconcile
  import opened PoolSpec
  import opened PoolInvariant
  import opened PoolSafety

  /** An exchange is valid exactly when it does not end the episode. */
  predicate Exclusive(step: Stepping) {
    step.valid <==> !Finished(step)
  }

  predicate ExclusiveEvents(events: seq<Event>) {
    forall i :: 0 <= i < |events| && events[i].Stepped? ==> Exclusive(events[i].step)
  }

  /** Rounds this pool has finished. */
  function Rounds(p: Pool): int {
    if p.status.Driving? then p.sequence - 1 else p.sequence
  }

  ghost predicate Balanced(p: Pool) {
    && ExclusiveEvents(p.events)
    && match p.status
       case Raised(_) => true
       case NotDriving => p.discarded == |p.order| * Rounds(p)
       case Driving => p.discarded == |p.order| * Rounds(p) + |p.results|
  }

  predicate ExclusiveAct(act: Act) {
    act.ActorAnswers? && act.response.StepReturned? ==> Exclusive(act.response.step)
  }

  /** Events of one round add to the discarded transitions exactly what they add to the results. */
  ghost predicate Settled(p: Pool, q: Pool) {
    && ExclusiveEvents(q.events) && q.sequence == p.sequence && q.completed == p.completed
    && (q.status.Driving? ==> q.discarded - |q.results| == p.discarded - |p.results|)
  }

  lemma ProcessBalances(p: Pool, values: map<int, real>)
    requires Within(p) && p.status.Driving? && p.events != [] && ExclusiveEvents(p.events)
    requires ValuedBy(p.policy, p.events, 1, values)
    ensures Settled(p, TakeFirst(p, values))
  {
  }

  lemma SettledTogether(p: Pool, m: Pool, q: Pool)
    requires Settled(p, m) && Settled(m, q) && m.status.Driving?
    ensures Settled(p, q)
  {
  }

  /** The first of several events, settled, and ready for the rest. */
  lemma FirstBalances(p: Pool, n: nat, values: map<int, real>)
    requires Within(p) && p.status.Driving? && 0 < n <= |p.events| && ExclusiveEvents(p.events)
    requires ValuedBy(p.policy, p.events, n, values)
    ensures var m := TakeFirst(p, values);
            && Settled(p, m) && |m.events| == |p.events| - 1
            && ValuedBy(m.policy, m.events, n - 1, values)
            && (m.status.Raised? || (m.status.Driving? && Within(m)))
  {
    ProcessBalances(p, values);
    FirstKeeps(p, n, values);
  }

  lemma {:induction false} ProcessAllBalances(p: Pool, n: nat, values: map<int, real>)
    requires Within(p) && p.status.Driving? && n <= |p.events| && ExclusiveEvents(p.events)
    requires ValuedBy(p.policy, p.events, n, values)
    ensures Settled(p, ProcessAll(p, n, values))
    decreases n
  {
    if n > 0 {
      var m := TakeFirst(p, values);
      FirstBalances(p, n, values);
      if m.status.Driving? {
        ProcessAllBalances(m, n - 1, values);
        SettledTogether(p, m, ProcessAll(m, n - 1, values));
      }
    }
  }

  /** Entering a round changes no count but its own. */
  lemma EnterRoundBalances(p: Pool)
    requires AtRest(p)
    ensures var q := EnterRound(p);
            && q.events == [] && q.status == p.status && q.discarded == p.discarded
            && |q.results| == 0 && q.sequence == p.sequence + 1 && q.order == p.order
            && q.completed == p.completed
  {
  }

  lemma BarrierBalances(p: Pool, boundary: Boundary)
    requires Within(p) && p.status.Driving? && |p.results| == |p.order|
    requires p.discarded == |p.order| * (p.sequence - 1) + |p.results|
    ensures Balanced(Barrier(p, boundary))
    ensures var q := Barrier(p, boundary);
            !q.status.Raised? ==> Rounds(q) == Rounds(p) + 1 && |q.completed| == |p.completed| + 1
  {
    FullMeansIdle(p);
    assert |p.order| * (p.sequence - 1) + |p.order| == |p.order| * p.sequence;
    var r := ReconcileRound(p.round, p.policy.version, p.results, p.order);
    if r.Reconciled? && boundary.Continue? {
      var q := p.(completed := p.completed + [r.record], policy := boundary.next);
      assert AtRest(q);
      EnterRoundBalances(q);
    }
  }

  lemma SubmitBalances(p: Pool, picks: int -> seq<int>)
    requires Balanced(p)
    ensures var q := SubmitAll(p, picks);
            Balanced(q) && (!q.status.Raised? ==> Rounds(q) == Rounds(p) && q.completed == p.completed)
  {
  }

  lemma FinishTurnBalances(p: Pool, picks: int -> seq<int>, boundary: Boundary)
    requires Within(p) && Balanced(p) && p.status.Driving?
    ensures var q := FinishTurn(p, picks, boundary);
            && Balanced(q)
            && (!q.status.Raised? ==> Rounds(q) - |q.completed| == Rounds(p) - |p.completed|)
  {
    if |p.results| == |p.order| {
      BarrierBalances(p, boundary);
      SubmitBalances(Barrier(p, boundary), picks);
    } else {
      SubmitBalances(p, picks);
    }
  }

  lemma StaysBalanced(p: Pool, q: Pool)
    requires Balanced(p) && p.status.Driving? && (q.status.Driving? || q.status.Raised?)
    requires Settled(p, q) && q.order == p.order
    ensures Balanced(q)
  {
  }

  /** The balance after a turn's events, which are all of one round. */
  lemma EventsBalance(p: Pool, n: nat, values: map<int, real>) returns (q: Pool)
    requires Holds(p) && Balanced(p) && p.status.Driving? && n <= |p.events|
    requires values == NextValues(p.policy, p.events[..n])
    ensures q == ProcessAll(p, n, values) && q.sequence == p.sequence && q.completed == p.completed
    ensures q.status == Raised(Departed) || (q.status.Driving? && Within(q))
    ensures Balanced(q)
  {
    NextValuesAreRight(p.policy, p.events, n);
    ProcessAllKeeps(p, n, values);
    ProcessAllBalances(p, n, values);
    q := ProcessAll(p, n, values);
    StaysBalanced(p, q);
  }

  lemma TurnBalances(p: Pool, n: nat, picks: int -> seq<int>, boundary: Boundary)
    requires Holds(p) && Balanced(p) && p.status.Driving? && n <= |p.events|
    ensures Balanced(Iterate(p, n, picks, boundary))
    ensures var q := Iterate(p, n, picks, boundary);
            !q.status.Raised? ==> Rounds(q) - |q.completed| == Rounds(p) - |p.completed|
  {
    var q := EventsBalance(p, n, NextValues(p.policy, p.events[..n]));
    if q.status.Driving? {
      FinishTurnBalances(q, picks, boundary);
    }
  }

  lemma NextBalances(p: Pool, act: Act)
    requires Holds(p) && Balanced(p) && Enabled(p, act) && ExclusiveAct(act)
    ensures Balanced(Next(p, act))
    ensures !act.DriveIsCalled? && !Next(p, act).status.Raised? ==>
              Rounds(Next(p, act)) - |Next(p, act).completed| == Rounds(p) - |p.completed|
  {
    match act
    case DriveIsCalled(policy, limit) =>
      if limit.None? || limit.value > 0 {
        EnterRoundBalances(Called(p, policy, limit));
      }
    case ActorPicksUp(a) =>
    case ActorAnswers(a, response) =>
    case DriveTurns(n, picks, boundary) => TurnBalances(p, n, picks, boundary);
  }

  /** One call of drive, from a pool at rest: what it discarded is the pool's width times the rounds
      it completed. */
  lemma {:induction false} BalancedDrive(p: Pool, acts: seq<Act>)
    requires Holds(p) && Balanced(p) && Possible(p, acts)
    requires forall k :: 0 <= k < |acts| ==> ExclusiveAct(acts[k]) && !acts[k].DriveIsCalled?
    ensures var q := After(p, acts);
            && Holds(q) && Balanced(q)
            && (!q.status.Raised? ==> Rounds(q) - |q.completed| == Rounds(p) - |p.completed|)
    decreases |acts|
  {
    if acts != [] {
      NextKeeps(p, acts[0]);
      NextBalances(p, acts[0]);
      var q, rest := Next(p, acts[0]), acts[1..];
      assert forall k :: 0 <= k < |rest| ==> rest[k] == acts[k + 1];
      if !q.status.Raised? {
        BalancedDrive(q, rest);
      } else {
        RaisedStays(q, rest);
      }
    }
  }

  lemma RaisedStays(p: Pool, acts: seq<Act>)
    requires p.status.Raised? && Possible(p, acts)
    ensures acts == []
  {
  }

  /** A whole call of drive that returns: DriveResult.discarded_transitions is exactly the pool's
      width times the number of rounds completed. */
  lemma OneDiscardPerClientAndRound(
      p: Pool, policy: Policy, limit: Option<int>, acts: seq<Act>)
    requires Holds(p) && Balanced(p) && p.status.NotDriving?
    requires limit.Some? ==> 0 < limit.value
    requires Possible(StartDrive(p, policy, limit), acts)
    requires forall k :: 0 <= k < |acts| ==> ExclusiveAct(acts[k]) && !acts[k].DriveIsCalled?
    ensures var q := After(StartDrive(p, policy, limit), acts);
            && (q.status.NotDriving? ==>
                  q.discarded - p.discarded == |p.order| * |q.completed|)
            && Holds(q) && Balanced(q)
  {
    var started := StartDrive(p, policy, limit);
    NextKeeps(p, DriveIsCalled(policy, limit));
    NextBalances(p, DriveIsCalled(policy, limit));
    assert Next(p, DriveIsCalled(policy, limit)) == started;
    EnterRoundBalances(Called(p, policy, limit));
    BalancedDrive(started, acts);
    HoldsForever(started, acts);
    DiscardedBetween(p, After(started, acts));
  }

  lemma DiscardedBetween(p: Pool, q: Pool)
    requires Balanced(p) && p.status.NotDriving? && Balanced(q) && q.order == p.order
    requires q.status.NotDriving? ==> q.sequence == p.sequence + |q.completed|
    ensures q.status.NotDriving? ==> q.discarded - p.discarded == |p.order| * |q.completed|
  {
  }
}
