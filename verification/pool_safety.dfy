/** What the scheduler guarantees over every run, repeated calls of drive included. */
module PoolSafety {
  import opened Common
  import opened Reconcile
  import opened RoundTruth
  import opened PoolSpec
  import opened PoolInvariant

  // ---------------------------------------------------------------- the barrier keeps the invariant

  lemma EnterRoundKeeps(p: Pool)
    requires AtRest(p)
    ensures var q := EnterRound(p);
            && q.status == p.status && Within(q) && |q.available| == 0 && |q.results| == 0
            && q.order == p.order
  {
  }

  lemma PostedMeansMissing(p: Pool)
    requires Disjoint(p) && p.events != []
    ensures exists a :: a in p.actors && a !in p.results
  {
    assert p.events[0].actor in p.actors && p.events[0].actor !in p.results;
  }

  /** With a result from every actor nothing else is anywhere. */
  lemma FullMeansIdle(p: Pool)
    requires Within(p) && |p.results| == |p.order|
    ensures AtRest(p) && |p.available| == 0 && CompletePool(p.results, p.order)
  {
    if p.events != [] {
      PostedMeansMissing(p);
    }
    FullMeansEveryone(p);
    assert forall a :: a in p.available ==> a in p.actors;
    assert forall a :: a !in p.available.Keys;
    assert |p.available.Keys| == |p.available|;
  }

  lemma BarrierKeeps(p: Pool, boundary: Boundary)
    requires Within(p) && p.status.Driving? && |p.results| == |p.order|
    ensures var q := Barrier(p, boundary);
            q.order == p.order &&
            if q.status.Driving? then Within(q) && |q.available| == 0 && |q.results| < |q.order|
            else Holds(q)
  {
    FullMeansIdle(p);
    OnlyPlayersCanDisagree(p.round, p.policy.version, p.results, p.order);
    var r := ReconcileRound(p.round, p.policy.version, p.results, p.order);
    if r.Reconciled? && boundary.Continue? {
      var q := p.(completed := p.completed + [r.record], policy := boundary.next);
      assert AtRest(q);
      EnterRoundKeeps(q);
    }
  }

  lemma FinishTurnKeeps(p: Pool, picks: int -> seq<int>, boundary: Boundary)
    requires Within(p) && p.status.Driving?
    ensures Holds(FinishTurn(p, picks, boundary)) && FinishTurn(p, picks, boundary).order == p.order
  {
    FullMeansEveryone(p);
    if |p.results| == |p.order| {
      BarrierKeeps(p, boundary);
      if Barrier(p, boundary).status.Driving? {
        SubmitKeeps(Barrier(p, boundary), picks);
      }
    } else {
      SubmitKeeps(p, picks);
    }
  }

  lemma IterateKeeps(p: Pool, n: nat, picks: int -> seq<int>, boundary: Boundary)
    requires Holds(p) && p.status.Driving? && n <= |p.events|
    ensures Holds(Iterate(p, n, picks, boundary))
    ensures Iterate(p, n, picks, boundary).order == p.order
  {
    var values := NextValues(p.policy, p.events[..n]);
    NextValuesAreRight(p.policy, p.events, n);
    ProcessAllKeeps(p, n, values);
    var q := ProcessAll(p, n, values);
    if q.status.Driving? {
      FinishTurnKeeps(q, picks, boundary);
    }
  }

  // ---------------------------------------------------------------- runs

  datatype Act =
    | DriveIsCalled(policy: Policy, limit: Option<int>)
    | ActorPicksUp(actor: int)
    | ActorAnswers(actor: int, response: Response)
    | DriveTurns(n: nat, picks: int -> seq<int>, boundary: Boundary)

  ghost predicate Enabled(p: Pool, act: Act) {
    match act
    case DriveIsCalled(_, _) => p.status.NotDriving?
    case ActorPicksUp(a) => a in p.actors && p.actors[a].slot.Some? && !p.status.Raised?
    case ActorAnswers(a, response) =>
      a in p.actors && PoolSpec.Faithful(p.actors[a], response) && !p.status.Raised?
    case DriveTurns(n, _, _) => p.status.Driving? && 0 < n <= |p.events|
  }

  ghost function Next(p: Pool, act: Act): Pool
    requires Enabled(p, act)
  {
    match act
    case DriveIsCalled(policy, limit) => StartDrive(p, policy, limit)
    case ActorPicksUp(a) => ActorTakes(p, a)
    case ActorAnswers(a, response) => ActorFinishes(p, a, response)
    case DriveTurns(n, picks, boundary) => Iterate(p, n, picks, boundary)
  }

  lemma BusyMeansDriving(p: Pool, a: int)
    requires Holds(p) && !p.status.Raised? && a in p.actors && !Free(p.actors[a])
    ensures p.status.Driving?
  {
  }

  lemma NextKeeps(p: Pool, act: Act)
    requires Holds(p) && Enabled(p, act)
    ensures Holds(Next(p, act)) && Next(p, act).order == p.order
  {
    match act
    case DriveIsCalled(policy, limit) =>
      if limit.None? || limit.value > 0 {
        EnterRoundKeeps(Called(p, policy, limit));
      }
    case ActorPicksUp(a) =>
      BusyMeansDriving(p, a);
      TakeKeeps(p, a);
    case ActorAnswers(a, response) =>
      BusyMeansDriving(p, a);
      FinishKeeps(p, a, response);
    case DriveTurns(n, picks, boundary) => IterateKeeps(p, n, picks, boundary);
  }

  ghost predicate Possible(p: Pool, acts: seq<Act>)
    decreases |acts|
  {
    acts != [] ==> Enabled(p, acts[0]) && Possible(Next(p, acts[0]), acts[1..])
  }

  ghost function After(p: Pool, acts: seq<Act>): Pool
    requires Possible(p, acts)
    decreases |acts|
  {
    if acts == [] then p else After(Next(p, acts[0]), acts[1..])
  }

  /** A started pool: every actor connected and idle. */
  function Started(order: seq<int>, policy: Policy): Pool {
    Pool(order, map a | a in order :: IDLE, [], 0, 0, 0, NotDriving, policy, 0, None, [],
         map[], map[], [], map[])
  }

  lemma {:induction false} HoldsForever(p: Pool, acts: seq<Act>)
    requires Holds(p) && Possible(p, acts)
    ensures Holds(After(p, acts)) && After(p, acts).order == p.order
    decreases |acts|
  {
    if acts != [] {
      NextKeeps(p, acts[0]);
      HoldsForever(Next(p, acts[0]), acts[1..]);
    }
  }

  // ---------------------------------------------------------------- what it says

  /** The partition at every head of the loop: each actor has a result or exactly one operation
      outstanding, in its slot, in execution or posted, and nothing waits to be submitted. */
  lemma PoolIsPartitioned(order: seq<int>, policy: Policy, acts: seq<Act>, a: int)
    requires order != [] && Distinct(order) && Possible(Started(order, policy), acts) && a in order
    ensures var p := After(Started(order, policy), acts);
            p.status.Driving? ==>
              && a in p.actors && |p.available| == 0 && (a in p.results <==> !Outstanding(p, a))
              && (p.actors[a].slot.None? || p.actors[a].running.None?)
              && (Posted(p.events, a) ==> Free(p.actors[a]))
              && OneEventEach(p.events)
  {
    HoldsForever(Started(order, policy), acts);
    var p := After(Started(order, policy), acts);
    assert p.order == order;
    if p.status.Driving? {
      assert Outstanding(p, a) || a in p.available || a in p.results;
      assert |p.available.Keys| == |p.available|;
    }
  }

  /** Driving, something is always in flight, and one of its steps can be taken now: drive never
      blocks on an event that cannot come, and an eliminated actor never holds up a survivor. */
  lemma DriveNeverStalls(p: Pool) returns (a: int)
    requires Holds(p) && p.status.Driving?
    ensures a in p.actors && a !in p.results && Outstanding(p, a)
    ensures p.actors[a].slot.Some? ==> Enabled(p, ActorPicksUp(a))
    ensures p.actors[a].running.Some? ==> Enabled(p, ActorAnswers(a, CallFailed))
    ensures p.actors[a].slot.None? && p.actors[a].running.None? ==> p.events != []
  {
    FullMeansEveryone(p);
    SomeoneIsMissing(p);
    a :| a in p.actors && a !in p.results;
    assert |p.available.Keys| == |p.available|;
    assert Outstanding(p, a) || a in p.available || a in p.results;
  }

  lemma SomeoneIsMissing(p: Pool)
    requires Roster(p) && |p.results| < |p.order|
    ensures exists a :: a in p.actors && a !in p.results
  {
    DistinctSize(p.order);
    assert |p.results.Keys| == |p.results|;
    BiggerHasMore(p.results.Keys, ToSet(p.order));
    var a :| a in ToSet(p.order) && a !in p.results.Keys;
    assert a in p.actors && a !in p.results;
  }

  lemma BiggerHasMore(part: set<int>, whole: set<int>)
    requires |part| < |whole|
    ensures exists a :: a in whole && a !in part
  {
    if forall a :: a in whole ==> a in part {
      SubsetFills(whole, part);
    }
  }

  /** The scheduler's own errors are unreachable: no submit ever finds a full queue, no actor arms
      the wrong round, and no round is reconciled without every actor, round and version. */
  lemma OnlyOthersFail(order: seq<int>, policy: Policy, acts: seq<Act>)
    requires order != [] && Distinct(order) && Possible(Started(order, policy), acts)
    ensures var p := After(Started(order, policy), acts);
            p.status.Raised? ==>
              match p.status.error
              case SlotFull => false
              case UnexpectedRound => false
              case BadRound(d) => d !in {IncompletePool, DifferentRounds, DifferentVersions}
              case Departed => true
              case BoundaryFailed => true
  {
    HoldsForever(Started(order, policy), acts);
  }

  /** A turn of the loop changes the policy only once every actor is idle. */
  lemma PoliciesChangeOnlyAtRest(p: Pool, n: nat, picks: int -> seq<int>, boundary: Boundary)
    requires Holds(p) && p.status.Driving? && n <= |p.events|
    ensures Iterate(p, n, picks, boundary).policy != p.policy ==>
              AtRest(Processed(p, n))
  {
    var values := NextValues(p.policy, p.events[..n]);
    NextValuesAreRight(p.policy, p.events, n);
    ProcessAllKeeps(p, n, values);
    var q := ProcessAll(p, n, values);
    if q.status.Driving? && |q.results| == |q.order| {
      FullMeansIdle(q);
    }
  }

  /** Policy homogeneity over whole runs: every transition ever delivered carries the version, value,
      log-probability and next value of the single policy used in its round. */
  lemma EveryTransitionHasOnePolicy(order: seq<int>, policy: Policy, acts: seq<Act>)
    requires order != [] && Distinct(order) && Possible(Started(order, policy), acts)
    ensures var p := After(Started(order, policy), acts);
            p.valid == |p.sunk| && SunkWell(p.sunk, p.usedIn)
  {
    HoldsForever(Started(order, policy), acts);
  }
}
