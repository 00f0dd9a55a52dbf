/** Scheduler, transition sink, boundary callback and optimizer thread together: a whole training
    run, for every interleaving of actors, driver and optimizer. */
module TrainingRun {
  import opened Common
  import opened Transitions
  import opened Reconcile
  import opened PoolSpec
  import opened PoolInvariant
  import opened TrainingSpec
  import opened TrainingInvariant
  import PoolSafety
  import PoolDelivery
  import RolloutSpec
  import RolloutOrder

  datatype Run = Run(pool: Pool, training: Training)

  datatype Act =
    | ActorPicksUp(actor: int)
    | ActorAnswers(actor: int, response: Response)
    | OptimizerEnds(learning: Learning)
    | DriveTurns(n: nat, picks: int -> seq<int>)

  ghost predicate Enabled(y: Run, act: Act) {
    match act
    case ActorPicksUp(a) => PoolSafety.Enabled(y.pool, PoolSafety.ActorPicksUp(a))
    case ActorAnswers(a, response) =>
      PoolSafety.Enabled(y.pool, PoolSafety.ActorAnswers(a, response))
    case OptimizerEnds(_) => y.training.job.Some?
    case DriveTurns(n, _) => y.pool.status.Driving? && 0 < n <= |y.pool.events|
  }

  /** The sink, called once per transition until one call raises. */
  function ReceiveAll(t: Training, config: Config, xs: seq<Transition>): Training
    requires t.collector.Some? ==> RolloutSpec.Valid(t.collector.value)
    decreases |xs|
  {
    if xs == [] || t.failed.Some? then t
    else
      ReceiveKeepsValid(t, config, xs[0]);
      ReceiveAll(Receive(t, config, xs[0]), config, xs[1..])
  }

  lemma ReceiveKeepsValid(t: Training, config: Config, x: Transition)
    requires t.collector.Some? ==> RolloutSpec.Valid(t.collector.value)
    ensures var u := Receive(t, config, x);
            u.collector.Some? ==> RolloutSpec.Valid(u.collector.value)
  {
    if t.collector.Some? {
      RolloutOrder.AddKeepsValid(t.collector.value, x);
    }
  }

  predicate Delivers(p: Pool, q: Pool) {
    |p.sunk| <= |q.sunk| && q.sunk[..|p.sunk|] == p.sunk
  }

  /** One turn: the sink sees the new transitions in order, and the boundary callback is called when
      a round's record exists. */
  ghost function Turn(y: Run, config: Config, n: nat, picks: int -> seq<int>): Run
    requires n <= |y.pool.events|
    requires y.training.collector.Some? ==> RolloutSpec.Valid(y.training.collector.value)
    requires Delivers(y.pool, Processed(y.pool, n))
  {
    var q := Processed(y.pool, n);
    var t := ReceiveAll(y.training, config, q.sunk[|y.pool.sunk|..]);
    if t.failed.Some? then Run(Raise(q, BoundaryFailed), t)
    else if q.status.Raised? then Run(q, t)
    else if Recorded(q) then
      var (u, boundary) := Switch(t, config, q.policy);
      Run(FinishTurn(q, picks, boundary), u)
    else Run(FinishTurn(q, picks, Continue(q.policy)), t)
  }

  ghost predicate Joint(y: Run, config: Config) {
    && GoodConfig(config) && Holds(y.pool) && y.pool.order == config.actors && y.pool.limit.None?
    && Conserved(y.training, config) && y.training.received == y.pool.valid
    && match y.pool.status
       case Driving =>
         && Steady(y.training, config) && !StageOf(y.training, config).Finished?
         && y.pool.policy == y.training.active
       case NotDriving =>
         && Steady(y.training, config) && StageOf(y.training, config).Finished?
         && y.pool.policy == y.training.active
       case Raised(error) =>
         if error.BoundaryFailed? then y.training.failed == Some(OptimizerFailed)
         else Steady(y.training, config)
  }

  // ---------------------------------------------------------------- deliveries

  /** Transitions of the current round and policy, from actors of the pool. */
  predicate AllCurrent(p: Pool, xs: seq<Transition>) {
    forall k :: 0 <= k < |xs| ==>
      xs[k].actor in p.order && xs[k].version == p.policy.version && xs[k].round == p.round
  }

  /** The sink received current transitions and nothing else. */
  ghost predicate Delivered(p: Pool, q: Pool) {
    && Delivers(p, q) && AllCurrent(p, q.sunk[|p.sunk|..])
    && q.limit == p.limit && q.usedIn == p.usedIn
  }

  lemma ProcessDelivers(p: Pool, values: map<int, real>)
    requires p.events != [] && HaveValues(p.events, 1, values) && p.events[0].actor in p.order
    ensures Delivered(p, TakeFirst(p, values)) && TakeFirst(p, values).round == p.round
  {
    var e := p.events[0];
    PoolDelivery.ProcessLeaves(p.(events := p.events[1..]), e, values);
    ProcessLeavesUsed(p.(events := p.events[1..]), e, values);
  }

  lemma ProcessLeavesUsed(p: Pool, e: Event, values: map<int, real>)
    requires NeedsValue(e) ==> e.actor in values
    ensures Process(p, e, values).usedIn == p.usedIn
  {
  }

  lemma DeliveredTogether(p: Pool, m: Pool, q: Pool)
    requires Delivered(p, m) && Delivered(m, q)
    requires m.order == p.order && m.policy == p.policy && m.round == p.round
    ensures Delivered(p, q)
  {
    assert q.sunk[|p.sunk|..] == m.sunk[|p.sunk|..] + q.sunk[|m.sunk|..];
    assert q.sunk[..|p.sunk|] == q.sunk[..|m.sunk|][..|p.sunk|];
  }

  lemma {:induction false} ProcessAllDelivers(p: Pool, n: nat, values: map<int, real>)
    requires Within(p) && p.status.Driving? && n <= |p.events|
    requires ValuedBy(p.policy, p.events, n, values)
    ensures Delivered(p, ProcessAll(p, n, values))
    decreases n
  {
    if n > 0 {
      FirstKeeps(p, n, values);
      assert p.events[0].actor in p.actors;
      ProcessDelivers(p, values);
      var m := TakeFirst(p, values);
      if m.status.Driving? {
        ProcessAllDelivers(m, n - 1, values);
        DeliveredTogether(p, m, ProcessAll(m, n - 1, values));
      }
    }
  }

  lemma {:induction false} ReceiveAllKeeps(
      t: Training, config: Config, xs: seq<Transition>)
    requires GoodConfig(config) && Steady(t, config) && Conserved(t, config)
    requires forall k :: 0 <= k < |xs| ==> Current(t, config, xs[k])
    ensures var u := ReceiveAll(t, config, xs);
            && Steady(u, config) && Conserved(u, config) && u.active == t.active
            && u.received == t.received + |xs|
            && u.completedUpdates == t.completedUpdates
    decreases |xs|
  {
    if xs != [] {
      ReceiveKeeps(t, config, xs[0]);
      ReceiveCounts(t, config, xs[0]);
      var u, rest := Receive(t, config, xs[0]), xs[1..];
      assert forall k :: 0 <= k < |rest| ==> rest[k] == xs[k + 1];
      ReceiveAllKeeps(u, config, rest);
    }
  }

  lemma ReceiveCounts(t: Training, config: Config, x: Transition)
    requires t.collector.Some? ==> RolloutSpec.Valid(t.collector.value)
    ensures var u := Receive(t, config, x);
            u.received == t.received + 1 && u.completedUpdates == t.completedUpdates
  {
  }

  // ---------------------------------------------------------------- every step

  /** After a turn's events the trainer has seen exactly the new transitions. */
  lemma EventsKeep(y: Run, config: Config, n: nat) returns (q: Pool, t: Training)
    requires Joint(y, config) && y.pool.status.Driving? && n <= |y.pool.events|
    ensures q == Processed(y.pool, n) && Delivers(y.pool, q)
    ensures t == ReceiveAll(y.training, config, q.sunk[|y.pool.sunk|..])
    ensures Steady(t, config) && Conserved(t, config) && t.active == y.pool.policy
    ensures t.received == q.valid && !StageOf(t, config).Finished?
    ensures q.order == y.pool.order && q.policy == y.pool.policy && q.limit.None?
    ensures q.usedIn == y.pool.usedIn && AllCurrent(y.pool, q.sunk[|y.pool.sunk|..])
    ensures Roster(q) && History(q)
    ensures q.status == Raised(Departed) || (q.status.Driving? && Within(q))
  {
    var p := y.pool;
    var values := NextValues(p.policy, p.events[..n]);
    NextValuesAreRight(p.policy, p.events, n);
    ProcessAllKeeps(p, n, values);
    ProcessAllDelivers(p, n, values);
    q := Processed(p, n);
    ReceiveAllKeeps(y.training, config, q.sunk[|p.sunk|..]);
    t := ReceiveAll(y.training, config, q.sunk[|p.sunk|..]);
  }

  lemma TurnKeeps(y: Run, config: Config, n: nat, picks: int -> seq<int>)
    requires Joint(y, config) && y.pool.status.Driving? && n <= |y.pool.events|
    ensures Delivers(y.pool, Processed(y.pool, n)) && Joint(Turn(y, config, n, picks), config)
  {
    var q, t := EventsKeep(y, config, n);
    if q.status.Driving? {
      EndKeeps(q, t, config, picks);
    }
  }

  predicate Recorded(q: Pool) {
    |q.results| == |q.order|
    && ReconcileRound(q.round, q.policy.version, q.results, q.order).Reconciled?
  }

  /** Where a turn leaves the driver. */
  lemma FinishTurnEffect(q: Pool, picks: int -> seq<int>, boundary: Boundary)
    requires Within(q) && q.status.Driving? && q.limit.None?
    ensures var r := FinishTurn(q, picks, boundary);
            && Holds(r) && r.order == q.order && r.valid == q.valid && r.limit.None?
            && (!Recorded(q) ==>
                  if r.status.Driving? then r.policy == q.policy
                  else r.status.Raised? && !r.status.error.BoundaryFailed?)
            && (Recorded(q) ==>
                  match boundary
                  case CallbackRaises => r.status == Raised(BoundaryFailed)
                  case Halt(last) => r.status.NotDriving? && r.policy == last
                  case Continue(next) => r.status.Driving? && r.policy == next)
  {
    PoolSafety.FinishTurnKeeps(q, picks, boundary);
    if |q.results| == |q.order| {
      BarrierEffect(q, boundary);
      PoolSafety.BarrierKeeps(q, boundary);
      if Barrier(q, boundary).status.Driving? {
        SubmitKeeps(Barrier(q, boundary), picks);
      }
    } else {
      SubmitKeeps(q, picks);
    }
  }

  lemma BarrierEffect(q: Pool, boundary: Boundary)
    requires Within(q) && q.status.Driving? && q.limit.None? && |q.results| == |q.order|
    ensures var r := Barrier(q, boundary);
            && r.order == q.order && r.valid == q.valid && r.limit.None?
            && (!Recorded(q) ==> r.status.Raised? && !r.status.error.BoundaryFailed?)
            && (Recorded(q) ==>
                  match boundary
                  case CallbackRaises => r.status == Raised(BoundaryFailed)
                  case Halt(last) => r.status.NotDriving? && r.policy == last
                  case Continue(next) => r.status.Driving? && r.policy == next)
  {
    PoolSafety.FullMeansIdle(q);
    var r := ReconcileRound(q.round, q.policy.version, q.results, q.order);
    if r.Reconciled? && boundary.Continue? {
      var p := q.(completed := q.completed + [r.record], policy := boundary.next);
      assert AtRest(p);
      PoolSafety.EnterRoundKeeps(p);
    }
  }

  /** The end of a turn, with the trainer's boundary callback. */
  lemma EndKeeps(q: Pool, t: Training, config: Config, picks: int -> seq<int>)
    requires GoodConfig(config) && Within(q) && q.status.Driving? && q.order == config.actors
    requires q.limit.None?
    requires Steady(t, config) && Conserved(t, config) && t.active == q.policy
    requires t.received == q.valid && !StageOf(t, config).Finished?
    ensures Recorded(q) ==>
              var (u, boundary) := Switch(t, config, q.policy);
              Joint(Run(FinishTurn(q, picks, boundary), u), config)
    ensures !Recorded(q) ==> Joint(Run(FinishTurn(q, picks, Continue(q.policy)), t), config)
  {
    if Recorded(q) {
      SwitchKeeps(t, config, q.policy);
      var (u, boundary) := Switch(t, config, q.policy);
      FinishTurnEffect(q, picks, boundary);
    } else {
      FinishTurnEffect(q, picks, Continue(q.policy));
    }
  }

  ghost function Next(y: Run, config: Config, act: Act): Run
    requires Joint(y, config) && Enabled(y, act)
  {
    match act
    case ActorPicksUp(a) => y.(pool := ActorTakes(y.pool, a))
    case ActorAnswers(a, response) => y.(pool := ActorFinishes(y.pool, a, response))
    case OptimizerEnds(learning) => y.(training := Finish(y.training, config, learning))
    case DriveTurns(n, picks) =>
      TurnKeeps(y, config, n, picks);
      Turn(y, config, n, picks)
  }

  lemma NextKeeps(y: Run, config: Config, act: Act)
    requires Joint(y, config) && Enabled(y, act)
    ensures Joint(Next(y, config, act), config)
  {
    match act
    case ActorPicksUp(a) =>
      PoolSafety.BusyMeansDriving(y.pool, a);
      PoolInvariant.TakeKeeps(y.pool, a);
    case ActorAnswers(a, response) =>
      PoolSafety.BusyMeansDriving(y.pool, a);
      PoolInvariant.FinishKeeps(y.pool, a, response);
    case OptimizerEnds(learning) => OptimizerKeeps(y, config, learning);
    case DriveTurns(n, picks) => TurnKeeps(y, config, n, picks);
  }

  lemma OptimizerKeeps(y: Run, config: Config, learning: Learning)
    requires Joint(y, config) && y.training.job.Some?
    ensures Joint(y.(training := Finish(y.training, config, learning)), config)
  {
  }

  ghost predicate Possible(y: Run, config: Config, acts: seq<Act>)
    requires Joint(y, config)
    decreases |acts|
  {
    acts != [] ==>
      Enabled(y, acts[0])
      && (NextKeeps(y, config, acts[0]); Possible(Next(y, config, acts[0]), config, acts[1..]))
  }

  ghost function After(y: Run, config: Config, acts: seq<Act>): Run
    requires Joint(y, config) && Possible(y, config, acts)
    decreases |acts|
  {
    if acts == [] then y
    else
      NextKeeps(y, config, acts[0]);
      After(Next(y, config, acts[0]), config, acts[1..])
  }

  lemma {:induction false} JointHolds(y: Run, config: Config, acts: seq<Act>)
    requires Joint(y, config) && Possible(y, config, acts)
    ensures Joint(After(y, config, acts), config)
    decreases |acts|
  {
    if acts != [] {
      NextKeeps(y, config, acts[0]);
      JointHolds(Next(y, config, acts[0]), config, acts[1..]);
    }
  }

  /** The untrained policy, an open rollout, and every client armed for the first round. */
  ghost function Start(config: Config, first: Policy): Run {
    Run(StartDrive(PoolSafety.Started(config.actors, first), first, None), Begun(config, first))
  }

  lemma StartIsJoint(config: Config, first: Policy)
    requires GoodConfig(config) && first.version == 0
    ensures Joint(Start(config, first), config)
  {
    BegunIsSteady(config, first);
    var idle := PoolSafety.Started(config.actors, first);
    PoolSafety.EnterRoundKeeps(idle.(status := Driving, policy := first, limit := None, completed := []));
  }

  /** y is reached from the start by the given steps. */
  ghost predicate Reaches(config: Config, first: Policy, acts: seq<Act>, y: Run) {
    && GoodConfig(config) && first.version == 0
    && (StartIsJoint(config, first);
        Possible(Start(config, first), config, acts) && y == After(Start(config, first), config, acts))
  }

  lemma ReachedIsJoint(config: Config, first: Policy, acts: seq<Act>, y: Run)
    requires Reaches(config, first, acts, y)
    ensures Joint(y, config)
  {
    StartIsJoint(config, first);
    JointHolds(Start(config, first), config, acts);
  }

  /** While a training run drives, its clients play the active policy, whose version counts the
      updates; and it is doing exactly one thing: collecting for that policy, optimizing it, or
      holding its optimized successor until the round ends. */
  lemma HandoffIsOrderly(config: Config, first: Policy, acts: seq<Act>, y: Run)
    requires Reaches(config, first, acts, y)
    ensures y.pool.status.Driving? ==>
              && y.pool.policy == y.training.active
              && y.training.active.version == y.training.completedUpdates < config.updates
              && StageOf(y.training, config) in {Collecting, Optimizing, Optimal}
              && (y.training.collector.Some? ==>
                    y.training.collector.value.version == y.training.active.version)
              && (y.training.job.Some? ==> y.training.output == [])
  {
    ReachedIsJoint(config, first, acts, y);
  }

  /** Nothing the trainer itself could get wrong is ever raised: no stale policy, no mixed or
      unknown transition, no incomplete rollout, none of the scheduler's own errors. */
  lemma OnlyOutsidersFail(config: Config, first: Policy, acts: seq<Act>, y: Run)
    requires Reaches(config, first, acts, y)
    ensures && (y.training.failed.Some? ==> y.training.failed == Some(OptimizerFailed))
            && (y.pool.status.Raised? ==>
                  && Blameless(y.pool.status.error)
                  && (y.pool.status.error.BoundaryFailed? ==>
                        y.training.failed == Some(OptimizerFailed)))
  {
    ReachedIsJoint(config, first, acts, y);
  }

  /** Where every valid transition went, at any time. */
  lemma TransitionsAreConserved(config: Config, first: Policy, acts: seq<Act>, y: Run)
    requires Reaches(config, first, acts, y)
    ensures y.pool.valid
            == y.training.closed * (|config.actors| * config.length) + Open(y.training)
               + TurnedAway(y.training) + y.training.closedDiscards
               + y.training.discardedWhileOptimizing
  {
    ReachedIsJoint(config, first, acts, y);
  }

  /** A run that ends normally made exactly the configured updates, each from one full rollout, and
      left nothing half collected. */
  lemma NormalEndIsComplete(config: Config, first: Policy, acts: seq<Act>, y: Run)
    requires Reaches(config, first, acts, y)
    ensures y.pool.status.NotDriving? ==>
              && y.training.completedUpdates == config.updates == y.training.active.version
              && y.training.closed == config.updates
              && y.training.collector.None? && y.training.job.None? && y.training.output == []
              && y.pool.policy == y.training.active
              && y.pool.valid
                 == config.updates * (|config.actors| * config.length)
                    + y.training.closedDiscards + y.training.discardedWhileOptimizing
  {
    ReachedIsJoint(config, first, acts, y);
  }
}
