/** Which model a training run plays, and what its rollouts hold: the models learned take over in
    order, and every rollout shows the first transitions its own policy delivered. */
module TrainingModels {
  import opened Common
  import opened Transitions
  import opened PoolSpec
  import opened PoolInvariant
  import opened TrainingSpec
  import opened TrainingInvariant
  import opened TrainingRun
  import opened PoolLimit
  import RolloutSpec
  import RolloutOrder
  import RolloutTables

  /** The first model and every model learned since, in order; and how many transitions had been
      delivered when the last update was made. */
  datatype Ledger = Ledger(models: seq<Policy>, since: nat)

  function Entered(l: Ledger, y: Run, act: Act, z: Run): Ledger {
    Ledger(
      if act.OptimizerEnds? && act.learning.Learned? then
        l.models + [Policy(|l.models|, act.learning.critic, act.learning.likelihood)]
      else l.models,
      if y.training.completedUpdates < z.training.completedUpdates then |z.pool.sunk| else l.since)
  }

  /** The active model is the one learned by the last update; the one learned after it, if any, waits
      in the output queue. */
  ghost predicate Follows(t: Training, models: seq<Policy>) {
    && 0 <= t.completedUpdates < |models| && t.active == models[t.completedUpdates]
    && (t.failed.None? ==>
          if t.output != [] && t.output[0].Optimized? then
            |models| == t.completedUpdates + 2 && t.output[0].policy == models[t.completedUpdates + 1]
          else |models| == t.completedUpdates + 1)
  }

  /** The open rollout holds the first of these arrivals, and so does the one being optimized. */
  predicate Stocked(t: Training, config: Config, arrivals: seq<Transition>) {
    && (t.collector.Some? ==>
          var empty := RolloutSpec.Opened(config.actors, t.active.version, config.length);
          && RolloutOrder.Fits(empty, arrivals)
          && t.collector.value == RolloutOrder.AddAll(empty, arrivals))
    && (t.job.Some? ==>
          config.length >= 0 &&
          RolloutTables.ShowsArrivals(
            t.job.value.rollout, config.actors, config.length, arrivals, config.gamma,
            config.gaeLambda))
  }

  /** Sampled, valued and judged by the policy. */
  ghost predicate PlayedBy(policy: Policy, x: Transition) {
    && x.version == policy.version && x.value == policy.critic(x.observation)
    && x.logProbability == policy.likelihood(x.observation, x.action)
    && x.nextValue == policy.critic(x.nextObservation)
  }

  ghost predicate AllPlayedBy(policy: Policy, xs: seq<Transition>) {
    forall k :: 0 <= k < |xs| ==> PlayedBy(policy, xs[k])
  }

  /** The trainer has received exactly what the pool delivered since the last update. */
  ghost predicate Holding(t: Training, config: Config, l: Ledger, sunk: seq<Transition>) {
    && Follows(t, l.models) && l.since <= |sunk|
    && Stocked(t, config, sunk[l.since..]) && AllPlayedBy(t.active, sunk[l.since..])
  }

  ghost predicate Kept(y: Run, config: Config, l: Ledger) {
    if y.training.failed.None? then Holding(y.training, config, l, y.pool.sunk)
    else Follows(y.training, l.models)
  }

  // ---------------------------------------------------------------- deliveries

  lemma OneMoreAdded(empty: Collector, arrivals: seq<Transition>, x: Transition)
    requires RolloutOrder.Fits(empty, arrivals) && x.actor in empty.columns && x.version == empty.version
    ensures RolloutOrder.Fits(empty, arrivals + [x])
    ensures RolloutOrder.AddAll(empty, arrivals + [x])
            == RolloutSpec.Add(RolloutOrder.AddAll(empty, arrivals), x)
  {
    assert (arrivals + [x])[..|arrivals|] == arrivals;
  }

  lemma StoredAgain(t: Training, config: Config, arrivals: seq<Transition>, x: Transition)
    requires GoodConfig(config) && Steady(t, config) && Current(t, config, x)
    requires Stocked(t, config, arrivals) && t.collector.Some?
    ensures Stocked(Stored(t, config, x), config, arrivals + [x])
  {
    var c := t.collector.value;
    var d := RolloutSpec.Add(c, x);
    SortedKeeps(config.actors);
    AddCounts(c, x);
    OneMoreAdded(
      RolloutSpec.Opened(config.actors, t.active.version, config.length), arrivals, x);
    if RolloutSpec.Complete(d) {
      ClosedAgain(t, config, arrivals + [x], d);
      assert Stored(t, config, x) == Close(t, config, d);
    } else {
      assert Stored(t, config, x) == t.(collector := Some(d));
    }
  }

  /** A rollout that closes shows the arrivals it stored. */
  lemma ClosedAgain(t: Training, config: Config, arrivals: seq<Transition>, d: Collector)
    requires GoodConfig(config) && RolloutSpec.Valid(d) && RolloutSpec.Complete(d)
    requires d.length == config.length && |d.actors| == |config.actors|
    requires var empty := RolloutSpec.Opened(config.actors, t.active.version, config.length);
             RolloutOrder.Fits(empty, arrivals) && d == RolloutOrder.AddAll(empty, arrivals)
    ensures Stocked(Close(t, config, d), config, arrivals)
  {
    CloseCounts(t, config, d);
    RolloutTables.PreparedArrivals(
      config.actors, t.active.version, config.length, arrivals, config.gamma, config.gaeLambda,
      Close(t, config, d).job.value.rollout);
  }

  lemma ReceivedToo(t: Training, config: Config, arrivals: seq<Transition>, x: Transition)
    requires GoodConfig(config) && Steady(t, config) && Current(t, config, x)
    requires Stocked(t, config, arrivals)
    ensures Stocked(Receive(t, config, x), config, arrivals + [x])
  {
    if t.collector.Some? {
      StoredAgain(t.(received := t.received + 1), config, arrivals, x);
    } else if t.job.Some? {
      RolloutTables.LaterArrivalsShowToo(
        t.job.value.rollout, config.actors, config.length, arrivals, [x], config.gamma,
        config.gaeLambda);
    }
  }

  lemma ReceiveLeavesModels(t: Training, config: Config, x: Transition)
    requires t.collector.Some? ==> RolloutSpec.Valid(t.collector.value)
    ensures var u := Receive(t, config, x);
            && u.active == t.active && u.output == t.output
            && u.completedUpdates == t.completedUpdates
  {
  }

  lemma {:induction false} AllReceived(
      t: Training, config: Config, arrivals: seq<Transition>, xs: seq<Transition>)
    requires GoodConfig(config) && Steady(t, config) && Stocked(t, config, arrivals)
    requires forall k :: 0 <= k < |xs| ==> Current(t, config, xs[k])
    ensures var u := ReceiveAll(t, config, xs);
            && Stocked(u, config, arrivals + xs) && u.failed.None?
            && u.active == t.active && u.output == t.output
            && u.completedUpdates == t.completedUpdates
    decreases |xs|
  {
    if xs == [] {
      assert arrivals + xs == arrivals;
    } else {
      var u, rest := Receive(t, config, xs[0]), xs[1..];
      ReceiveKeeps(t, config, xs[0]);
      ReceiveLeavesModels(t, config, xs[0]);
      ReceivedToo(t, config, arrivals, xs[0]);
      assert forall k :: 0 <= k < |rest| ==> rest[k] == xs[k + 1];
      AllReceived(u, config, arrivals + [xs[0]], rest);
      assert arrivals + [xs[0]] + rest == arrivals + xs;
    }
  }

  // ---------------------------------------------------------------- every step

  lemma NewArePlayed(p: Pool, q: Pool)
    requires p.round in p.usedIn && p.usedIn[p.round] == p.policy && q.usedIn == p.usedIn
    requires SunkWell(q.sunk, q.usedIn) && Delivers(p, q) && AllCurrent(p, q.sunk[|p.sunk|..])
    ensures AllPlayedBy(p.policy, q.sunk[|p.sunk|..])
  {
    var xs := q.sunk[|p.sunk|..];
    forall k | 0 <= k < |xs| ensures PlayedBy(p.policy, xs[k]) {
      assert xs[k] == q.sunk[|p.sunk| + k];
      assert OnePolicy(q.usedIn, q.sunk[|p.sunk| + k]);
    }
  }

  lemma PlayedTogether(policy: Policy, xs: seq<Transition>, ys: seq<Transition>)
    requires AllPlayedBy(policy, xs) && AllPlayedBy(policy, ys)
    ensures AllPlayedBy(policy, xs + ys)
  {
  }

  lemma MoreHeld(
      t: Training, config: Config, l: Ledger, sunk: seq<Transition>, more: seq<Transition>)
    requires GoodConfig(config) && Steady(t, config) && Holding(t, config, l, sunk)
    requires forall k :: 0 <= k < |more| ==> Current(t, config, more[k])
    requires AllPlayedBy(t.active, more)
    ensures var u := ReceiveAll(t, config, more);
            && Holding(u, config, l, sunk + more) && u.failed.None?
            && u.active == t.active && u.completedUpdates == t.completedUpdates
  {
    AllReceived(t, config, sunk[l.since..], more);
    PlayedTogether(t.active, sunk[l.since..], more);
    assert (sunk + more)[l.since..] == sunk[l.since..] + more;
  }

  /** The events of a turn add to the open rollout and to nothing else. */
  lemma EventsKept(y: Run, config: Config, l: Ledger, n: nat) returns (q: Pool, t: Training)
    requires Joint(y, config) && y.pool.status.Driving? && n <= |y.pool.events|
    requires Holding(y.training, config, l, y.pool.sunk)
    ensures q == Processed(y.pool, n) && Delivers(y.pool, q) && q.policy == t.active
    ensures t == ReceiveAll(y.training, config, q.sunk[|y.pool.sunk|..])
    ensures Steady(t, config) && Holding(t, config, l, q.sunk) && t.failed.None?
    ensures t.completedUpdates == y.training.completedUpdates
  {
    q, t := EventsKeep(y, config, n);
    var more := q.sunk[|y.pool.sunk|..];
    NewArePlayed(y.pool, q);
    NewAreCurrent(y, config, more);
    MoreHeld(y.training, config, l, y.pool.sunk, more);
    assert q.sunk == y.pool.sunk + more;
  }

  lemma NewAreCurrent(y: Run, config: Config, xs: seq<Transition>)
    requires AllCurrent(y.pool, xs) && y.pool.order == config.actors
    requires y.pool.policy == y.training.active
    ensures forall k :: 0 <= k < |xs| ==> Current(y.training, config, xs[k])
  {
  }

  /** A boundary keeps the model, or moves to the next one and opens an empty rollout. */
  lemma SwitchKept(t: Training, config: Config, current: Policy, models: seq<Policy>)
    requires Steady(t, config) && Follows(t, models) && current == t.active
    ensures var u := Switch(t, config, current).0;
            && Follows(u, models) && (u.failed.None? ==> u.output == [])
            && (u.completedUpdates == t.completedUpdates || u.completedUpdates == t.completedUpdates + 1)
            && (u.completedUpdates == t.completedUpdates ==>
                  u.active == t.active && u.collector == t.collector && u.job == t.job)
            && (u.completedUpdates == t.completedUpdates + 1 ==>
                  && u.job.None?
                  && (u.collector.Some? ==>
                        u.collector.value
                        == RolloutSpec.Opened(config.actors, u.active.version, config.length)))
  {
  }

  /** The end of a turn: the ledger notes an update and starts counting anew. */
  lemma EndKept(q: Pool, t: Training, config: Config, l: Ledger, picks: int -> seq<int>)
    requires Steady(t, config) && Holding(t, config, l, q.sunk) && t.active == q.policy
    ensures var (u, boundary) := Switch(t, config, q.policy);
            var r := FinishTurn(q, picks, boundary);
            && Follows(u, l.models) && r.sunk == q.sunk
            && (u.failed.None? ==>
                  && u.output == []
                  && Holding(u, config,
                             l.(since := if t.completedUpdates < u.completedUpdates then |r.sunk|
                                         else l.since), r.sunk))
  {
    var (u, boundary) := Switch(t, config, q.policy);
    SwitchKept(t, config, q.policy, l.models);
    EndingDeliversNothing(q, picks, boundary);
    assert q.sunk[|q.sunk|..] == [];
  }

  lemma TurnKept(y: Run, config: Config, l: Ledger, n: nat, picks: int -> seq<int>)
    requires Joint(y, config) && y.pool.status.Driving? && n <= |y.pool.events| && Kept(y, config, l)
    requires Delivers(y.pool, Processed(y.pool, n))
    ensures var z := Turn(y, config, n, picks);
            Kept(z, config, Entered(l, y, DriveTurns(n, picks), z))
    ensures var q, z := Processed(y.pool, n), Turn(y, config, n, picks);
            !q.status.Raised? && Recorded(q) && z.training.failed.None? ==> z.training.output == []
  {
    var q, t := EventsKept(y, config, l, n);
    EndKept(q, t, config, l, picks);
    EndingDeliversNothing(q, picks, Continue(q.policy));
  }

  lemma OptimizerKept(y: Run, config: Config, l: Ledger, learning: Learning)
    requires Joint(y, config) && y.training.job.Some? && Kept(y, config, l)
    ensures var z := y.(training := Finish(y.training, config, learning));
            Kept(z, config, Entered(l, y, OptimizerEnds(learning), z))
  {
  }

  lemma NextKept(y: Run, config: Config, l: Ledger, act: Act)
    requires Joint(y, config) && Enabled(y, act) && Kept(y, config, l)
    ensures var z := Next(y, config, act); Kept(z, config, Entered(l, y, act, z))
  {
    match act
    case ActorPicksUp(a) =>
    case ActorAnswers(a, response) =>
    case OptimizerEnds(learning) => OptimizerKept(y, config, l, learning);
    case DriveTurns(n, picks) =>
      TurnKeeps(y, config, n, picks);
      TurnKept(y, config, l, n, picks);
  }

  // ---------------------------------------------------------------- whole runs

  ghost function EnteredAll(l: Ledger, y: Run, config: Config, acts: seq<Act>): Ledger
    requires Joint(y, config) && Possible(y, config, acts)
    decreases |acts|
  {
    if acts == [] then l
    else
      var z := Next(y, config, acts[0]);
      NextKeeps(y, config, acts[0]);
      EnteredAll(Entered(l, y, acts[0], z), z, config, acts[1..])
  }

  lemma {:induction false} KeptForever(y: Run, config: Config, l: Ledger, acts: seq<Act>)
    requires Joint(y, config) && Possible(y, config, acts) && Kept(y, config, l)
    ensures Kept(After(y, config, acts), config, EnteredAll(l, y, config, acts))
    decreases |acts|
  {
    if acts != [] {
      var z := Next(y, config, acts[0]);
      NextKeeps(y, config, acts[0]);
      NextKept(y, config, l, acts[0]);
      KeptForever(z, config, Entered(l, y, acts[0], z), acts[1..]);
    }
  }

  /** What the run has learned so far. */
  ghost function LedgerOf(config: Config, first: Policy, acts: seq<Act>): Ledger
    requires GoodConfig(config) && first.version == 0
    requires (StartIsJoint(config, first); Possible(Start(config, first), config, acts))
  {
    StartIsJoint(config, first);
    EnteredAll(Ledger([first], 0), Start(config, first), config, acts)
  }

  lemma ReachedIsKept(config: Config, first: Policy, acts: seq<Act>, y: Run)
    requires Reaches(config, first, acts, y)
    ensures Kept(y, config, LedgerOf(config, first, acts))
  {
    StartIsJoint(config, first);
    assert Start(config, first).pool.sunk == [];
    KeptForever(Start(config, first), config, Ledger([first], 0), acts);
  }

  /** After k updates the active model, which the clients play, is exactly the k-th one learned; and
      nothing learned is waiting but the result in the output queue. */
  lemma ModelsTakeOverInOrder(config: Config, first: Policy, acts: seq<Act>, y: Run)
    requires Reaches(config, first, acts, y)
    ensures var models := LedgerOf(config, first, acts).models;
            && 0 <= y.training.completedUpdates < |models|
            && y.training.active == models[y.training.completedUpdates]
            && (!y.pool.status.Raised? ==> y.pool.policy == models[y.training.completedUpdates])
            && (y.training.failed.None? && y.training.output == [] ==>
                  |models| == y.training.completedUpdates + 1)
  {
    ReachedIsKept(config, first, acts, y);
    ReachedIsJoint(config, first, acts, y);
  }

  lemma LastOneIsActive(y: Run, config: Config, models: seq<Policy>)
    requires Joint(y, config) && Follows(y.training, models)
    requires y.training.failed.None? && y.training.output == []
    ensures models != [] && y.training.active == models[|models| - 1]
    ensures !y.pool.status.Raised? ==> y.pool.policy == models[|models| - 1]
  {
  }

  /** At the next recorded round the model learned last takes over: from then on it is the active one,
      and the one the clients play. */
  lemma LearnedModelTakesOver(
      y: Run, config: Config, l: Ledger, n: nat, picks: int -> seq<int>, z: Run)
    requires Joint(y, config) && Kept(y, config, l) && y.pool.status.Driving? && n <= |y.pool.events|
    requires !Processed(y.pool, n).status.Raised? && Recorded(Processed(y.pool, n))
    requires Delivers(y.pool, Processed(y.pool, n)) && z == Turn(y, config, n, picks)
    requires z.training.failed.None?
    ensures l.models != [] && z.training.active == l.models[|l.models| - 1]
    ensures !z.pool.status.Raised? ==> z.pool.policy == l.models[|l.models| - 1]
  {
    TurnKeeps(y, config, n, picks);
    TurnKept(y, config, l, n, picks);
    LastOneIsActive(z, config, l.models);
  }

  /** Entry t of client i. */
  ghost predicate JudgedBy(policy: Policy, r: RolloutSpec.Prepared, length: nat, t: nat, i: nat)
    requires RolloutTables.Shaped(r, length, |r.actors|) && t < length && i < |r.actors|
  {
    && r.values[t][i] == policy.critic(r.observations[t][i])
    && r.logProbabilities[t][i] == policy.likelihood(r.observations[t][i], r.actions[t][i])
  }

  lemma {:induction false} OnlyPlayed(policy: Policy, xs: seq<Transition>, a: int)
    requires AllPlayedBy(policy, xs)
    ensures AllPlayedBy(policy, RolloutOrder.Only(xs, a))
  {
    if xs != [] {
      OnlyPlayed(policy, xs[..|xs| - 1], a);
    }
  }

  lemma ArrivalsAreJudged(
      policy: Policy, r: RolloutSpec.Prepared, config: Config, arrivals: seq<Transition>, t: nat, i: nat)
    requires t < config.length && i < |r.actors| && AllPlayedBy(policy, arrivals)
    requires RolloutTables.ShowsArrivals(
               r, config.actors, config.length, arrivals, config.gamma, config.gaeLambda)
    ensures JudgedBy(policy, r, config.length, t, i)
  {
    var xs := RolloutOrder.Only(arrivals, r.actors[i]);
    OnlyPlayed(policy, arrivals, r.actors[i]);
    assert RolloutTables.ShowsColumn(r, config.length, i, xs, config.gamma, config.gaeLambda);
    assert RolloutTables.Shows(r, config.length, t, i, xs[t]);
    assert PlayedBy(policy, xs[t]);
  }

  /** The rollout being optimized shows, client by client and step by step, the first transitions
      delivered since the last update, every one of them sampled and valued by the model the
      optimizer starts from. */
  lemma RolloutsAreOnPolicy(
      config: Config, first: Policy, acts: seq<Act>, y: Run, t: nat, i: nat)
    requires Reaches(config, first, acts, y) && y.training.failed.None? && y.training.job.Some?
    requires t < config.length && i < |y.training.job.value.rollout.actors|
    ensures var l, job := LedgerOf(config, first, acts), y.training.job.value;
            && l.models != [] && job.source == l.models[|l.models| - 1]
            && l.since <= |y.pool.sunk|
            && RolloutTables.ShowsArrivals(
                 job.rollout, config.actors, config.length, y.pool.sunk[l.since..], config.gamma,
                 config.gaeLambda)
            && JudgedBy(job.source, job.rollout, config.length, t, i)
  {
    ReachedIsKept(config, first, acts, y);
    ReachedIsJoint(config, first, acts, y);
    var l, job := LedgerOf(config, first, acts), y.training.job.value;
    ArrivalsAreJudged(job.source, job.rollout, config, y.pool.sunk[l.since..], t, i);
  }
}
