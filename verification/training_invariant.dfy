/** The handoff between collecting and optimizing: what every step keeps, and where every
    transition went. */
module TrainingInvariant {
  import opened Common
  import opened Transitions
  import opened PoolSpec
  import opened TrainingSpec
  import RolloutSpec
  import RolloutOrder

  // ---------------------------------------------------------------- counting stored transitions

  function Held(columns: map<int, seq<Transition>>, actors: seq<int>): int {
    if actors == [] then 0
    else (if actors[0] in columns then |columns[actors[0]]| else 0) + Held(columns, actors[1..])
  }

  function Open(t: Training): int {
    if t.collector.None? then 0 else Held(t.collector.value.columns, t.collector.value.actors)
  }

  function TurnedAway(t: Training): int {
    if t.collector.None? then 0 else t.collector.value.discarded
  }

  lemma {:induction false} HeldGrows(
      columns: map<int, seq<Transition>>, actors: seq<int>, x: Transition)
    requires x.actor in columns && Distinct(actors)
    ensures Held(columns[x.actor := columns[x.actor] + [x]], actors)
            == Held(columns, actors) + if x.actor in actors then 1 else 0
  {
    if actors != [] {
      HeldGrows(columns, actors[1..], x);
      assert actors == [actors[0]] + actors[1..];
      if x.actor == actors[0] { assert x.actor !in actors[1..]; }
    }
  }

  lemma {:induction false} HeldWhenFull(
      columns: map<int, seq<Transition>>, actors: seq<int>, length: int)
    requires forall i :: 0 <= i < |actors| ==>
               actors[i] in columns && |columns[actors[i]]| == length
    ensures Held(columns, actors) == |actors| * length
  {
    if actors != [] {
      HeldWhenFull(columns, actors[1..], length);
    }
  }

  lemma {:induction false} HeldWhenEmpty(columns: map<int, seq<Transition>>, actors: seq<int>)
    requires forall a :: a in columns ==> columns[a] == []
    ensures Held(columns, actors) == 0
  {
    if actors != [] {
      HeldWhenEmpty(columns, actors[1..]);
    }
  }

  // ---------------------------------------------------------------- the invariant

  /** The open rollout belongs to the active policy and is not yet full. */
  predicate GoodCollector(t: Training, config: Config, c: Collector) {
    && RolloutSpec.Valid(c) && !RolloutSpec.Complete(c)
    && c.version == t.active.version && c.length == config.length
    && c.actors == RolloutSpec.Sorted(config.actors)
  }

  ghost predicate GoodJob(t: Training, config: Config, job: Job) {
    && job.source == t.active && job.rollout.version == t.active.version
    && |job.rollout.actors| == |config.actors|
  }

  predicate GoodOutput(t: Training, o: Optimization) {
    o.Optimized? ==> o.source == t.active.version && o.policy.version == o.source + 1
  }

  datatype Stage = Collecting | Optimizing | Optimal | Finished | Confused

  /** Which one of the four the trainer is doing. */
  function StageOf(t: Training, config: Config): Stage {
    if t.collector.Some? && t.job.None? && t.output == [] && t.completedUpdates < config.updates then
      Collecting
    else if t.collector.None? && t.job.Some? && t.output == []
            && t.completedUpdates < config.updates then Optimizing
    else if t.collector.None? && t.job.None? && |t.output| == 1
            && t.completedUpdates < config.updates then Optimal
    else if t.collector.None? && t.job.None? && t.output == []
            && t.completedUpdates == config.updates then Finished
    else Confused
  }

  predicate Closed(t: Training, config: Config) {
    t.closed == t.completedUpdates
                + (if StageOf(t, config).Optimizing? || StageOf(t, config).Optimal? then 1 else 0)
  }

  predicate Conserved(t: Training, config: Config) {
    t.received == t.closed * (|config.actors| * config.length) + Open(t) + TurnedAway(t)
                  + t.closedDiscards + t.discardedWhileOptimizing
  }

  ghost predicate Steady(t: Training, config: Config) {
    && t.failed.None? && !StageOf(t, config).Confused?
    && t.active.version == t.completedUpdates && 0 <= t.completedUpdates
    && Closed(t, config)
    && (t.collector.Some? ==> GoodCollector(t, config, t.collector.value))
    && (t.job.Some? ==> GoodJob(t, config, t.job.value))
    && (t.output != [] ==> GoodOutput(t, t.output[0]))
  }

  /** A transition the scheduler may deliver now. */
  predicate Current(t: Training, config: Config, x: Transition) {
    x.actor in config.actors && x.version == t.active.version
  }

  lemma SortedKeeps(actors: seq<int>)
    ensures forall a :: a in RolloutSpec.Sorted(actors) <==> a in actors
    ensures |RolloutSpec.Sorted(actors)| == |actors|
  {
    RolloutOrder.SortedSorts(actors);
    var s := RolloutSpec.Sorted(actors);
    forall a ensures a in s <==> a in actors {
      assert a in s <==> a in multiset(s);
      assert a in actors <==> a in multiset(actors);
    }
    assert |multiset(s)| == |s| && |multiset(actors)| == |actors|;
  }

  lemma OpenedIsGood(config: Config, version: int)
    requires GoodConfig(config) && 0 <= version
    ensures var c := RolloutSpec.Opened(config.actors, version, config.length);
            && RolloutSpec.Valid(c) && !RolloutSpec.Complete(c)
            && Held(c.columns, c.actors) == 0
  {
    RolloutOrder.OpenedIsValid(config.actors, version, config.length);
    var c := RolloutSpec.Opened(config.actors, version, config.length);
    HeldWhenEmpty(c.columns, c.actors);
    assert config.actors[0] in c.columns;
  }

  lemma BegunIsSteady(config: Config, first: Policy)
    requires GoodConfig(config) && first.version == 0
    ensures Steady(Begun(config, first), config) && Conserved(Begun(config, first), config)
  {
    OpenedIsGood(config, 0);
  }

  /** Delivering a transition never fails, and files it under exactly one heading. */
  lemma ReceiveKeeps(t: Training, config: Config, x: Transition)
    requires GoodConfig(config) && Steady(t, config) && Current(t, config, x)
    ensures Steady(Receive(t, config, x), config)
    ensures Receive(t, config, x).active == t.active
    ensures Conserved(t, config) ==> Conserved(Receive(t, config, x), config)
  {
    if t.collector.Some? {
      StoreKeeps(t.(received := t.received + 1), config, x);
    }
  }

  /** An accepted or overflowing transition is one more stored or one more turned away. */
  lemma AddCounts(c: Collector, x: Transition)
    requires RolloutSpec.Valid(c) && x.actor in c.actors && x.version == c.version
    ensures var d := RolloutSpec.Add(c, x);
            && RolloutSpec.Valid(d) && !RolloutSpec.AddResult(c, x).Rejected?
            && d.version == c.version && d.length == c.length && d.actors == c.actors
            && Held(d.columns, d.actors) + d.discarded == Held(c.columns, c.actors) + c.discarded + 1
  {
    assert x.actor in c.columns;
    RolloutOrder.AddKeepsValid(c, x);
    HeldGrows(c.columns, c.actors, x);
  }

  lemma CloseCounts(t: Training, config: Config, d: Collector)
    requires GoodConfig(config) && RolloutSpec.Valid(d) && RolloutSpec.Complete(d)
    requires d.length == config.length && |d.actors| == |config.actors|
    ensures Held(d.columns, d.actors) == |config.actors| * config.length
    ensures var u := Close(t, config, d);
            && u.job.Some? && u.job.value.source == t.active && u.job.value.rollout.version == d.version
            && u.job.value.rollout.actors == d.actors
            && u == t.(collector := None, job := u.job, closed := t.closed + 1,
                       closedDiscards := t.closedDiscards + d.discarded)
  {
    HeldWhenFull(d.columns, d.actors, d.length);
  }

  lemma OneMore(closed: int, size: int)
    ensures (closed + 1) * size == closed * size + size
  {
  }

  lemma StoreKeeps(t: Training, config: Config, x: Transition)
    requires GoodConfig(config) && Steady(t, config) && Current(t, config, x) && t.collector.Some?
    ensures Steady(Stored(t, config, x), config) && Stored(t, config, x).active == t.active
    ensures Conserved(t.(received := t.received - 1), config) ==>
              Conserved(Stored(t, config, x), config)
  {
    var c := t.collector.value;
    var d := RolloutSpec.Add(c, x);
    SortedKeeps(config.actors);
    AddCounts(c, x);
    if RolloutSpec.Complete(d) {
      CloseCounts(t, config, d);
      OneMore(t.closed, |config.actors| * config.length);
      assert Stored(t, config, x) == Close(t, config, d);
    } else {
      assert Stored(t, config, x) == t.(collector := Some(d));
    }
  }

  lemma FinishKeeps(t: Training, config: Config, learning: Learning)
    requires GoodConfig(config) && Steady(t, config) && t.job.Some?
    ensures t.output == []
    ensures Steady(Finish(t, config, learning), config)
    ensures Finish(t, config, learning).active == t.active
    ensures Conserved(t, config) ==> Conserved(Finish(t, config, learning), config)
  {
  }

  /** The boundary never meets a stale version: it fails only if the optimizer did. */
  lemma SwitchKeeps(t: Training, config: Config, current: Policy)
    requires GoodConfig(config) && Steady(t, config) && current == t.active
    ensures var (u, b) := Switch(t, config, current);
            && (b.CallbackRaises? <==> u.failed.Some?)
            && (u.failed.Some? ==> u.failed == Some(OptimizerFailed))
            && (u.failed.None? ==> Steady(u, config))
            && (b.Halt? ==> StageOf(u, config).Finished? && b.last == u.active)
            && (b.Continue? ==> !StageOf(u, config).Finished? && b.next == u.active)
            && (Conserved(t, config) ==> Conserved(u, config))
  {
    OpenedIsGood(config, t.active.version + 1);
  }
}
