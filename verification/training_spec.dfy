/** The trainer around the scheduler: one open rollout or one optimizer at a time, and a policy that
    changes only at round boundaries. The optimizer is a step that may come at any moment. */
module TrainingSpec {
  import opened Common
  import opened Transitions
  import opened PoolSpec
  import RolloutSpec
  import RolloutOrder

  type Collector = RolloutSpec.Collector

  datatype Config = Config(actors: seq<int>, updates: int, length: int, gamma: real, gaeLambda: real)

  /** What the optimizer thread was given. */
  datatype Job = Job(rollout: RolloutSpec.Prepared, source: Policy)

  /** What it puts into its one-slot output queue. */
  datatype Optimization = Optimized(source: int, policy: Policy) | OptimizationFailed

  /** How the computation itself went, the new model being whatever was learned. */
  datatype Learning =
    | Learned(critic: Features -> real, likelihood: (Features, seq<int>) -> real)
    | Diverged

  datatype TrainingError = OptimizerFailed | StalePolicy | BadRollout(error: RolloutSpec.RolloutError)

  /** received, closed and closedDiscards only count: transitions delivered, rollouts closed, and
      what the closed collectors had turned away. */
  datatype Training = Training(
    active: Policy,
    collector: Option<Collector>,
    job: Option<Job>,
    output: seq<Optimization>,
    completedUpdates: int,
    discardedWhileOptimizing: int,
    failed: Option<TrainingError>,
    received: int,
    closed: int,
    closedDiscards: int)

  predicate GoodConfig(config: Config) {
    && config.actors != [] && Distinct(config.actors) && 0 < config.updates
    && 0 < config.length && RolloutSpec.GoodSettings(config.gamma, config.gaeLambda)
  }

  function Begun(config: Config, first: Policy): Training {
    Training(first, Some(RolloutSpec.Opened(config.actors, first.version, config.length)), None, [],
             0, 0, None, 0, 0, 0)
  }

  function Fail(t: Training, error: TrainingError): Training {
    t.(failed := Some(error))
  }

  /** A transition from the scheduler. */
  function Receive(t: Training, config: Config, x: Transition): Training
    requires t.collector.Some? ==> RolloutSpec.Valid(t.collector.value)
  {
    if t.collector.None? then
      t.(received := t.received + 1, discardedWhileOptimizing := t.discardedWhileOptimizing + 1)
    else
      Stored(t.(received := t.received + 1), config, x)
  }

  function Stored(t: Training, config: Config, x: Transition): Training
    requires t.collector.Some? && RolloutSpec.Valid(t.collector.value)
  {
    var added := RolloutSpec.AddResult(t.collector.value, x);
    var c := RolloutSpec.Add(t.collector.value, x);
    RolloutOrder.AddKeepsValid(t.collector.value, x);
    if added.Rejected? then Fail(t, BadRollout(added.error))
    else if !RolloutSpec.Complete(c) then t.(collector := Some(c))
    else Close(t, config, c)
  }

  /** A complete rollout goes to the optimizer together with the policy that produced it. */
  function Close(t: Training, config: Config, c: Collector): Training
    requires RolloutSpec.Valid(c)
  {
    match RolloutSpec.Prepare(c, config.gamma, config.gaeLambda)
    case Failed(error) => Fail(t.(collector := Some(c)), BadRollout(error))
    case Success(rollout) =>
      t.(collector := None, job := Some(Job(rollout, t.active)), closed := t.closed + 1,
         closedDiscards := t.closedDiscards + c.discarded)
  }

  /** What optimize_copy returns or raises. */
  function Optimize(config: Config, job: Job, learning: Learning): Optimization {
    if job.rollout.version != job.source.version then OptimizationFailed
    else if |job.rollout.actors| != |config.actors| then OptimizationFailed
    else match learning
      case Diverged => OptimizationFailed
      case Learned(critic, likelihood) =>
        Optimized(job.source.version, Policy(job.source.version + 1, critic, likelihood))
  }

  /** The optimizer thread ends its work; putting into a full queue blocks it. */
  function Finish(t: Training, config: Config, learning: Learning): Training
    requires t.job.Some?
  {
    if t.output != [] then t
    else t.(job := None, output := [Optimize(config, t.job.value, learning)])
  }

  /** The boundary callback: take a finished optimization, switch, and open the next rollout. */
  function Switch(t: Training, config: Config, current: Policy): (r: (Training, PoolSpec.Boundary)) {
    if t.output == [] then (t, Verdict(t, config))
    else
      var u := t.(output := t.output[1..]);
      match t.output[0]
      case OptimizationFailed => (Fail(u, OptimizerFailed), CallbackRaises)
      case Optimized(source, policy) =>
        if source != current.version then (Fail(u, StalePolicy), CallbackRaises)
        else
          var completed := t.completedUpdates + 1;
          var v := u.(
            active := policy, completedUpdates := completed,
            collector := if completed < config.updates
                         then Some(RolloutSpec.Opened(config.actors, policy.version, config.length))
                         else t.collector);
          (v, Verdict(v, config))
  }

  function Verdict(t: Training, config: Config): PoolSpec.Boundary {
    if t.completedUpdates >= config.updates then Halt(t.active) else Continue(t.active)
  }
}
