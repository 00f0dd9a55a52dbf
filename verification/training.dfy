/** The trainer's mutable state: the active policy, the open collector object, and the optimizer's
    one-slot output queue. */
module TrainingClass {
  import opened Common
  import opened Transitions
  import opened PoolSpec
  import opened TrainingSpec
  import opened RolloutClass
  import RolloutSpec

  class Trainer {
    const config: Config
    var active: Policy
    var collector: RolloutCollector?
    var job: Option<Job>
    var optimizerOutput: seq<Optimization>
    var completedUpdates: int
    var discardedWhileOptimizing: int
    var failed: Option<TrainingError>
    ghost var received: int
    ghost var closed: int
    ghost var closedDiscards: int

    ghost function State(): Training
      reads this, collector
    {
      Training(active, if collector == null then None else Some(collector.State()), job,
               optimizerOutput, completedUpdates, discardedWhileOptimizing, failed, received,
               closed, closedDiscards)
    }

    ghost predicate Valid()
      reads this, collector
    {
      GoodConfig(config) && (collector != null ==> RolloutSpec.Valid(collector.State()))
    }

    constructor (settings: Config, first: Policy)
      requires GoodConfig(settings) && 0 <= first.version
      ensures Valid() && config == settings && State() == Begun(settings, first)
      ensures collector != null && fresh(collector)
    {
      config, active := settings, first;
      job, optimizerOutput, failed := None, [], None;
      completedUpdates, discardedWhileOptimizing := 0, 0;
      received, closed, closedDiscards := 0, 0, 0;
      collector := null;
      new;
      OpenCollector();
    }

    /** A new collector for the active policy. */
    method OpenCollector()
      requires GoodConfig(config) && 0 <= active.version
      modifies `collector
      ensures collector != null && fresh(collector) && RolloutSpec.Valid(collector.State())
      ensures collector.State() == RolloutSpec.Opened(config.actors, active.version, config.length)
    {
      var opening := RolloutCollector.Open(config.actors, active.version, config.length);
      collector := opening.value;
    }

    /** The transition sink. */
    method ReceiveTransition(x: Transition)
      requires Valid()
      modifies this, collector
      ensures Valid() && State() == Receive(old(State()), config, x)
      ensures collector == null || collector == old(collector)
    {
      received := received + 1;
      if collector == null {
        discardedWhileOptimizing := discardedWhileOptimizing + 1;
        return;
      }
      ghost var before := collector.State();
      var added := collector.AddTransition(x);
      if added.Rejected? {
        failed := Some(BadRollout(added.error));
        return;
      }
      var complete := collector.IsComplete();
      if complete {
        CloseRollout();
      }
    }

    /** Hands the complete rollout to the optimizer; with these settings preparing cannot fail. */
    method CloseRollout()
      requires Valid() && collector != null && RolloutSpec.Complete(collector.State())
      modifies `closed, `closedDiscards, `collector, `job
      ensures Valid() && collector == null
      ensures State() == Close(old(State()), config, old(collector.State()))
    {
      var prepared := collector.PrepareRollout(config.gamma, config.gaeLambda);
      closed, closedDiscards := closed + 1, closedDiscards + collector.discardedAfterClose;
      job := Some(Job(prepared.value, active));
      collector := null;
    }

    /** The optimizer thread's end: its result goes into the output queue, if there is room. */
    method EndOptimization(learning: Learning)
      requires Valid() && job.Some?
      modifies `job, `optimizerOutput
      ensures Valid() && State() == Finish(old(State()), config, learning)
    {
      if optimizerOutput == [] {
        optimizerOutput := [Optimize(config, job.value, learning)];
        job := None;
      }
    }

    /** The boundary callback. */
    method AtBoundary(current: Policy) returns (verdict: Boundary)
      requires Valid()
      requires optimizerOutput != [] && optimizerOutput[0].Optimized? ==>
                 0 <= optimizerOutput[0].policy.version
      modifies this
      ensures Valid() && (State(), verdict) == Switch(old(State()), config, current)
    {
      if optimizerOutput != [] {
        var optimized := optimizerOutput[0];
        optimizerOutput := optimizerOutput[1..];
        match optimized {
          case OptimizationFailed =>
            failed := Some(OptimizerFailed);
            return CallbackRaises;
          case Optimized(source, policy) =>
            if source != current.version {
              failed := Some(StalePolicy);
              return CallbackRaises;
            }
            active := policy;
            completedUpdates := completedUpdates + 1;
            if completedUpdates < config.updates {
              OpenCollector();
            }
        }
      }
      verdict := if completedUpdates >= config.updates then Halt(active) else Continue(active);
    }
  }
}
