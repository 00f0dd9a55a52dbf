/** One learning sample: what an actor saw, what it did, and what came of it. */
module Transitions {
  type Features = seq<real>

  datatype Transition = Transition(
    actor: int,
    round: int,
    version: int,
    observation: Features,
    action: seq<int>,
    reward: real,
    nextObservation: Features,
    terminated: bool,
    truncated: bool,
    episodeStart: bool,
    logProbability: real,
    value: real,
    nextValue: real)

  predicate Done(x: Transition) {
    x.terminated || x.truncated
  }
}
