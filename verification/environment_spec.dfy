/** One client's environment on values: episodes, rewards and what each step reports. */
module EnvironmentSpec {
  import opened Common
  import opened Packets
  import opened WireMessages
  import opened ConnectionSpec

  datatype Env = Env(
    nextIdentifier: int,
    nextRound: int,
    policyVersion: int,
    observation: Option<Observation>,
    active: bool,
    episodeReturn: real,
    episodeActions: int,
    targetProgress: real,
    direction: Direction)

  datatype EnvError = BadOptions | BadChoices | NoEpisode | Broken(error: WireError)

  datatype Info = Info(observation: Observation, valid: bool, result: Option<EpisodeResult>)

  datatype Reply =
    | Begun(info: Info)
    | Moved(info: Info, reward: real, terminated: bool, truncated: bool)
    | Refused(error: EnvError)

  function Distance(o: Observation): real {
    Abs(o.heightDifference)
  }

  function Clip(x: real): real {
    if x < -1.0 then -1.0 else if x > 1.0 then 1.0 else x
  }

  function TerminalReward(outcome: Outcome): real {
    match outcome
    case Won => 10.0
    case Lost => -1.0
    case Eliminated => -10.0
    case Draw => -2.0
    case Stopped => 0.0
  }

  function Reward(previous: Observation, current: Observation, result: Option<EpisodeResult>): real {
    0.1 * Clip(Distance(previous) - Distance(current)) - 0.001
    + (if result.Some? then TerminalReward(result.value.outcome) else 0.0)
  }

  /** The episode is over and its observation forgotten. */
  function FailEpisode(e: Env): Env {
    e.(active := false, observation := None)
  }

  /** A reset after it, given how the arm ended and the direction the connection learned. */
  function Reset(e: Env, armed: Call, direction: Option<Direction>): (r: (Env, Reply)) {
    match armed
    case ArmDone(o) =>
      var begun := e.(observation := Some(o), active := true, episodeReturn := 0.0,
                      episodeActions := 0, targetProgress := 0.0);
      if direction.None? then (FailEpisode(begun), Refused(Broken(Infrastructure)))
      else (begun.(direction := direction.value), Begun(Info(o, true, None)))
    case Raised(error) => (FailEpisode(e), Refused(Broken(error)))
    case _ => (FailEpisode(e), Refused(Broken(ProtocolState)))
  }

  function Advance(e: Env, x: StepExchange): (r: (Env, Reply))
    requires e.observation.Some?
  {
    var previous, current := e.observation.value, x.observation;
    if current.phase.ObservedComplete? != x.result.Some? then
      (FailEpisode(e), Refused(Broken(Infrastructure)))
    else
      var reward := Reward(previous, current, x.result);
      var stopped := x.result.Some? && x.result.value.outcome.Stopped?;
      (e.(targetProgress := e.targetProgress + (Distance(previous) - Distance(current)),
          episodeActions := e.episodeActions + (if x.applied then 1 else 0),
          episodeReturn := e.episodeReturn + reward,
          observation := Some(current),
          active := e.active && x.result.None?),
       Moved(Info(current, x.applied, x.result), reward, x.result.Some? && !stopped, stopped))
  }

  /** A step after the connection's, given how that ended. */
  function Step(e: Env, stepped: Call): (r: (Env, Reply))
    requires e.observation.Some?
  {
    match stepped
    case StepDone(x) => Advance(e, x)
    case Raised(error) => (FailEpisode(e), Refused(Broken(error)))
    case _ => (FailEpisode(e), Refused(Broken(ProtocolState)))
  }

  // ---------------------------------------------------------------- calls over a connection

  /** One arm with the next identifier, whatever the messages that arrive make of it. */
  function ArmOver(e: Env, k: Connection, inbox: seq<Envelope<ToTrainer>>, round: int, policy: int)
    : (r: (Env, Reply))
  {
    var request := ArmRequest(k, e.nextIdentifier, round, policy);
    var armed := Await(k.(call := ArmCall(request, None)), inbox).0;
    Reset(e.(nextIdentifier := e.nextIdentifier + 1), armed.call, armed.direction)
  }

  /** A reset over an open connection: of the round and policy given, or of the next round and the last
      policy. */
  function ResetOver(
      e: Env, k: Connection, inbox: seq<Envelope<ToTrainer>>, round: Option<int>, policy: Option<int>)
    : (r: (Env, Reply))
  {
    var chosen := if round.Some? then round.value else e.nextRound;
    var version := if policy.Some? then policy.value else e.policyVersion;
    if chosen <= 0 || version < 0 then (e, Refused(BadOptions))
    else ArmOver(e.(nextRound := Max(e.nextRound, chosen + 1), policyVersion := version), k, inbox,
                 chosen, version)
  }

  function StepOver(e: Env, k: Connection, inbox: seq<Envelope<ToTrainer>>, choices: seq<int>)
    : (r: (Env, Reply))
  {
    if !ValidChoices(choices) then (e, Refused(BadChoices))
    else if !e.active || e.observation.None? then (e, Refused(NoEpisode))
    else
      var previous := e.observation.value;
      var action := StepRequest(k, previous, previous.number + 1, choices);
      Step(e, Await(k.(call := StepCall(action, false, None, None)), inbox).0.call)
  }

  // ---------------------------------------------------------------- what the wire guarantees

  /** Messages only ever move a call forward within its own request. */
  predicate SameRequest(call: Call, request: Arm, action: Action) {
    match call
    case ArmCall(r, _) => r == request
    case StepCall(a, _, terminal, result) =>
      && a == action
      && (terminal.Some? ==> terminal.value.phase.ObservedComplete?
                             && InRound(terminal.value, action.round, action.policy))
    case ArmDone(o) => InRound(o, request.round, request.policy) && o.phase.ObservedActive?
    case StepDone(x) =>
      && InRound(x.observation, action.round, action.policy)
      && (x.observation.phase.ObservedComplete? <==> x.result.Some?)
    case _ => true
  }

  predicate InRound(o: Observation, round: int, policy: int) {
    o.round == round && o.policy == policy
  }

  lemma DeliverKeepsRequest(k: Connection, m: Envelope<ToTrainer>, request: Arm, action: Action)
    requires Awaiting(k) && SameRequest(k.call, request, action)
    ensures SameRequest(Deliver(k, m).call, request, action)
  {
  }

  lemma {:induction false} AwaitKeepsRequest(
      k: Connection, inbox: seq<Envelope<ToTrainer>>, request: Arm, action: Action)
    requires SameRequest(k.call, request, action)
    ensures SameRequest(Await(k, inbox).0.call, request, action)
    decreases |inbox|
  {
    if Awaiting(k) && inbox != [] {
      DeliverKeepsRequest(k, inbox[0], request, action);
      AwaitKeepsRequest(Deliver(k, inbox[0]), inbox[1..], request, action);
    }
  }

  /** Whatever the client sends, an arm that returns does so in the round and for the policy it was
      asked for, and a step that returns stays in its predecessor's. */
  lemma CallsStayInTheirRound(
      k: Connection, inbox: seq<Envelope<ToTrainer>>, request: Arm, action: Action)
    ensures var armed := Await(k.(call := ArmCall(request, None)), inbox).0.call;
            armed.ArmDone? ==> InRound(armed.initial, request.round, request.policy)
    ensures var stepped := Await(k.(call := StepCall(action, false, None, None)), inbox).0.call;
            stepped.StepDone? ==>
              InRound(stepped.exchange.observation, action.round, action.policy)
              && (stepped.exchange.observation.phase.ObservedComplete?
                  <==> stepped.exchange.result.Some?)
  {
    AwaitKeepsRequest(k.(call := ArmCall(request, None)), inbox, request, action);
    AwaitKeepsRequest(k.(call := StepCall(action, false, None, None)), inbox, request, action);
  }

  lemma StepMoves(e: Env, stepped: Call)
    requires e.observation.Some?
    ensures var (next, reply) := Step(e, stepped);
            reply.Moved? ==>
              && stepped.StepDone? && reply.info.observation == stepped.exchange.observation
              && next.observation == Some(reply.info.observation)
              && (next.active <==> e.active && !reply.terminated && !reply.truncated)
  {
  }

  /** A step that moves stays in its round, and its episode goes on unless the reply ends it. */
  lemma StepsStayInRound(e: Env, k: Connection, inbox: seq<Envelope<ToTrainer>>, choices: seq<int>)
    ensures var (next, reply) := StepOver(e, k, inbox, choices);
            reply.Moved? ==>
              && e.active && e.observation.Some?
              && InRound(reply.info.observation, e.observation.value.round, e.observation.value.policy)
              && next.observation == Some(reply.info.observation)
              && (next.active <==> !reply.terminated && !reply.truncated)
  {
    if ValidChoices(choices) && e.active && e.observation.Some? {
      var previous := e.observation.value;
      var action := StepRequest(k, previous, previous.number + 1, choices);
      var stepped := Await(k.(call := StepCall(action, false, None, None)), inbox).0.call;
      assert StepOver(e, k, inbox, choices) == Step(e, stepped);
      CallsStayInTheirRound(k, inbox, Arm(0, 0, "", 0, 0, 0), action);
      StepMoves(e, stepped);
    }
  }

  // ---------------------------------------------------------------- episodes

  /** The environment after a run of exchanges. */
  function Played(e: Env, xs: seq<StepExchange>): Env
    requires e.observation.Some?
    requires forall k :: 0 <= k < |xs| ==>
               (xs[k].observation.phase.ObservedComplete? <==> xs[k].result.Some?)
    decreases |xs|
  {
    if xs == [] then e else Played(Advance(e, xs[0]).0, xs[1..])
  }

  function Last(first: Observation, xs: seq<StepExchange>): Observation {
    if xs == [] then first else xs[|xs| - 1].observation
  }

  function Applications(xs: seq<StepExchange>): int {
    if xs == [] then 0 else (if xs[0].applied then 1 else 0) + Applications(xs[1..])
  }

  function Rewards(first: Observation, xs: seq<StepExchange>): real
    decreases |xs|
  {
    if xs == [] then 0.0
    else Reward(first, xs[0].observation, xs[0].result) + Rewards(xs[0].observation, xs[1..])
  }

  /** Over any run of exchanges the progress reported telescopes to the distance gained, the return
      is the sum of the rewards, and the action count is the number acknowledged. */
  lemma {:induction false} EpisodeSums(e: Env, xs: seq<StepExchange>)
    requires e.observation.Some?
    requires forall k :: 0 <= k < |xs| ==>
               (xs[k].observation.phase.ObservedComplete? <==> xs[k].result.Some?)
    ensures var first, end := e.observation.value, Played(e, xs);
            && end.observation == Some(Last(first, xs))
            && end.targetProgress == e.targetProgress + Distance(first) - Distance(Last(first, xs))
            && end.episodeReturn == e.episodeReturn + Rewards(first, xs)
            && end.episodeActions == e.episodeActions + Applications(xs)
    decreases |xs|
  {
    if xs != [] {
      var next, rest := Advance(e, xs[0]).0, xs[1..];
      assert forall k :: 0 <= k < |rest| ==> rest[k] == xs[k + 1];
      EpisodeSums(next, rest);
    }
  }

  /** A step that ends nothing earns a tenth of a point per block it came closer, at most one block
      counting either way, less a thousandth; an ending adds its own amount. */
  lemma RewardIsProgress(p: Observation, c: Observation, r: EpisodeResult)
    ensures var gained := Abs(p.heightDifference) - Abs(c.heightDifference);
            && (-1.0 <= gained <= 1.0 ==> Reward(p, c, None) == 0.1 * gained - 0.001)
            && (gained > 1.0 ==> Reward(p, c, None) == 0.099)
            && (gained < -1.0 ==> Reward(p, c, None) == -0.101)
    ensures Reward(p, c, Some(r)) - Reward(p, c, None)
            == match r.outcome
               case Won => 10.0
               case Stopped => 0.0
               case Lost => -1.0
               case Draw => -2.0
               case Eliminated => -10.0
  {
  }

  /** Coming closer to the target never earns less. */
  lemma CloserEarnsMore(
      p: Observation, near: Observation, far: Observation, result: Option<EpisodeResult>)
    requires Abs(near.heightDifference) <= Abs(far.heightDifference)
    ensures Reward(p, near, result) >= Reward(p, far, result)
  {
  }

  /** Winning is best, then being stopped, losing, drawing and being eliminated. */
  function Rank(outcome: Outcome): int {
    match outcome
    case Won => 5
    case Stopped => 4
    case Lost => 3
    case Draw => 2
    case Eliminated => 1
  }

  /** No move outweighs the ending: a better ending earns more whatever the last moves were, and a step
      that ends nothing earns at most 0.099 and costs at most 0.101. */
  lemma EndingsDominate(
      p: Observation, c: Observation, r: EpisodeResult, p': Observation, c': Observation,
      r': EpisodeResult)
    requires Rank(r.outcome) > Rank(r'.outcome)
    ensures Reward(p, c, Some(r)) > Reward(p', c', Some(r'))
    ensures -0.101 <= Reward(p, c, None) <= 0.099
  {
  }

  function Endings(xs: seq<StepExchange>): real {
    if xs == [] then 0.0
    else (if xs[0].result.Some? then TerminalReward(xs[0].result.value.outcome) else 0.0) + Endings(xs[1..])
  }

  /** Every step moves by one block of height at most. */
  predicate SmallSteps(first: Observation, xs: seq<StepExchange>)
    decreases |xs|
  {
    xs != [] ==>
      && -1.0 <= Abs(first.heightDifference) - Abs(xs[0].observation.heightDifference) <= 1.0
      && SmallSteps(xs[0].observation, xs[1..])
  }

  /** Over any run of small steps the rewards add up to a tenth of the distance gained, less a
      thousandth for every step, and the amounts of the endings: only the way's two ends matter. */
  lemma {:induction false} RewardsTelescope(first: Observation, xs: seq<StepExchange>)
    requires SmallSteps(first, xs)
    ensures Rewards(first, xs)
            == 0.1 * (Abs(first.heightDifference) - Abs(Last(first, xs).heightDifference))
               - 0.001 * |xs| as real + Endings(xs)
    decreases |xs|
  {
    if xs != [] {
      RewardsTelescope(xs[0].observation, xs[1..]);
    }
  }

  /** A step's reply hands on its exchange: the observation, whether its action was acknowledged, the
      result, and whether that ends the episode or, being a stop, cuts it short. */
  lemma StepHandsOn(e: Env, x: StepExchange)
    requires e.observation.Some? && (x.observation.phase.ObservedComplete? <==> x.result.Some?)
    ensures var (next, reply) := Advance(e, x);
            && reply.Moved? && reply.info == Info(x.observation, x.applied, x.result)
            && next.observation == Some(x.observation)
            && (reply.truncated <==> x.result.Some? && x.result.value.outcome == Stopped)
            && (reply.terminated <==> x.result.Some? && x.result.value.outcome != Stopped)
            && (next.active <==> e.active && !reply.terminated && !reply.truncated)
            && reply.reward == Reward(e.observation.value, x.observation, x.result)
  {
  }

  /** A reset that succeeds shows the armed observation, forgets the last episode's totals and keeps the
      direction announced; any other drops the episode. */
  lemma ResetHandsOn(e: Env, armed: Call, direction: Option<Direction>)
    ensures var (next, reply) := Reset(e, armed, direction);
            && (reply.Begun? <==> armed.ArmDone? && direction.Some?)
            && (reply.Begun? ==>
                  && reply.info == Info(armed.initial, true, None)
                  && next.active && next.observation == Some(armed.initial)
                  && next.episodeReturn == 0.0 && next.targetProgress == 0.0
                  && next.episodeActions == 0 && Some(next.direction) == direction)
            && (!reply.Begun? ==> reply.Refused? && !next.active && next.observation.None?)
            && next.nextRound == e.nextRound && next.policyVersion == e.policyVersion
            && next.nextIdentifier == e.nextIdentifier
  {
  }
}
