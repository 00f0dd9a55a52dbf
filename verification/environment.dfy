/** The environment object: one connection kept across episodes, dropped when a call fails. */
module YRushEnvClass {
  import opened Common
  import opened Packets
  import opened WireMessages
  import opened ConnectionSpec
  import opened YRushConnectionClass
  import opened EnvironmentSpec

  class YRushEnv {
    const ownsConnection: bool
    var connection: YRushConnection?
    var nextIdentifier: int
    var nextRound: int
    var policyVersion: int
    var observation: Option<Observation>
    var active: bool
    var episodeReturn: real
    var episodeActions: int
    var targetProgress: real
    var targetDirection: Direction

    ghost function State(): Env
      reads this
    {
      Env(nextIdentifier, nextRound, policyVersion, observation, active, episodeReturn,
          episodeActions, targetProgress, targetDirection)
    }

    /** An active episode has its connection and the observation its next action answers. */
    ghost predicate Valid()
      reads this
    {
      active ==> connection != null && observation.Some?
    }

    constructor (identifierBase: int, owns: bool)
      ensures Valid() && connection == null && ownsConnection == owns
      ensures State() == Env(identifierBase, 1, 0, None, false, 0.0, 0, 0.0, Up)
    {
      ownsConnection, connection := owns, null;
      nextIdentifier, nextRound, policyVersion := identifierBase, 1, 0;
      observation, active := None, false;
      episodeReturn, episodeActions, targetProgress := 0.0, 0, 0.0;
      targetDirection := Up;
    }

    /** Ends the episode and drops the connection, if it is this environment's own. */
    method Fail()
      modifies `active, `observation, `connection
      ensures State() == FailEpisode(old(State())) && Valid()
      ensures connection == if ownsConnection then null else old(connection)
    {
      active, observation := false, None;
      if ownsConnection {
        connection := null;
      }
    }

    /** Keeps the connection there is, or opens one that will deliver the given messages. */
    method EnsureConnection(incoming: seq<Envelope<ToTrainer>>) returns (error: Option<WireError>)
      modifies `connection
      ensures old(connection) != null ==> connection == old(connection) && error.None?
      ensures old(connection) == null && error.None? ==> connection != null && fresh(connection)
      ensures error.Some? ==> connection == null
    {
      if connection == null {
        var opening := new YRushConnection(incoming);
        var greeted := opening.Handshake();
        if greeted.Raised? {
          return Some(greeted.error);
        }
        connection := opening;
      }
      return None;
    }

    /** Arms the connection and starts an episode with its first observation. */
    method BeginEpisode(round: int, policy: int) returns (reply: Reply)
      requires connection != null
      modifies this, connection
      ensures (State(), reply)
              == ArmOver(old(State()), old(connection.State(NoCall)), old(connection.inbox), round,
                         policy)
      ensures Valid() && (reply.Begun? ==> InRound(reply.info.observation, round, policy))
      ensures connection == if reply.Begun? || !ownsConnection then old(connection) else null
    {
      ghost var k, arrivals := connection.State(NoCall), connection.inbox;
      ghost var request := ArmRequest(k, nextIdentifier, round, policy);
      CallsStayInTheirRound(
        k, arrivals, request, Action(0, "", 0, 0, 0, 0, 0, []));
      var identifier := nextIdentifier;
      nextIdentifier := nextIdentifier + 1;
      var outcome := connection.ArmRound(identifier, round, policy);
      reply := TakeArmed(outcome);
    }

    /** Starts the episode an arm opened, or fails. */
    method TakeArmed(outcome: Call) returns (reply: Reply)
      requires connection != null
      modifies `observation, `active, `episodeReturn, `episodeActions, `targetProgress
      modifies `targetDirection, `connection
      ensures (State(), reply)
              == Reset(old(State()), outcome, old(connection.currentDirection))
      ensures Valid()
      ensures connection == if reply.Begun? || !ownsConnection then old(connection) else null
    {
      if !outcome.ArmDone? {
        Fail();
        return Refused(Broken(if outcome.Raised? then outcome.error else ProtocolState));
      }
      var direction := connection.currentDirection;
      observation, active := Some(outcome.initial), true;
      episodeReturn, episodeActions, targetProgress := 0.0, 0, 0.0;
      if direction.None? {
        Fail();
        return Refused(Broken(Infrastructure));
      }
      targetDirection := direction.value;
      return Begun(Info(outcome.initial, true, None));
    }

    /** The episode itself, over the connection there is or a newly opened one. */
    method OpenEpisode(round: int, policy: int, incoming: seq<Envelope<ToTrainer>>)
      returns (reply: Reply)
      requires Valid()
      modifies this, connection
      ensures Valid() && nextRound == old(nextRound) && policyVersion == old(policyVersion)
      ensures reply.Begun? ==>
                && InRound(reply.info.observation, round, policy)
                && active && observation == Some(reply.info.observation)
                && episodeReturn == 0.0 && episodeActions == 0 && targetProgress == 0.0
                && nextIdentifier == old(nextIdentifier) + 1
      ensures !reply.Begun? ==> reply.Refused? && reply.error.Broken?
      ensures reply.Refused? && old(connection) != null ==>
                !active && observation.None? && nextIdentifier == old(nextIdentifier) + 1
      ensures reply.Refused? && nextIdentifier == old(nextIdentifier) ==>
                State() == old(State()) && connection == old(connection)
      ensures old(connection) != null ==>
                (State(), reply)
                == ArmOver(old(State()), old(connection.State(NoCall)), old(connection.inbox), round,
                           policy)
    {
      var missing := EnsureConnection(incoming);
      if missing.Some? {
        return Refused(Broken(missing.value));
      }
      reply := BeginEpisode(round, policy);
    }

    /** A reset: bad options change nothing; otherwise the episode is of the round and policy chosen,
        by default the next round and the last policy. */
    method ResetEpisode(round: Option<int>, policy: Option<int>, incoming: seq<Envelope<ToTrainer>>)
      returns (reply: Reply)
      requires Valid()
      modifies this, connection
      ensures Valid()
      ensures var chosen := if round.Some? then round.value else old(nextRound);
              var version := if policy.Some? then policy.value else old(policyVersion);
              && (chosen <= 0 || version < 0 <==> reply == Refused(BadOptions))
              && (reply == Refused(BadOptions) ==>
                    State() == old(State()) && connection == old(connection))
              && (reply != Refused(BadOptions) ==>
                    nextRound == Max(old(nextRound), chosen + 1) && policyVersion == version)
              && (reply.Begun? ==>
                    && InRound(reply.info.observation, chosen, version)
                    && active && observation == Some(reply.info.observation)
                    && episodeReturn == 0.0 && episodeActions == 0 && targetProgress == 0.0
                    && nextIdentifier == old(nextIdentifier) + 1)
              && (reply.Refused? && reply.error.Broken? && old(connection) != null ==>
                    !active && observation.None? && nextIdentifier == old(nextIdentifier) + 1)
              && (reply.Refused? && nextIdentifier == old(nextIdentifier) ==>
                    State() == old(State()).(nextRound := nextRound, policyVersion := policyVersion)
                    && connection == old(connection))
      ensures old(connection) != null ==>
                (State(), reply)
                == ResetOver(old(State()), old(connection.State(NoCall)), old(connection.inbox), round,
                             policy)
    {
      var chosen := if round.Some? then round.value else nextRound;
      var version := if policy.Some? then policy.value else policyVersion;
      if chosen <= 0 || version < 0 {
        return Refused(BadOptions);
      }
      nextRound, policyVersion := Max(nextRound, chosen + 1), version;
      reply := OpenEpisode(chosen, version, incoming);
    }

    /** One step: a bad action or no episode changes nothing; otherwise one exchange over the wire. */
    method StepEpisode(choices: seq<int>) returns (reply: Reply)
      requires Valid()
      modifies this, connection
      ensures Valid()
      ensures !ValidChoices(choices) ==> reply == Refused(BadChoices) && State() == old(State())
      ensures ValidChoices(choices) && !old(active) ==>
                reply == Refused(NoEpisode) && State() == old(State())
      ensures ValidChoices(choices) && old(active) ==>
                && (State(), reply)
                   == StepOver(old(State()), old(connection.State(NoCall)), old(connection.inbox), choices)
                && (reply.Moved? ==>
                      && InRound(reply.info.observation, old(observation.value.round),
                                 old(observation.value.policy))
                      && (active <==> !reply.terminated && !reply.truncated))
                && connection == if reply.Moved? || !ownsConnection then old(connection) else null
    {
      if !ValidChoices(choices) {
        return Refused(BadChoices);
      }
      if !active || observation.None? {
        return Refused(NoEpisode);
      }
      StepsStayInRound(State(), connection.State(NoCall), connection.inbox, choices);
      var previous := observation.value;
      var outcome := connection.Step(previous, previous.number + 1, choices);
      reply := TakeOutcome(previous, outcome);
    }

    method TakeOutcome(previous: Observation, outcome: Call) returns (reply: Reply)
      requires observation == Some(previous)
      modifies `targetProgress, `episodeActions, `episodeReturn, `observation, `active, `connection
      ensures (State(), reply) == Step(old(State()), outcome)
      ensures connection == if reply.Moved? || !ownsConnection then old(connection) else null
    {
      if !outcome.StepDone? {
        Fail();
        return Refused(Broken(if outcome.Raised? then outcome.error else ProtocolState));
      }
      reply := TakeExchange(previous, outcome.exchange);
    }

    method TakeExchange(previous: Observation, x: StepExchange) returns (reply: Reply)
      requires observation == Some(previous)
      modifies `targetProgress, `episodeActions, `episodeReturn, `observation, `active, `connection
      ensures (State(), reply) == Advance(old(State()), x)
      ensures connection == if reply.Moved? || !ownsConnection then old(connection) else null
    {
      var current := x.observation;
      if current.phase.ObservedComplete? && x.result.None? {
        Fail();
        return Refused(Broken(Infrastructure));
      }
      if current.phase.ObservedActive? && x.result.Some? {
        Fail();
        return Refused(Broken(Infrastructure));
      }
      var reward := Reward(previous, current, x.result);
      targetProgress := targetProgress + (Distance(previous) - Distance(current));
      episodeActions := episodeActions + (if x.applied then 1 else 0);
      episodeReturn := episodeReturn + reward;
      observation := Some(current);
      var stopped := x.result.Some? && x.result.value.outcome.Stopped?;
      var terminated := x.result.Some? && !stopped;
      if terminated || stopped {
        active := false;
      }
      return Moved(Info(current, x.applied, x.result), reward, terminated, stopped);
    }
  }
}
