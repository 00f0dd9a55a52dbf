/** The trainer's connection object: each call sends one request and loops over received messages
    until the call ends. */
module YRushConnectionClass {
  import opened Common
  import opened Packets
  import opened WireMessages
  import opened ConnectionSpec

  class YRushConnection {
    var sessionId: string
    var playerUuid: string
    var playerName: string
    var clientTick: int
    var currentRound: int
    var currentPolicy: int
    var currentDirection: Option<Direction>
    var currentTargetY: int
    /** The transport: messages not yet received, and requests sent. */
    var inbox: seq<Envelope<ToTrainer>>
    var outbox: seq<Envelope<ToClient>>

    ghost function State(call: Call): Connection
      reads this
    {
      Connection(sessionId, playerUuid, playerName, clientTick, currentRound, currentPolicy,
                 currentDirection, currentTargetY, call)
    }

    constructor (incoming: seq<Envelope<ToTrainer>>)
      ensures State(OPENED.call) == OPENED && inbox == incoming && outbox == []
    {
      sessionId, playerUuid, playerName := "", "", "";
      clientTick, currentRound, currentPolicy, currentTargetY := 0, 0, 0, 0;
      currentDirection := None;
      inbox, outbox := incoming, [];
    }

    method Identify(uuid: string, name: string, tick: int)
      modifies `playerUuid, `playerName, `clientTick
      ensures playerUuid == uuid && playerName == name && clientTick == tick
    {
      playerUuid, playerName, clientTick := uuid, name, tick;
    }

    method TakeGreeting(hello: Option<string>, payload: ToTrainer) returns (call: Call)
      modifies `sessionId, `playerUuid, `playerName, `clientTick
      ensures State(call) == DeliverGreeting(old(State(Greeting(hello))), payload)
    {
      match payload {
        case ConnectionHello(version, session, nonce, tick) =>
          if hello.Some? || version != PROTOCOL_VERSION || session == "" || nonce == "" {
            return Raised(ProtocolState);
          }
          sessionId, clientTick := session, tick;
          return Greeting(Some(session));
        case ConnectionReady(version, session, minecraft, uuid, name, tick) =>
          if hello.None? || version != PROTOCOL_VERSION || session != sessionId
             || minecraft != MINECRAFT_VERSION || uuid == "" || name == "" {
            return Raised(ProtocolState);
          }
          Identify(uuid, name, Max(clientTick, tick));
          return NoCall;
        case _ => return Raised(ProtocolState);
      }
    }

    method EnterRound(round: int, policy: int, ready: EpisodeReady, tick: int)
      modifies `currentRound, `currentPolicy, `currentDirection, `currentTargetY, `clientTick
      ensures currentRound == round && currentPolicy == policy && clientTick == tick
      ensures currentDirection == Some(ready.direction) && currentTargetY == ready.targetY
    {
      currentRound, currentPolicy := round, policy;
      currentDirection, currentTargetY := Some(ready.direction), ready.targetY;
      clientTick := tick;
    }

    method TakeArming(request: Arm, ready: Option<EpisodeReady>, payload: ToTrainer)
      returns (call: Call)
      modifies `currentRound, `currentPolicy, `currentDirection, `currentTargetY, `clientTick
      ensures State(call) == DeliverArming(old(State(ArmCall(request, ready))), payload)
    {
      match payload {
        case EpisodeReadyMessage(candidate) =>
          if ready.Some? || !ReadyMatches(sessionId, candidate, request) {
            return Raised(ProtocolState);
          }
          clientTick := Max(clientTick, candidate.clientTick);
          return ArmCall(request, Some(candidate));
        case ObservationMessage(candidate) =>
          if ready.None? || !ValidObservation(candidate) { return Raised(ProtocolState); }
          if candidate.round < request.round { return ArmCall(request, ready); }
          if !InitialMatches(sessionId, candidate, request) { return Raised(ProtocolState); }
          EnterRound(request.round, request.policy, ready.value, candidate.clientTick);
          return ArmDone(candidate);
        case EpisodeResultMessage(stale) =>
          if !ValidResult(stale) || stale.round >= request.round { return Raised(ProtocolState); }
          return ArmCall(request, ready);
        case _ => return Raised(ProtocolState);
      }
    }

    method TakeStepping(
        action: Action, applied: bool, terminal: Option<Observation>,
        result: Option<EpisodeResult>, payload: ToTrainer) returns (call: Call)
      modifies `clientTick
      ensures State(call)
           == DeliverStepping(old(State(StepCall(action, applied, terminal, result))), payload)
    {
      match payload {
        case ActionAppliedMessage(acknowledgement) =>
          if applied || !AppliedMatches(acknowledgement, action) { return Raised(ProtocolState); }
          clientTick := Max(clientTick, acknowledgement.clientTick);
          return StepCall(action, true, terminal, result);
        case ObservationMessage(observation) =>
          if !ValidObservation(observation)
             || !ObservationMatches(sessionId, observation, action, applied) {
            return Raised(ProtocolState);
          }
          clientTick := observation.clientTick;
          if observation.phase.ObservedActive? {
            if !applied { return Raised(ProtocolState); }
            return StepDone(StepExchange(observation, None, true));
          }
          if result.Some? { return StepDone(StepExchange(observation, result, applied)); }
          return StepCall(action, applied, Some(observation), result);
        case EpisodeResultMessage(candidate) =>
          if !ValidResult(candidate) || !ResultMatches(sessionId, candidate, action, applied) {
            return Raised(ProtocolState);
          }
          if terminal.Some? {
            return StepDone(StepExchange(terminal.value, Some(candidate), applied));
          }
          return StepCall(action, applied, terminal, Some(candidate));
        case _ => return Raised(ProtocolState);
      }
    }

    /** Receives one message and lets the call in progress take it. */
    method Receive(call: Call) returns (next: Call)
      requires Awaiting(State(call))
      modifies this
      ensures outbox == old(outbox)
      ensures old(inbox) == [] ==>
                inbox == [] && State(next) == Raise(old(State(call)), TimedOut)
      ensures old(inbox) != [] ==>
                inbox == old(inbox)[1..] && State(next) == Deliver(old(State(call)), old(inbox)[0])
      ensures Awaiting(State(next)) ==>
                next.Greeting? == call.Greeting? && next.ArmCall? == call.ArmCall?
    {
      if inbox == [] { return Raised(TimedOut); }
      var message := inbox[0];
      inbox := inbox[1..];
      if message.version != PROTOCOL_VERSION { return Raised(ProtocolState); }
      if message.payload.ErrorMessage? || message.payload.ShutdownMessage? {
        return Raised(Infrastructure);
      }
      match call {
        case Greeting(hello) => next := TakeGreeting(hello, message.payload);
        case ArmCall(request, ready) => next := TakeArming(request, ready, message.payload);
        case StepCall(action, applied, terminal, result) =>
          next := TakeStepping(action, applied, terminal, result, message.payload);
      }
    }

    method Handshake() returns (outcome: Call)
      modifies this
      ensures (State(outcome), inbox) == Await(old(State(Greeting(None))), old(inbox))
      ensures outbox == old(outbox)
    {
      outcome := Greeting(None);
      while outcome.Greeting?
        invariant Await(State(outcome), inbox) == Await(old(State(Greeting(None))), old(inbox))
        invariant outcome.Greeting? || !Awaiting(State(outcome))
        invariant outbox == old(outbox)
        decreases outcome.Greeting?, |inbox|
      {
        outcome := Receive(outcome);
      }
    }

    method ArmRound(requestId: int, round: int, policy: int) returns (outcome: Call)
      modifies this
      ensures var request := ArmRequest(old(State(NoCall)), requestId, round, policy);
              && outbox == old(outbox) + [Envelope(PROTOCOL_VERSION, ArmEpisode(request))]
              && (State(outcome), inbox) == Await(old(State(ArmCall(request, None))), old(inbox))
    {
      var request := Arm(PROTOCOL_VERSION, requestId, sessionId, round, policy, clientTick);
      outbox := outbox + [Envelope(PROTOCOL_VERSION, ArmEpisode(request))];
      outcome := ArmCall(request, None);
      while outcome.ArmCall?
        invariant Await(State(outcome), inbox)
               == Await(old(State(ArmCall(request, None))), old(inbox))
        invariant outcome.ArmCall? || !Awaiting(State(outcome))
        invariant outbox == old(outbox) + [Envelope(PROTOCOL_VERSION, ArmEpisode(request))]
        decreases outcome.ArmCall?, |inbox|
      {
        outcome := Receive(outcome);
      }
    }

    method Step(previous: Observation, number: int, choices: seq<int>) returns (outcome: Call)
      modifies this
      ensures !ValidChoices(choices) ==>
                outcome == Raised(BadAction) && State(NoCall) == old(State(NoCall))
                && inbox == old(inbox) && outbox == old(outbox)
      ensures var action := StepRequest(old(State(NoCall)), previous, number, choices);
              ValidChoices(choices) ==>
              && outbox == old(outbox) + [Envelope(PROTOCOL_VERSION, ActionRequest(action))]
              && (State(outcome), inbox)
                 == Await(old(State(StepCall(action, false, None, None))), old(inbox))
    {
      if !ValidChoices(choices) { return Raised(BadAction); }
      var action := Action(
        PROTOCOL_VERSION, sessionId, previous.round, previous.policy, previous.clientTick,
        previous.observation, number, choices);
      outbox := outbox + [Envelope(PROTOCOL_VERSION, ActionRequest(action))];
      outcome := StepCall(action, false, None, None);
      while outcome.StepCall?
        invariant Await(State(outcome), inbox)
               == Await(old(State(StepCall(action, false, None, None))), old(inbox))
        invariant outcome.StepCall? || !Awaiting(State(outcome))
        invariant outbox == old(outbox) + [Envelope(PROTOCOL_VERSION, ActionRequest(action))]
        decreases outcome.StepCall?, |inbox|
      {
        outcome := Receive(outcome);
      }
    }
  }
}
