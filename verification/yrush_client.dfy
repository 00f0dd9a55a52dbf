/** The Fabric client object: its handlers drive the sequencer and write to the trainer. */
module YRushClientClass {
  import opened Common
  import opened Packets
  import opened WireMessages
  import opened SequencerSpec
  import opened RoundSequencerClass
  import Spec = ClientSpec

  class YRushClient {
    const sequencer: RoundSequencer
    var clientTick: int
    var actionTicksRemaining: int
    var inputs: Spec.Inputs
    var connected: bool
    var greeted: bool
    var crashed: bool
    /** Everything sent to the trainer so far. */
    var outbox: seq<Spec.Message>

    ghost function State(): Spec.Client
      reads this, sequencer
    {
      Spec.Client(sequencer.State(), clientTick, actionTicksRemaining, inputs, connected, greeted,
                  crashed)
    }

    /** The handler moved this client from `before` to h.client and sent exactly h.sent. */
    twostate predicate Did(h: Spec.Handled)
      reads this, sequencer
    {
      State() == h.client && outbox == old(outbox) + h.sent
    }

    constructor ()
      ensures State() == Spec.LAUNCHED && outbox == [] && fresh(sequencer)
    {
      sequencer := new RoundSequencer();
      clientTick, actionTicksRemaining := 0, 0;
      inputs := Spec.NEUTRAL;
      connected, greeted, crashed := false, false, false;
      outbox := [];
    }

    method Send(payload: ToTrainer)
      modifies `outbox
      ensures outbox == old(outbox) + [ToTheTrainer(payload)]
    {
      outbox := outbox + [ToTheTrainer(payload)];
    }

    method ReleaseAll()
      modifies `actionTicksRemaining, `inputs
      ensures State() == Spec.Release(old(State()))
    {
      actionTicksRemaining := 0;
      inputs := Spec.NEUTRAL;
    }

    method ProtocolFailure(code: ErrorCode)
      modifies this, sequencer
      ensures Did(Spec.Failure(old(State()), code))
    {
      ReleaseAll();
      Send(ErrorMessage(code, false, sequencer.activeArm));
      sequencer.Abort();
    }

    /** Starts a session once the trainer is connected; its id is a random UUID, so never blank. */
    method Greet(session: string, nonce: string, uuid: string, name: string)
      requires !Blank(session)
      modifies this, sequencer
      ensures Did(Spec.Greet(old(State()), session, nonce, uuid, name))
    {
      if !connected || greeted { return; }
      var started := sequencer.StartSession(session);
      greeted := true;
      Send(ConnectionHello(PROTOCOL_VERSION, session, nonce, clientTick));
      Send(ConnectionReady(
        PROTOCOL_VERSION, session, MINECRAFT_VERSION, uuid, name, clientTick));
    }

    method Connect(session: string, nonce: string, uuid: string, name: string)
      requires !Blank(session)
      modifies this, sequencer
      ensures Did(Spec.Connect(old(State()), session, nonce, uuid, name))
    {
      if connected { return; }
      connected := true;
      Greet(session, nonce, uuid, name);
    }

    method Join(session: string, nonce: string, uuid: string, name: string)
      requires !Blank(session)
      modifies this, sequencer
      ensures Did(Spec.Join(old(State()), session, nonce, uuid, name))
    {
      ReleaseAll();
      Greet(session, nonce, uuid, name);
    }

    method Disconnect()
      modifies this, sequencer
      ensures Did(Spec.Disconnect(old(State())))
    {
      ReleaseAll();
      sequencer.Abort();
      connected, greeted := false, false;
    }

    method LosePaper()
      modifies this, sequencer
      ensures Did(Spec.LosePaper(old(State())))
    {
      ReleaseAll();
      Send(ErrorMessage(MinecraftDisconnected, true, sequencer.activeArm));
      sequencer.Abort();
      greeted := false;
    }

    method SendObservation(phase: ObservedPhase, feetY: real)
      modifies this, sequencer
      ensures Did(Spec.SendObservation(old(State()), phase, feetY))
    {
      if sequencer.activeArm.None? {
        ProtocolFailure(Internal);
        return;
      }
      var arm := sequencer.activeArm.value;
      var difference := sequencer.targetY as real - feetY;
      sequencer.RecordTargetDistance(Abs(difference));
      Send(ObservationMessage(Observation(
        PROTOCOL_VERSION, sequencer.sessionId, arm.round, arm.policy, clientTick,
        sequencer.observationSequence, sequencer.actionSequence, phase, difference,
        sequencer.activePlayers, sequencer.totalPlayers)));
    }

    method StartEpisode(feetY: real)
      modifies this, sequencer
      ensures Did(Spec.BeginEpisode(old(State()), feetY))
    {
      ReleaseAll();
      if sequencer.activeArm.None? {
        crashed := true;
        return;
      }
      var arm := sequencer.activeArm.value;
      var direction := if sequencer.direction == Some(Up) then Up else Down;
      Send(EpisodeReadyMessage(EpisodeReady(
        PROTOCOL_VERSION, arm.requestId, sequencer.sessionId, arm.round, arm.policy, clientTick,
        direction, sequencer.targetY, sequencer.activePlayers, sequencer.totalPlayers,
        ACTION_HOLD_TICKS)));
      SendObservation(ObservedActive, feetY);
    }

    method FinishEpisode(feetY: real)
      modifies this, sequencer
      ensures Did(Spec.FinishEpisode(old(State()), feetY))
    {
      ReleaseAll();
      SendObservation(ObservedComplete, feetY);
      if sequencer.activeArm.None? {
        crashed := true;
        return;
      }
      var outcome := sequencer.TerminalOutcome();
      match outcome {
        case Fault => crashed := true;
        case Violation(code) => ProtocolFailure(code);
        case Ok(terminal) => SendResult(sequencer.activeArm.value, terminal);
      }
    }

    method SendResult(arm: Arm, outcome: Outcome)
      modifies `outbox
      ensures outbox == old(outbox)
                        + [ToTheTrainer(EpisodeResultMessage(Spec.ResultOf(old(State()), arm, outcome)))]
    {
      var uuid := sequencer.WinnerUuid();
      var elapsed := clientTick - sequencer.roundStartedClientTick;
      Send(EpisodeResultMessage(EpisodeResult(
        PROTOCOL_VERSION, sequencer.sessionId, arm.round, arm.policy, clientTick,
        sequencer.observationSequence, outcome, uuid, sequencer.totalPlayers,
        if elapsed <= 0 then 0.0 else elapsed as real / 20.0,
        if sequencer.bestDistance.Some? then sequencer.bestDistance.value else 0.0)));
    }

    /** None stands for data that decodes to no packet. */
    method ReceiveYRush(data: Option<Packet>, feetY: real)
      modifies this, sequencer
      ensures Did(if data.None? then Spec.Failure(old(State()), InvalidMessage)
                  else Spec.ReceiveYRush(old(State()), data.value, feetY))
    {
      if data.None? {
        ProtocolFailure(InvalidMessage);
        return;
      }
      ReceivePacket(data.value, feetY);
    }

    method ReceivePacket(packet: Packet, feetY: real)
      modifies this, sequencer
      ensures Did(Spec.ReceiveYRush(old(State()), packet, feetY))
    {
      var parseError := ParseError(packet);
      if parseError.Some? {
        ProtocolFailure(parseError.value);
        return;
      }
      var reply := sequencer.Receive(packet, clientTick);
      match reply {
        case Fault => crashed := true;
        case Violation(code) => ProtocolFailure(code);
        case Ok(event) => AnswerEvent(event, packet, feetY);
      }
    }

    /** What an accepted packet makes the client do. */
    method AnswerEvent(event: Event, packet: Packet, feetY: real)
      modifies this, sequencer
      ensures Did(Spec.AfterEvent(old(State()), packet, feetY, event))
    {
      match event {
        case EpisodeStarted => StartEpisode(feetY);
        case PlayerEliminated => FinishEpisode(feetY);
        case RoundCompleted => FinishEpisode(feetY);
        case Cleaned => ReleaseAll();
        case NoEvent => if !packet.playerActive { ReleaseAll(); }
      }
    }

    method ReceiveTrainer(message: Envelope<ToClient>)
      modifies this, sequencer
      ensures Did(Spec.ReceiveTrainer(old(State()), message))
    {
      if message.version != PROTOCOL_VERSION {
        ProtocolFailure(VersionMismatch);
        return;
      }
      match message.payload {
        case ArmEpisode(arm) =>
          ReleaseAll();
          var reply := sequencer.ArmRound(arm);
          if reply.Violation? { ProtocolFailure(reply.code); }
        case ActionRequest(action) =>
          var reply := sequencer.QueueAction(action);
          if reply.Violation? { ProtocolFailure(reply.code); }
        case Shutdown =>
          ReleaseAll();
          sequencer.Abort();
        case NotForClient => ProtocolFailure(InvalidMessage);
      }
    }

    method StartTick()
      modifies this, sequencer
      ensures Did(Spec.StartTick(old(State())))
    {
      clientTick := clientTick + 1;
      var late := sequencer.ActionTimedOut(clientTick);
      if late {
        ProtocolFailure(ActionTimeout);
        return;
      }
      var request := sequencer.BeginAction();
      if request.None? { return; }
      if !ValidChoices(request.value.choices) {
        crashed := true;
        return;
      }
      inputs := Spec.InputsFor(request.value.choices);
      actionTicksRemaining := ACTION_HOLD_TICKS;
    }

    method EndTick(feetY: real)
      modifies this, sequencer
      ensures Did(Spec.EndTick(old(State()), feetY))
    {
      if actionTicksRemaining <= 0 { return; }
      actionTicksRemaining := actionTicksRemaining - 1;
      if actionTicksRemaining == 0 && sequencer.phase == ActionRunning {
        ReleaseAll();
        var reply := sequencer.CompleteAction(clientTick);
        if !reply.Ok? {
          crashed := true;
          return;
        }
        var request := reply.value;
        Send(ActionAppliedMessage(Applied(
          PROTOCOL_VERSION, sequencer.sessionId, request.round, request.policy, clientTick,
          request.observation, request.number, request.choices, ACTION_HOLD_TICKS)));
        SendObservation(ObservedActive, feetY);
      }
    }
  }
}
