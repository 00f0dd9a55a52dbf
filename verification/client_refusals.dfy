/** Exactly which arms, actions and packets a client refuses, and with which error. */
module ClientRefusals {
  import opened Common
  import opened Packets
  import opened WireMessages
  import opened SequencerSpec
  import opened ClientSpec
  import opened ClientInvariants

  /** What a packet must say to be acted on: in a round everything about it and nothing of its end, at
      its end how it ended, and outside one that nobody plays. */
  lemma PacketsParse(p: Packet)
    ensures Parsed(p) <==>
              && p.schemaVersion == 1
              && match p.phase
                 case Inactive => !p.roundActive && !p.playerActive
                 case RoundComplete =>
                   && !p.roundActive && !p.playerActive && p.result.Some? && p.playerOutcome.Some?
                   && (if p.result.value.VerdictWin? then
                         p.winnerUuid.Some?
                         && exists k :: 0 <= k < |p.winnerUuid.value|
                                        && p.winnerUuid.value[k] !in {' ', '\t', '\n', '\r'}
                       else p.winnerUuid.None?)
                 case _ =>
                   && p.roundActive && p.direction.Some? && p.targetY.Some?
                   && p.activePlayers.Some? && 0 <= p.activePlayers.value
                   && p.totalPlayers.Some? && 1 <= p.totalPlayers.value
                   && p.activePlayers.value <= p.totalPlayers.value
                   && p.secondsRemaining.Some? && 0 <= p.secondsRemaining.value
                   && p.result.None? && p.playerOutcome.None? && p.winnerUuid.None?
  {
  }

  /** An arm for the future: of this session, identified, and of a round beyond every earlier one. */
  predicate Timely(s: Sequencer, arm: Arm) {
    && arm.version == PROTOCOL_VERSION && arm.session == s.session
    && arm.requestId != 0 && arm.round != 0
    && (s.active.Some? ==> s.active.value.round < arm.round)
    && (s.active.None? && s.completed.Some? ==> s.completed.value.round < arm.round)
    && (s.active.None? && s.completed.None? ==> 0 < arm.round)
  }

  /** Between episodes with nothing pending a timely arm is accepted; a pending one may be repeated;
      and every refusal names a reason that holds. */
  lemma ArmsAreJudged(s: Sequencer, arm: Arm)
    requires SequencerInvariant(s)
    ensures var reply := ArmNext(s, arm).reply;
            && (reply == Ok(Accepted) <==> Timely(s, arm) && s.pending.None? && !Live(s))
            && (reply == Ok(Idempotent) ==> s.pending == Some(arm))
            && (s.pending == Some(arm) && arm.version == PROTOCOL_VERSION && arm.requestId != 0 ==>
                  reply == Ok(Idempotent))
            && (reply.Violation? ==>
                  match reply.code
                  case VersionMismatch => arm.version != PROTOCOL_VERSION
                  case InvalidMessage => arm.requestId == 0 || arm.round == 0
                  case StaleRequest =>
                    || arm.session != s.session
                    || (s.pending.Some?
                        && (arm.requestId <= s.pending.value.requestId
                            || arm.round <= s.pending.value.round))
                  case StaleRound => s.pending.None? && !Timely(s, arm)
                  case SequenceViolation =>
                    || Live(s)
                    || (s.pending.Some? && s.pending.value.requestId < arm.requestId
                        && s.pending.value.round < arm.round)
                  case _ => false)
  {
  }

  /** The action the client waits for: the next of the live episode, which holds none. */
  predicate Awaited(s: Sequencer, a: Action) {
    Live(s) && Held(s).None? && NextFor(s, a)
  }

  /** An action is accepted if and only if it is the awaited one, or the spare one of the episode that
      ended last; and every refusal names a reason that holds. */
  lemma ActionsAreJudged(s: Sequencer, a: Action)
    requires SequencerInvariant(s)
    ensures var reply := QueueAction(s, a).reply;
            && (reply.Ok? <==>
                  a.version == PROTOCOL_VERSION && (Awaited(s, a) || SpareFor(s, a)))
            && (reply.Violation? ==>
                  match reply.code
                  case VersionMismatch => a.version != PROTOCOL_VERSION
                  case StaleRequest => a.session != s.session
                  case InvalidMessage => !ValidChoices(a.choices)
                  case StaleRound =>
                    (s.active.Some? ==> a.round != s.active.value.round
                                        || a.policy != s.active.value.policy)
                  case SequenceViolation => !Awaited(s, a) && !SpareFor(s, a)
                  case _ => false)
  {
  }

  /** A packet that breaks the order of a round: INACTIVE in the middle of an episode, a countdown after
      the round began, a start without the player, or a second ending other than an elimination. */
  predicate OutOfOrder(s: Sequencer, p: Packet) {
    match p.phase
    case Inactive => Live(s)
    case LockedCountdown =>
      LatestPhase(s) == Some(Active) || LatestPhase(s) == Some(RoundComplete)
    case Active =>
      && s.active.None? && s.pending.Some? && !s.skipUntilInactive && s.countdownSeen
      && LatestPhase(s) == Some(LockedCountdown) && !p.playerActive
    case RoundComplete =>
      s.active.Some? && s.terminalReported && p.playerOutcome != Some(Eliminated)
  }

  /** A complete packet is refused if and only if it is out of order, and always as that. */
  lemma PacketsAreJudged(s: Sequencer, p: Packet, tick: int)
    requires SequencerInvariant(s) && Parsed(p) && !MissingCounts(p)
    ensures var reply := Receive(s, p, tick).reply;
            && (reply == Violation(RoundOrdering) <==> OutOfOrder(s, p))
            && (reply.Ok? <==> !OutOfOrder(s, p))
  {
    ReceiveKeeps(s, p, tick);
  }

  /** The reply says what the packet did: it starts the pending episode after its countdown, ends the
      live one, cleans up after an ended or completed round, or does none of these. */
  predicate TrueEvent(s: Sequencer, p: Packet, reply: Reply<Event>) {
    && (reply == Ok(EpisodeStarted) <==>
          && p.phase.Active? && p.playerActive && s.active.None? && s.pending.Some?
          && !s.skipUntilInactive && s.countdownSeen && LatestPhase(s) == Some(LockedCountdown))
    && (reply == Ok(PlayerEliminated) <==> Live(s) && p.phase.Active? && !p.playerActive)
    && (reply == Ok(RoundCompleted) <==> Live(s) && p.phase.RoundComplete?)
    && (reply == Ok(Cleaned) <==>
          && p.phase.Inactive? && !Live(s)
          && (s.terminalReported || LatestPhase(s) == Some(RoundComplete)))
  }

  lemma InactiveIsTrue(s: Sequencer, p: Packet, tick: int)
    requires SequencerInvariant(s) && Parsed(p) && !MissingCounts(p) && p.phase.Inactive?
    ensures TrueEvent(s, p, Receive(s, p, tick).reply)
  {
  }

  lemma CountdownIsTrue(s: Sequencer, p: Packet, tick: int)
    requires SequencerInvariant(s) && Parsed(p) && !MissingCounts(p) && p.phase.LockedCountdown?
    ensures TrueEvent(s, p, Receive(s, p, tick).reply)
  {
  }

  lemma ActiveIsTrue(s: Sequencer, p: Packet, tick: int)
    requires SequencerInvariant(s) && Parsed(p) && !MissingCounts(p) && p.phase.Active?
    ensures TrueEvent(s, p, Receive(s, p, tick).reply)
  {
  }

  lemma CompleteIsTrue(s: Sequencer, p: Packet, tick: int)
    requires SequencerInvariant(s) && Parsed(p) && !MissingCounts(p) && p.phase.RoundComplete?
    ensures TrueEvent(s, p, Receive(s, p, tick).reply)
  {
  }

  lemma EventsAreTrue(s: Sequencer, p: Packet, tick: int)
    requires SequencerInvariant(s) && Parsed(p) && !MissingCounts(p)
    ensures TrueEvent(s, p, Receive(s, p, tick).reply)
  {
    match p.phase
    case Inactive => InactiveIsTrue(s, p, tick);
    case LockedCountdown => CountdownIsTrue(s, p, tick);
    case Active => ActiveIsTrue(s, p, tick);
    case RoundComplete => CompleteIsTrue(s, p, tick);
  }

  /** How a client fails: one error about the episode it was in; its controls are released, its arms
      and actions forgotten. Only when the player leaves the game can the trainer try again. */
  predicate FailsWith(c: Client, h: Handled, code: ErrorCode) {
    && h.sent == [ToTheTrainer(ErrorMessage(code, code == MinecraftDisconnected, c.sequencer.active))]
    && h.client.inputs == NEUTRAL && h.client.holdTicks == 0
    && h.client.sequencer.pending.None? && h.client.sequencer.active.None?
    && h.client.sequencer.completed.None? && Held(h.client.sequencer).None?
    && h.client.sequencer.phase == Aborted && h.client.crashed == c.crashed
  }

  /** A packet makes the client fail if and only if it does not parse or is out of order; with the
      parser's error or as an ordering violation. */
  lemma PacketsFailClients(c: Client, p: Packet, feetY: real)
    requires ClientInvariant(c) && !c.crashed && !Poison(FromServer(p, feetY))
    ensures var h := ReceiveYRush(c, p, feetY);
            && (p.schemaVersion != 1 ==> FailsWith(c, h, VersionMismatch))
            && (p.schemaVersion == 1 && !Parsed(p) ==> FailsWith(c, h, InvalidMessage))
            && (Parsed(p) && OutOfOrder(c.sequencer, p) ==> FailsWith(c, h, RoundOrdering))
            && (Parsed(p) && !OutOfOrder(c.sequencer, p) ==>
                  forall k :: 0 <= k < |h.sent| ==> !h.sent[k].payload.ErrorMessage?)
  {
    if Parsed(p) {
      var step := Receive(c.sequencer, p, c.tick);
      ReceiveKeeps(c.sequencer, p, c.tick);
      PacketsAreJudged(c.sequencer, p, c.tick);
      if step.reply.Ok? {
        AcceptedSendNoError(c, p, feetY, step);
      } else {
        assert step.next.active == c.sequencer.active;
      }
    }
  }

  lemma AcceptedSendNoError(c: Client, p: Packet, feetY: real, step: Step<Event>)
    requires ClientInvariant(c) && GoodReceive(c.sequencer, p, c.tick, step) && step.reply.Ok?
    ensures var sent := AfterPacket(c, p, feetY, step).sent;
            forall k :: 0 <= k < |sent| ==> !sent[k].payload.ErrorMessage?
  {
    var d := c.(sequencer := step.next);
    match step.reply.value
    case EpisodeStarted => BeginEpisodeEffect(d, feetY);
    case PlayerEliminated => FinishEpisodeEffect(d, feetY);
    case RoundCompleted => FinishEpisodeEffect(d, feetY);
    case Cleaned =>
    case NoEvent =>
  }

  /** A message of the trainer makes the client fail if and only if it has the wrong version, is none
      for a client, or asks for an arm or action that is refused. */
  lemma RequestsFailClients(c: Client, m: Envelope<ToClient>)
    requires ClientInvariant(c) && !c.crashed && c.connected
    ensures var h := ReceiveTrainer(c, m);
            if m.version != PROTOCOL_VERSION then FailsWith(c, h, VersionMismatch)
            else match m.payload
              case ArmEpisode(arm) =>
                var reply := ArmNext(c.sequencer, arm).reply;
                if reply.Violation? then FailsWith(c, h, reply.code) else h.sent == []
              case ActionRequest(a) =>
                var reply := QueueAction(c.sequencer, a).reply;
                if reply.Violation? then FailsWith(c, h, reply.code) else h.sent == []
              case NotForClient => FailsWith(c, h, InvalidMessage)
              case Shutdown =>
                && h.sent == [] && h.client.inputs == NEUTRAL && h.client.sequencer.active.None?
                && h.client.sequencer.pending.None? && Held(h.client.sequencer).None?
  {
    match m.payload
    case ArmEpisode(arm) => ArmKeeps(c.sequencer, arm);
    case ActionRequest(a) => QueueKeeps(c.sequencer, a);
    case Shutdown =>
    case NotForClient =>
  }

  /** A player who leaves the game makes the client fail, and it greets the trainer anew when the player
      is back. */
  lemma LeavingFailsClients(c: Client, session: string, nonce: string, uuid: string, name: string)
    requires ClientInvariant(c) && !c.crashed && c.connected
    ensures var h := Handle(c, PaperDisconnected);
            var back := Handle(h.client, PaperJoined(session, nonce, uuid, name));
            && FailsWith(c, h, MinecraftDisconnected) && !h.client.greeted
            && back.client.greeted && |back.sent| == 2
            && back.sent[0].payload == ConnectionHello(PROTOCOL_VERSION, session, nonce, c.tick)
            && back.client.sequencer.session == session
            && !back.client.sequencer.skipUntilInactive && !back.client.sequencer.countdownSeen
            && back.client.sequencer.phase == Idle
  {
  }

  /** A trainer that connects before the player is in the game is greeted when it is. */
  lemma EarlyTrainersAreGreeted(c: Client, session: string, nonce: string, uuid: string, name: string)
    requires ClientInvariant(c) && !c.crashed && !c.connected
    ensures var early := Handle(c, TrainerConnectedEarly);
            var joined := Handle(early.client, PaperJoined(session, nonce, uuid, name));
            && early.sent == [] && !early.client.greeted
            && joined.client.greeted && |joined.sent| == 2
            && joined.sent[1].payload
               == ConnectionReady(PROTOCOL_VERSION, session, MINECRAFT_VERSION, uuid, name, c.tick)
  {
  }
}
