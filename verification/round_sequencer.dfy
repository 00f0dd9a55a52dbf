/** The client's sequencer object, updated in place as arms, packets and actions arrive. */
module RoundSequencerClass {
  import opened Common
  import opened Packets
  import opened WireMessages
  import opened SequencerSpec

  class RoundSequencer {
    var sessionId: string
    var pendingArm: Option<Arm>
    var activeArm: Option<Arm>
    var completedArm: Option<Arm>
    var queuedAction: Option<Action>
    var runningAction: Option<Action>
    var latestPacket: Option<Packet>
    var direction: Option<Direction>
    var targetY: int
    var activePlayers: int
    var totalPlayers: int
    var observationSequence: int
    var actionSequence: int
    var observationClientTick: int
    var roundStartedClientTick: int
    var completedObservationSequence: int
    var completedActionSequence: int
    var bestDistance: Option<real>
    var countdownSeen: bool
    var skipPendingUntilInactive: bool
    var terminalReported: bool
    var terminalRaceActionConsumed: bool
    var phase: Phase

    /** The value this object stands for. A method whose `modifies` names single fields leaves
        every other field alone. */
    ghost function State(): Sequencer
      reads this
    {
      Sequencer(
        sessionId, pendingArm, activeArm, completedArm, queuedAction, runningAction, latestPacket,
        direction, targetY, activePlayers, totalPlayers, observationSequence, actionSequence,
        observationClientTick, roundStartedClientTick, completedObservationSequence,
        completedActionSequence, bestDistance, countdownSeen, skipPendingUntilInactive,
        terminalReported, terminalRaceActionConsumed, phase)
    }

    constructor ()
      ensures State() == INITIAL
    {
      sessionId := "";
      pendingArm, activeArm, completedArm := None, None, None;
      queuedAction, runningAction := None, None;
      latestPacket, direction, bestDistance := None, None, None;
      targetY, activePlayers, totalPlayers := 0, 0, 0;
      observationSequence, actionSequence := 0, 0;
      observationClientTick, roundStartedClientTick := 0, 0;
      completedObservationSequence, completedActionSequence := 0, 0;
      countdownSeen, skipPendingUntilInactive := false, false;
      terminalReported, terminalRaceActionConsumed := false, false;
      phase := Idle;
    }

    /** Forgets every arm and action. */
    method DropWork()
      modifies `pendingArm, `activeArm, `completedArm, `queuedAction, `runningAction
      ensures pendingArm == activeArm == completedArm == None
      ensures queuedAction == runningAction == None
    {
      pendingArm, activeArm, completedArm := None, None, None;
      queuedAction, runningAction := None, None;
    }

    method ResetSession(newSessionId: string)
      modifies `sessionId, `observationSequence, `actionSequence, `terminalReported, `phase
      modifies `terminalRaceActionConsumed, `countdownSeen, `skipPendingUntilInactive
      modifies `pendingArm, `activeArm, `completedArm, `queuedAction, `runningAction
      ensures pendingArm == activeArm == completedArm == None
      ensures queuedAction == runningAction == None
      ensures sessionId == newSessionId && observationSequence == actionSequence == 0
      ensures !terminalReported && !terminalRaceActionConsumed
      ensures !countdownSeen && !skipPendingUntilInactive && phase == Idle
    {
      sessionId := newSessionId;
      DropWork();
      observationSequence, actionSequence := 0, 0;
      terminalReported, terminalRaceActionConsumed := false, false;
      countdownSeen, skipPendingUntilInactive := false, false;
      phase := Idle;
    }

    method StartSession(newSessionId: string) returns (reply: Reply<()>)
      modifies this
      ensures Blank(newSessionId) ==> reply == Fault && State() == old(State())
      ensures !Blank(newSessionId) ==>
                reply == Ok(()) && State() == SequencerSpec.StartSession(old(State()), newSessionId)
    {
      if Blank(newSessionId) { return Fault; }
      ResetSession(newSessionId);
      return Ok(());
    }

    method ArmRound(arm: Arm) returns (reply: Reply<ArmStatus>)
      modifies this
      ensures Step(State(), reply) == ArmNext(old(State()), arm)
    {
      if arm.version != PROTOCOL_VERSION { return Violation(VersionMismatch); }
      if arm.session != sessionId { return Violation(StaleRequest); }
      if arm.requestId == 0 || arm.round == 0 { return Violation(InvalidMessage); }
      if pendingArm.Some? {
        if pendingArm.value == arm { return Ok(Idempotent); }
        if arm.requestId <= pendingArm.value.requestId || arm.round <= pendingArm.value.round {
          return Violation(StaleRequest);
        }
        return Violation(SequenceViolation);
      }
      if activeArm.Some? && !terminalReported { return Violation(SequenceViolation); }
      var previousSequence := 0;
      if activeArm.Some? {
        previousSequence := activeArm.value.round;
      } else if completedArm.Some? {
        previousSequence := completedArm.value.round;
      }
      if arm.round <= previousSequence { return Violation(StaleRound); }
      pendingArm := Some(arm);
      if latestPacket.Some? && (latestPacket.value.phase.Active? || latestPacket.value.phase.RoundComplete?) {
        skipPendingUntilInactive := true;
        phase := Skipping;
      } else if latestPacket.Some? && latestPacket.value.phase.LockedCountdown? {
        countdownSeen := true;
        phase := Countdown;
      } else {
        phase := Armed;
      }
      return Ok(Accepted);
    }

    method Receive(packet: Packet, clientTick: int) returns (reply: Reply<Event>)
      modifies this
      ensures Step(State(), reply) == SequencerSpec.Receive(old(State()), packet, clientTick)
    {
      var previous := if latestPacket.Some? then Some(latestPacket.value.phase) else None;
      var complete := RecordPacket(packet);
      if !complete { return Fault; }
      match packet.phase
      case Inactive => reply := ReceiveInactive(previous);
      case LockedCountdown => reply := ReceiveCountdown(previous);
      case Active => reply := ReceiveActive(previous, packet, clientTick);
      case RoundComplete => reply := ReceiveComplete(previous, packet);
    }

    /** Stores the packet; false when reading a missing count would throw. */
    method RecordPacket(packet: Packet) returns (complete: bool)
      modifies `latestPacket, `direction, `targetY, `activePlayers, `totalPlayers
      ensures complete == !MissingCounts(packet)
      ensures var next := Record(old(State()), packet);
              && latestPacket == next.latest && direction == next.direction
              && targetY == next.targetY && activePlayers == next.activePlayers
              && totalPlayers == next.totalPlayers
    {
      latestPacket := Some(packet);
      if packet.direction.Some? {
        direction := packet.direction;
        if packet.targetY.None? { return false; }
        targetY := packet.targetY.value;
        if packet.activePlayers.None? { return false; }
        activePlayers := packet.activePlayers.value;
        if packet.totalPlayers.None? { return false; }
        totalPlayers := packet.totalPlayers.value;
      }
      return true;
    }

    method ReceiveInactive(previous: Option<ServerPhase>) returns (reply: Reply<Event>)
      modifies this
      ensures Step(State(), reply) == SequencerSpec.ReceiveInactive(old(State()), previous)
    {
      if previous == Some(Active) && activeArm.Some? && !terminalReported {
        return Violation(RoundOrdering);
      }
      var cleaned := previous == Some(RoundComplete) || terminalReported;
      ResetRound();
      return Ok(if cleaned then Cleaned else NoEvent);
    }

    method ResetRound()
      modifies `queuedAction, `runningAction, `countdownSeen, `skipPendingUntilInactive, `phase
      modifies `activeArm, `terminalReported
      ensures activeArm == if old(terminalReported) then None else old(activeArm)
      ensures queuedAction == runningAction == None && !terminalReported
      ensures !countdownSeen && !skipPendingUntilInactive
      ensures phase == if pendingArm.None? then Idle else Armed
    {
      if terminalReported {
        activeArm := None;
        terminalReported := false;
      }
      queuedAction, runningAction := None, None;
      countdownSeen, skipPendingUntilInactive := false, false;
      phase := if pendingArm.None? then Idle else Armed;
    }

    method ReceiveCountdown(previous: Option<ServerPhase>) returns (reply: Reply<Event>)
      modifies this
      ensures Step(State(), reply) == SequencerSpec.ReceiveCountdown(old(State()), previous)
    {
      if previous == Some(Active) || previous == Some(RoundComplete) {
        return Violation(RoundOrdering);
      }
      if pendingArm.Some? && !skipPendingUntilInactive {
        countdownSeen := true;
        phase := Countdown;
      }
      return Ok(NoEvent);
    }

    method ReceiveActive(previous: Option<ServerPhase>, packet: Packet, clientTick: int)
      returns (reply: Reply<Event>)
      modifies this
      ensures Step(State(), reply)
           == SequencerSpec.ReceiveActive(old(State()), previous, packet, clientTick)
    {
      if activeArm.Some? {
        if !packet.playerActive && !terminalReported {
          MarkTerminal();
          return Ok(PlayerEliminated);
        }
        return Ok(NoEvent);
      }
      if pendingArm.None? || skipPendingUntilInactive
         || previous != Some(LockedCountdown) || !countdownSeen {
        skipPendingUntilInactive := true;
        phase := Skipping;
        return Ok(NoEvent);
      }
      if !packet.playerActive { return Violation(RoundOrdering); }
      StartEpisode(clientTick);
      return Ok(EpisodeStarted);
    }

    method StartEpisode(clientTick: int)
      modifies this
      ensures State() == SequencerSpec.StartEpisode(old(State()), clientTick)
    {
      OpenEpisode(clientTick);
    }

    method OpenEpisode(clientTick: int)
      modifies `activeArm, `pendingArm, `observationSequence, `actionSequence, `bestDistance
      modifies `observationClientTick, `roundStartedClientTick, `terminalReported, `phase
      ensures activeArm == old(pendingArm) && pendingArm == None
      ensures observationSequence == actionSequence == 0 && bestDistance == None
      ensures observationClientTick == roundStartedClientTick == clientTick
      ensures !terminalReported && phase == WaitingAction
    {
      activeArm, pendingArm := pendingArm, None;
      observationSequence, actionSequence := 0, 0;
      observationClientTick, roundStartedClientTick := clientTick, clientTick;
      bestDistance := None;
      terminalReported := false;
      phase := WaitingAction;
    }

    method ReceiveComplete(previous: Option<ServerPhase>, packet: Packet)
      returns (reply: Reply<Event>)
      modifies this
      ensures Step(State(), reply) == SequencerSpec.ReceiveComplete(old(State()), previous, packet)
    {
      if activeArm.None? {
        skipPendingUntilInactive := true;
        phase := Skipping;
        return Ok(NoEvent);
      }
      if previous != Some(Active) && previous != Some(RoundComplete) {
        return Violation(RoundOrdering);
      }
      if terminalReported {
        if packet.playerOutcome != Some(Eliminated) { return Violation(RoundOrdering); }
        return Ok(NoEvent);
      }
      MarkTerminal();
      return Ok(RoundCompleted);
    }

    method QueueAction(action: Action) returns (reply: Reply<()>)
      modifies this
      ensures Step(State(), reply) == SequencerSpec.QueueAction(old(State()), action)
    {
      if action.version != PROTOCOL_VERSION { return Violation(VersionMismatch); }
      if action.session != sessionId { return Violation(StaleRequest); }
      if !ValidChoices(action.choices) { return Violation(InvalidMessage); }
      if completedArm.Some? && action.round == completedArm.value.round
         && action.policy == completedArm.value.policy {
        if !terminalRaceActionConsumed && action.observation == completedObservationSequence
           && action.number == completedActionSequence + 1 {
          terminalRaceActionConsumed := true;
          return Ok(());
        }
        return Violation(SequenceViolation);
      }
      if activeArm.None? || action.round != activeArm.value.round
         || action.policy != activeArm.value.policy {
        return Violation(StaleRound);
      }
      if phase != WaitingAction { return Violation(SequenceViolation); }
      if action.observation != observationSequence || action.number != actionSequence + 1 {
        return Violation(SequenceViolation);
      }
      queuedAction := Some(action);
      phase := ActionQueued;
      return Ok(());
    }

    method BeginAction() returns (action: Option<Action>)
      modifies this
      ensures State() == SequencerSpec.BeginAction(old(State()))
      ensures action == if old(phase) == ActionQueued then old(queuedAction) else None
    {
      if phase != ActionQueued { return None; }
      action := queuedAction;
      queuedAction := None;
      runningAction := action;
      phase := ActionRunning;
    }

    method CompleteAction(clientTick: int) returns (reply: Reply<Action>)
      modifies this
      ensures Step(State(), reply) == SequencerSpec.CompleteAction(old(State()), clientTick)
    {
      if phase != ActionRunning || runningAction.None? { return Fault; }
      var completed := runningAction.value;
      runningAction := None;
      actionSequence := actionSequence + 1;
      observationSequence := actionSequence;
      observationClientTick := clientTick;
      phase := WaitingAction;
      return Ok(completed);
    }

    method ActionTimedOut(clientTick: int) returns (late: bool)
      ensures late == SequencerSpec.ActionTimedOut(State(), clientTick)
    {
      late := phase == WaitingAction && clientTick - observationClientTick > ACTION_DEADLINE_TICKS;
    }

    method RecordTargetDistance(distance: real)
      modifies this
      ensures State() == RecordDistance(old(State()), distance)
    {
      if distance >= 0.0 {
        bestDistance := Some(
          if bestDistance.Some? && bestDistance.value <= distance then bestDistance.value
          else distance);
      }
    }

    method TerminalOutcome() returns (reply: Reply<Outcome>)
      ensures reply == SequencerSpec.TerminalOutcome(State())
    {
      if !terminalReported || latestPacket.None? { return Violation(SequenceViolation); }
      if latestPacket.value.phase.Active? && !latestPacket.value.playerActive {
        return Ok(Eliminated);
      }
      match latestPacket.value.playerOutcome
      case Some(outcome) => reply := Ok(outcome);
      case None => reply := Violation(InvalidMessage);
    }

    method WinnerUuid() returns (uuid: string)
      ensures uuid == SequencerSpec.WinnerUuid(State())
    {
      uuid := if latestPacket.None? || latestPacket.value.winnerUuid.None? then ""
              else latestPacket.value.winnerUuid.value;
    }

    method Abort()
      modifies this
      ensures State() == SequencerSpec.Abort(old(State()))
    {
      DropWork();
      phase := Aborted;
    }

    method MarkTerminal()
      modifies this
      ensures State() == SequencerSpec.MarkTerminal(old(State()))
    {
      CloseEpisode();
    }

    method CloseEpisode()
      modifies `completedArm, `completedObservationSequence, `completedActionSequence, `phase
      modifies `terminalRaceActionConsumed, `queuedAction, `runningAction, `terminalReported
      ensures completedArm == activeArm
      ensures completedObservationSequence == observationSequence
      ensures completedActionSequence == actionSequence
      ensures terminalRaceActionConsumed == (old(queuedAction).Some? || old(runningAction).Some?)
      ensures queuedAction == runningAction == None
      ensures terminalReported && phase == Terminal
    {
      completedArm := activeArm;
      completedObservationSequence := observationSequence;
      completedActionSequence := actionSequence;
      terminalRaceActionConsumed := queuedAction.Some? || runningAction.Some?;
      queuedAction, runningAction := None, None;
      terminalReported := true;
      phase := Terminal;
    }
  }
}
