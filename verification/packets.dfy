/** One decoded YRush schema-1 packet and the rules it must pass before the client acts on it. */
module Packets {
  import opened Common

  datatype ServerPhase = LockedCountdown | Active | RoundComplete | Inactive
  datatype Direction = Up | Down
  datatype Verdict = VerdictWin | VerdictDraw | VerdictStopped
  datatype Outcome = Won | Lost | Eliminated | Draw | Stopped

  datatype ErrorCode =
    | VersionMismatch | InvalidMessage | StaleRequest | StaleRound | SequenceViolation
    | ActionTimeout | RoundOrdering | MinecraftDisconnected | Internal

  datatype Packet = Packet(
    schemaVersion: int,
    roundActive: bool,
    playerActive: bool,
    phase: ServerPhase,
    direction: Option<Direction>,
    targetY: Option<int>,
    activePlayers: Option<int>,
    totalPlayers: Option<int>,
    secondsRemaining: Option<int>,
    result: Option<Verdict>,
    playerOutcome: Option<Outcome>,
    winnerUuid: Option<string>)

  predicate Blank(s: string) {
    forall i :: 0 <= i < |s| ==> s[i] in " \t\n\r"
  }

  /** The round state a LOCKED_COUNTDOWN or ACTIVE packet must carry. */
  predicate CompleteRoundState(p: Packet) {
    && p.roundActive
    && p.direction.Some? && p.targetY.Some?
    && p.activePlayers.Some? && p.totalPlayers.Some? && p.secondsRemaining.Some?
    && 0 <= p.activePlayers.value <= p.totalPlayers.value && 1 <= p.totalPlayers.value
    && 0 <= p.secondsRemaining.value
  }

  predicate NoTerminalFields(p: Packet) {
    p.result.None? && p.playerOutcome.None? && p.winnerUuid.None?
  }

  predicate TerminalFields(p: Packet) {
    && !p.roundActive && !p.playerActive
    && p.result.Some? && p.playerOutcome.Some?
    && (p.result.value.VerdictWin? <==> p.winnerUuid.Some?)
    && (p.winnerUuid.Some? ==> !Blank(p.winnerUuid.value))
  }

  /** The error that rejects a decoded packet, if any. */
  function ParseError(p: Packet): Option<ErrorCode> {
    if p.schemaVersion != 1 then Some(VersionMismatch)
    else if p.phase.LockedCountdown? || p.phase.Active? then
      if CompleteRoundState(p) && NoTerminalFields(p) then None else Some(InvalidMessage)
    else if p.phase.RoundComplete? then
      if TerminalFields(p) then None else Some(InvalidMessage)
    else if p.roundActive || p.playerActive then Some(InvalidMessage)
    else None
  }

  predicate Parsed(p: Packet) {
    ParseError(p).None?
  }

  /** What parsing does not force on INACTIVE and ROUND_COMPLETE packets: a direction comes with
      its target and with plausible player counts. */
  predicate DirectionIsComplete(p: Packet) {
    p.direction.Some? ==>
      && p.targetY.Some? && p.activePlayers.Some? && p.totalPlayers.Some?
      && 0 <= p.activePlayers.value <= p.totalPlayers.value && 1 <= p.totalPlayers.value
  }
}
