/** The client's ordering state as a value, and what each of its operations does to it.
    The class in round_sequencer.dfy is proved to compute exactly these functions. */
module SequencerSpec {
  import opened Common
  import opened Packets
  import opened WireMessages

  datatype Phase =
    | Idle | Armed | Countdown | WaitingAction | ActionQueued | ActionRunning
    | Terminal | Skipping | Aborted

  datatype Event = NoEvent | EpisodeStarted | PlayerEliminated | RoundCompleted | Cleaned

  datatype ArmStatus = Accepted | Idempotent

  /** How a call ends: normally, by a reported protocol violation, or by an unchecked exception. */
  datatype Reply<+T> = Ok(value: T) | Violation(code: ErrorCode) | Fault

  datatype Sequencer = Sequencer(
    session: string,
    pending: Option<Arm>,
    active: Option<Arm>,
    completed: Option<Arm>,
    queued: Option<Action>,
    running: Option<Action>,
    latest: Option<Packet>,
    direction: Option<Direction>,
    targetY: int,
    activePlayers: int,
    totalPlayers: int,
    observationSequence: int,
    actionSequence: int,
    observationTick: int,
    roundStartedTick: int,
    completedObservation: int,
    completedAction: int,
    bestDistance: Option<real>,
    countdownSeen: bool,
    skipUntilInactive: bool,
    terminalReported: bool,
    raceConsumed: bool,
    phase: Phase)

  /** A call's effect. A throwing call keeps the fields it had assigned before it threw. */
  datatype Step<+T> = Step(next: Sequencer, reply: Reply<T>)

  const INITIAL := Sequencer(
    "", None, None, None, None, None, None, None, 0, 0, 0, 0, 0, 0, 0, 0, 0,
    None, false, false, false, false, Idle)

  function StartSession(s: Sequencer, session: string): Sequencer {
    s.(session := session, pending := None, active := None, completed := None,
       queued := None, running := None, observationSequence := 0, actionSequence := 0,
       terminalReported := false, raceConsumed := false, countdownSeen := false,
       skipUntilInactive := false, phase := Idle)
  }

  function Abort(s: Sequencer): Sequencer {
    s.(pending := None, active := None, completed := None, queued := None, running := None,
       phase := Aborted)
  }

  function LatestPhase(s: Sequencer): Option<ServerPhase> {
    if s.latest.Some? then Some(s.latest.value.phase) else None
  }

  function PreviousRound(s: Sequencer): int {
    if s.active.Some? then s.active.value.round
    else if s.completed.Some? then s.completed.value.round
    else 0
  }

  function ArmError(s: Sequencer, arm: Arm): Option<ErrorCode> {
    if arm.version != PROTOCOL_VERSION then Some(VersionMismatch)
    else if arm.session != s.session then Some(StaleRequest)
    else if arm.requestId == 0 || arm.round == 0 then Some(InvalidMessage)
    else if s.pending.Some? then
      if s.pending.value == arm then None
      else if arm.requestId <= s.pending.value.requestId || arm.round <= s.pending.value.round then
        Some(StaleRequest)
      else Some(SequenceViolation)
    else if s.active.Some? && !s.terminalReported then Some(SequenceViolation)
    else if arm.round <= PreviousRound(s) then Some(StaleRound)
    else None
  }

  /** A round already under way is skipped; a countdown under way counts as seen. */
  function Arming(s: Sequencer, arm: Arm): Sequencer {
    var phase := LatestPhase(s);
    if phase == Some(Active) || phase == Some(RoundComplete) then
      s.(pending := Some(arm), skipUntilInactive := true, phase := Skipping)
    else if phase == Some(LockedCountdown) then
      s.(pending := Some(arm), countdownSeen := true, phase := Countdown)
    else s.(pending := Some(arm), phase := Armed)
  }

  function ArmNext(s: Sequencer, arm: Arm): Step<ArmStatus> {
    var error := ArmError(s, arm);
    if error.Some? then Step(s, Violation(error.value))
    else if s.pending.Some? then Step(s, Ok(Idempotent))
    else Step(Arming(s, arm), Ok(Accepted))
  }

  /** The fields every packet refreshes, up to the first missing one. */
  function Record(s: Sequencer, p: Packet): Sequencer {
    var target := p.direction.Some? && p.targetY.Some?;
    var alive := target && p.activePlayers.Some?;
    var total := alive && p.totalPlayers.Some?;
    s.(latest := Some(p),
       direction := if p.direction.Some? then p.direction else s.direction,
       targetY := if target then p.targetY.value else s.targetY,
       activePlayers := if alive then p.activePlayers.value else s.activePlayers,
       totalPlayers := if total then p.totalPlayers.value else s.totalPlayers)
  }

  predicate MissingCounts(p: Packet) {
    p.direction.Some? && (p.targetY.None? || p.activePlayers.None? || p.totalPlayers.None?)
  }

  function MarkTerminal(s: Sequencer): Sequencer {
    s.(completed := s.active,
       completedObservation := s.observationSequence,
       completedAction := s.actionSequence,
       raceConsumed := s.queued.Some? || s.running.Some?,
       queued := None, running := None, terminalReported := true, phase := Terminal)
  }

  function StartEpisode(s: Sequencer, tick: int): Sequencer {
    s.(active := s.pending, pending := None, observationSequence := 0, actionSequence := 0,
       observationTick := tick, roundStartedTick := tick, bestDistance := None,
       terminalReported := false, phase := WaitingAction)
  }

  function Skip(s: Sequencer): Step<Event> {
    Step(s.(skipUntilInactive := true, phase := Skipping), Ok(NoEvent))
  }

  function ReceiveInactive(s: Sequencer, previous: Option<ServerPhase>): Step<Event> {
    if previous == Some(Active) && s.active.Some? && !s.terminalReported then
      Step(s, Violation(RoundOrdering))
    else
      Step(s.(active := if s.terminalReported then None else s.active,
              terminalReported := false, queued := None, running := None,
              countdownSeen := false, skipUntilInactive := false,
              phase := if s.pending.None? then Idle else Armed),
           Ok(if previous == Some(RoundComplete) || s.terminalReported then Cleaned else NoEvent))
  }

  function ReceiveCountdown(s: Sequencer, previous: Option<ServerPhase>): Step<Event> {
    if previous == Some(Active) || previous == Some(RoundComplete) then
      Step(s, Violation(RoundOrdering))
    else if s.pending.Some? && !s.skipUntilInactive then
      Step(s.(countdownSeen := true, phase := Countdown), Ok(NoEvent))
    else Step(s, Ok(NoEvent))
  }

  function ReceiveActive(s: Sequencer, previous: Option<ServerPhase>, p: Packet, tick: int)
    : Step<Event>
  {
    if s.active.Some? then
      if !p.playerActive && !s.terminalReported then Step(MarkTerminal(s), Ok(PlayerEliminated))
      else Step(s, Ok(NoEvent))
    else if s.pending.None? || s.skipUntilInactive
            || previous != Some(LockedCountdown) || !s.countdownSeen then Skip(s)
    else if !p.playerActive then Step(s, Violation(RoundOrdering))
    else Step(StartEpisode(s, tick), Ok(EpisodeStarted))
  }

  function ReceiveComplete(s: Sequencer, previous: Option<ServerPhase>, p: Packet): Step<Event> {
    if s.active.None? then Skip(s)
    else if previous != Some(Active) && previous != Some(RoundComplete) then
      Step(s, Violation(RoundOrdering))
    else if s.terminalReported then
      Step(s, if p.playerOutcome != Some(Eliminated) then Violation(RoundOrdering) else Ok(NoEvent))
    else Step(MarkTerminal(s), Ok(RoundCompleted))
  }

  function Receive(s: Sequencer, p: Packet, tick: int): Step<Event> {
    var previous := LatestPhase(s);
    var r := Record(s, p);
    if MissingCounts(p) then Step(r, Fault)
    else match p.phase
      case Inactive => ReceiveInactive(r, previous)
      case LockedCountdown => ReceiveCountdown(r, previous)
      case Active => ReceiveActive(r, previous, p, tick)
      case RoundComplete => ReceiveComplete(r, previous, p)
  }

  predicate ForCompleted(s: Sequencer, a: Action) {
    s.completed.Some? && a.round == s.completed.value.round && a.policy == s.completed.value.policy
  }

  function QueueAction(s: Sequencer, a: Action): Step<()> {
    if a.version != PROTOCOL_VERSION then Step(s, Violation(VersionMismatch))
    else if a.session != s.session then Step(s, Violation(StaleRequest))
    else if !ValidChoices(a.choices) then Step(s, Violation(InvalidMessage))
    else if ForCompleted(s, a) then
      if !s.raceConsumed && a.observation == s.completedObservation
         && a.number == s.completedAction + 1 then
        Step(s.(raceConsumed := true), Ok(()))
      else Step(s, Violation(SequenceViolation))
    else if s.active.None? || a.round != s.active.value.round
            || a.policy != s.active.value.policy then Step(s, Violation(StaleRound))
    else if s.phase != WaitingAction then Step(s, Violation(SequenceViolation))
    else if a.observation != s.observationSequence || a.number != s.actionSequence + 1 then
      Step(s, Violation(SequenceViolation))
    else Step(s.(queued := Some(a), phase := ActionQueued), Ok(()))
  }

  function BeginAction(s: Sequencer): Sequencer {
    if s.phase != ActionQueued then s
    else s.(queued := None, running := s.queued, phase := ActionRunning)
  }

  function CompleteAction(s: Sequencer, tick: int): Step<Action> {
    if s.phase != ActionRunning || s.running.None? then Step(s, Fault)
    else Step(s.(running := None, actionSequence := s.actionSequence + 1,
                 observationSequence := s.actionSequence + 1, observationTick := tick,
                 phase := WaitingAction),
              Ok(s.running.value))
  }

  predicate ActionTimedOut(s: Sequencer, tick: int) {
    s.phase == WaitingAction && tick - s.observationTick > ACTION_DEADLINE_TICKS
  }

  function RecordDistance(s: Sequencer, distance: real): Sequencer {
    if distance < 0.0 then s
    else if s.bestDistance.Some? && s.bestDistance.value <= distance then s
    else s.(bestDistance := Some(distance))
  }

  function TerminalOutcome(s: Sequencer): Reply<Outcome> {
    if !s.terminalReported || s.latest.None? then Violation(SequenceViolation)
    else if s.latest.value.phase.Active? && !s.latest.value.playerActive then Ok(Eliminated)
    else if s.latest.value.playerOutcome.Some? then Ok(s.latest.value.playerOutcome.value)
    else Violation(InvalidMessage)
  }

  function WinnerUuid(s: Sequencer): string {
    if s.latest.Some? && s.latest.value.winnerUuid.Some? then s.latest.value.winnerUuid.value else ""
  }
}
