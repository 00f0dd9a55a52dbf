/** What every reachable client satisfies when each violation is followed by an abort. */
module ClientInvariants {
  import opened Common
  import opened Packets
  import opened WireMessages
  import opened SequencerSpec
  import opened ClientSpec

  predicate Live(s: Sequencer) {
    s.active.Some? && !s.terminalReported
  }

  /** The action the client holds but has not acknowledged. */
  function Held(s: Sequencer): Option<Action> {
    if s.queued.Some? then s.queued else s.running
  }

  predicate NextFor(s: Sequencer, a: Action) {
    && s.active.Some? && a.round == s.active.value.round && a.policy == s.active.value.policy
    && a.session == s.session
    && a.observation == s.observationSequence && a.number == s.actionSequence + 1
    && ValidChoices(a.choices)
  }

  predicate SequencerInvariant(s: Sequencer) {
    && (s.phase == ActionRunning <==> s.running.Some?)
    && (s.phase == ActionQueued <==> s.queued.Some?)
    && (Held(s).Some? ==> NextFor(s, Held(s).value))
    && (Live(s) <==> s.phase == WaitingAction || s.phase == ActionQueued || s.phase == ActionRunning)
    && (Live(s) ==> s.pending.None? && LatestPhase(s) == Some(Active) && s.latest.value.playerActive)
    && (Live(s) && s.completed.Some? ==> s.completed.value.round < s.active.value.round)
    && (s.active.Some? && s.terminalReported ==>
          && s.completed == s.active && s.completedAction == s.actionSequence
          && (LatestPhase(s) == Some(Active) || LatestPhase(s) == Some(RoundComplete)))
    && (s.pending.Some? ==>
          && PreviousRound(s) < s.pending.value.round
          && s.pending.value.session == s.session
          && (s.phase == Armed || s.phase == Countdown || s.phase == Skipping))
    && (s.active.Some? ==> 0 < s.active.value.round && s.active.value.session == s.session)
    && (s.completed.Some? ==> 0 < s.completed.value.round)
    && s.observationSequence == s.actionSequence && s.completedObservation == s.completedAction
    && 0 <= s.actionSequence && 0 <= s.completedAction
    && (s.bestDistance.Some? ==> 0.0 <= s.bestDistance.value)
  }

  /** Controls are pressed exactly while an action runs, and then 1 to 4 hold ticks remain. */
  predicate HoldInvariant(c: Client) {
    if c.sequencer.running.Some? then
      && 1 <= c.holdTicks <= ACTION_HOLD_TICKS
      && ValidChoices(c.sequencer.running.value.choices)
      && c.inputs == InputsFor(c.sequencer.running.value.choices)
    else c.holdTicks == 0 && c.inputs == NEUTRAL
  }

  predicate ClientInvariant(c: Client) {
    && SequencerInvariant(c.sequencer)
    && HoldInvariant(c)
    && (c.greeted ==> c.connected)
    && (!c.connected ==>
          c.sequencer.active.None? && c.sequencer.pending.None? && c.sequencer.completed.None?)
  }

  /** A parsed packet that names a direction but omits its target or a count. */
  predicate Poison(i: Input) {
    i.FromServer? && Parsed(i.packet) && MissingCounts(i.packet)
  }

  /** The packet left the client between episodes. */
  predicate Rests(s: Sequencer, next: Sequencer, p: Packet) {
    && !Live(s) && !Live(next)
    && next.session == s.session && next.pending == s.pending
    && next.completed == s.completed && next.completedAction == s.completedAction
    && next.raceConsumed == s.raceConsumed
    && next.active == if p.phase.Inactive? && s.terminalReported then None else s.active
  }

  /** The packet started the pending arm's episode. */
  predicate StartsEpisode(s: Sequencer, next: Sequencer, p: Packet, tick: int) {
    && !Live(s) && Live(next) && s.active.None?
    && s.pending.Some? && next.active == s.pending && next.pending.None?
    && next.session == s.session && next.completed == s.completed
    && next.completedAction == s.completedAction && next.raceConsumed == s.raceConsumed
    && next.phase == WaitingAction && next.actionSequence == 0
    && next.observationTick == tick && next.roundStartedTick == tick
    && p.phase.Active? && LatestPhase(s) == Some(LockedCountdown)
    && Some(next.targetY) == p.targetY && next.direction == p.direction
    && Some(next.activePlayers) == p.activePlayers && Some(next.totalPlayers) == p.totalPlayers
  }

  /** The packet ended the live episode, discarding a held action. */
  predicate EndsEpisode(s: Sequencer, next: Sequencer) {
    && Live(s) && !Live(next) && next.active == s.active && next.terminalReported
    && next.session == s.session && next.completed == s.active && next.pending.None?
    && next.completedAction == s.actionSequence && next.actionSequence == s.actionSequence
    && next.roundStartedTick == s.roundStartedTick
    && next.raceConsumed == Held(s).Some?
    && TerminalOutcome(next).Ok?
  }

  /** What one accepted packet may do. */
  predicate GoodReceive(s: Sequencer, p: Packet, tick: int, step: Step<Event>) {
    && !step.reply.Fault?
    && (step.reply.Ok? ==>
          && SequencerInvariant(step.next)
          && match step.reply.value
             case EpisodeStarted => StartsEpisode(s, step.next, p, tick)
             case PlayerEliminated => EndsEpisode(s, step.next)
             case RoundCompleted => EndsEpisode(s, step.next)
             case Cleaned => Rests(s, step.next, p)
             case NoEvent => if Live(s) then step.next == Record(s, p) && p.playerActive
                             else Rests(s, step.next, p))
  }

  lemma ReceiveInactiveKeeps(s: Sequencer, p: Packet, tick: int)
    requires SequencerInvariant(s) && Parsed(p) && !MissingCounts(p) && p.phase.Inactive?
    ensures GoodReceive(s, p, tick, Receive(s, p, tick))
  {
  }

  lemma ReceiveCountdownKeeps(s: Sequencer, p: Packet, tick: int)
    requires SequencerInvariant(s) && Parsed(p) && !MissingCounts(p) && p.phase.LockedCountdown?
    ensures GoodReceive(s, p, tick, Receive(s, p, tick))
  {
  }

  lemma ReceiveActiveKeeps(s: Sequencer, p: Packet, tick: int)
    requires SequencerInvariant(s) && Parsed(p) && !MissingCounts(p) && p.phase.Active?
    ensures GoodReceive(s, p, tick, Receive(s, p, tick))
  {
  }

  lemma ReceiveCompleteKeeps(s: Sequencer, p: Packet, tick: int)
    requires SequencerInvariant(s) && Parsed(p) && !MissingCounts(p) && p.phase.RoundComplete?
    ensures GoodReceive(s, p, tick, Receive(s, p, tick))
  {
  }

  lemma ReceiveKeeps(s: Sequencer, p: Packet, tick: int)
    requires SequencerInvariant(s) && Parsed(p) && !MissingCounts(p)
    ensures GoodReceive(s, p, tick, Receive(s, p, tick))
  {
    match p.phase
    case Inactive => ReceiveInactiveKeeps(s, p, tick);
    case LockedCountdown => ReceiveCountdownKeeps(s, p, tick);
    case Active => ReceiveActiveKeeps(s, p, tick);
    case RoundComplete => ReceiveCompleteKeeps(s, p, tick);
  }

  /** Observing an episode changes nothing but the best distance. */
  predicate Observed(s: Sequencer, next: Sequencer) {
    next == s.(bestDistance := next.bestDistance)
  }

  lemma RecordDistanceKeeps(s: Sequencer, distance: real)
    requires SequencerInvariant(s)
    ensures Observed(s, RecordDistance(s, distance)) && SequencerInvariant(RecordDistance(s, distance))
  {
  }

  /** Starting an episode sends its readiness and its first observation. */
  lemma BeginEpisodeEffect(c: Client, feetY: real)
    requires SequencerInvariant(c.sequencer) && Live(c.sequencer)
    ensures var arm := c.sequencer.active.value;
            var h := BeginEpisode(c, feetY);
            && h.client == Release(c).(sequencer := h.client.sequencer)
            && Observed(c.sequencer, h.client.sequencer) && SequencerInvariant(h.client.sequencer)
            && h.sent == [ToTheTrainer(EpisodeReadyMessage(ReadyOf(c, arm))),
                          ToTheTrainer(ObservationMessage(ObservationOf(c, arm, ObservedActive, feetY)))]
  {
  }

  /** Finishing one sends its last observation and its result. */
  lemma FinishEpisodeEffect(c: Client, feetY: real)
    requires SequencerInvariant(c.sequencer) && c.sequencer.active.Some? && !Live(c.sequencer)
    requires TerminalOutcome(c.sequencer).Ok?
    ensures var arm := c.sequencer.active.value;
            var h := FinishEpisode(c, feetY);
            && h.client == Release(c).(sequencer := h.client.sequencer)
            && Observed(c.sequencer, h.client.sequencer) && SequencerInvariant(h.client.sequencer)
            && h.sent == [ToTheTrainer(ObservationMessage(ObservationOf(c, arm, ObservedComplete, feetY))),
                          ToTheTrainer(EpisodeResultMessage(
                            ResultOf(h.client, arm, TerminalOutcome(c.sequencer).value)))]
  {
    RecordDistanceKeeps(c.sequencer, Abs(c.sequencer.targetY as real - feetY));
  }

  lemma FinishEpisodeKeeps(c: Client, feetY: real)
    requires SequencerInvariant(c.sequencer) && c.sequencer.active.Some? && !Live(c.sequencer)
    requires TerminalOutcome(c.sequencer).Ok? && !c.crashed && c.connected
    ensures var h := FinishEpisode(c, feetY); ClientInvariant(h.client) && !h.client.crashed
  {
    FinishEpisodeEffect(c, feetY);
  }

  lemma BeginEpisodeKeeps(c: Client, feetY: real)
    requires SequencerInvariant(c.sequencer) && Live(c.sequencer)
    requires c.sequencer.running.None? && !c.crashed && c.connected
    ensures var h := BeginEpisode(c, feetY); ClientInvariant(h.client) && !h.client.crashed
  {
    BeginEpisodeEffect(c, feetY);
  }

  lemma FailureKeeps(c: Client, code: ErrorCode)
    requires c.sequencer.observationSequence == c.sequencer.actionSequence
    requires c.sequencer.completedObservation == c.sequencer.completedAction
    requires 0 <= c.sequencer.actionSequence && 0 <= c.sequencer.completedAction && !c.crashed
    requires c.sequencer.bestDistance.Some? ==> 0.0 <= c.sequencer.bestDistance.value
    requires c.greeted ==> c.connected
    ensures var h := Failure(c, code); ClientInvariant(h.client) && !h.client.crashed
  {
  }

  lemma AfterPacketKeeps(c: Client, p: Packet, feetY: real, step: Step<Event>)
    requires ClientInvariant(c) && !c.crashed && GoodReceive(c.sequencer, p, c.tick, step)
    requires step.reply.Ok?
    ensures var h := AfterPacket(c, p, feetY, step); ClientInvariant(h.client) && !h.client.crashed
  {
    var d := c.(sequencer := step.next);
    match step.reply.value
    case EpisodeStarted => BeginEpisodeKeeps(d, feetY);
    case PlayerEliminated => FinishEpisodeKeeps(d, feetY);
    case RoundCompleted => FinishEpisodeKeeps(d, feetY);
    case Cleaned =>
    case NoEvent =>
  }

  lemma ReceiveYRushKeeps(c: Client, p: Packet, feetY: real)
    requires ClientInvariant(c) && !c.crashed
    requires Parsed(p) ==> !MissingCounts(p)
    ensures var h := ReceiveYRush(c, p, feetY); ClientInvariant(h.client) && !h.client.crashed
  {
    if !Parsed(p) {
      FailureKeeps(c, ParseError(p).value);
      return;
    }
    ReceiveKeeps(c.sequencer, p, c.tick);
    var step := Receive(c.sequencer, p, c.tick);
    if step.reply.Violation? {
      FailureKeeps(c.(sequencer := step.next), step.reply.code);
    } else {
      AfterPacketKeeps(c, p, feetY, step);
    }
  }

  /** Everything an arm leaves alone. */
  predicate SameEpisodes(s: Sequencer, next: Sequencer) {
    && next.session == s.session && next.active == s.active && next.completed == s.completed
    && next.completedAction == s.completedAction && next.raceConsumed == s.raceConsumed
    && next.terminalReported == s.terminalReported && next.latest == s.latest
    && next.queued == s.queued && next.running == s.running
  }

  lemma PendingKeeps(s: Sequencer, arm: Arm, seen: bool, skip: bool, phase: Phase)
    requires SequencerInvariant(s) && !Live(s) && s.pending.None?
    requires PreviousRound(s) < arm.round && arm.session == s.session
    requires phase == Armed || phase == Countdown || phase == Skipping
    ensures var next := s.(pending := Some(arm), countdownSeen := seen,
                           skipUntilInactive := skip, phase := phase);
            SequencerInvariant(next) && SameEpisodes(s, next)
  {
  }

  lemma ArmingKeeps(s: Sequencer, arm: Arm)
    requires SequencerInvariant(s) && !Live(s) && s.pending.None?
    requires PreviousRound(s) < arm.round && arm.session == s.session
    ensures SequencerInvariant(Arming(s, arm))
    ensures Arming(s, arm).pending == Some(arm) && SameEpisodes(s, Arming(s, arm))
  {
    if LatestPhase(s) == Some(Active) {
      PendingKeeps(s, arm, s.countdownSeen, true, Skipping);
    } else if LatestPhase(s) == Some(RoundComplete) {
      PendingKeeps(s, arm, s.countdownSeen, true, Skipping);
    } else if LatestPhase(s) == Some(LockedCountdown) {
      PendingKeeps(s, arm, true, s.skipUntilInactive, Countdown);
    } else {
      PendingKeeps(s, arm, s.countdownSeen, s.skipUntilInactive, Armed);
    }
  }

  lemma ArmAcceptedKeeps(s: Sequencer, arm: Arm)
    requires SequencerInvariant(s) && ArmError(s, arm).None? && s.pending.None?
    ensures ArmNext(s, arm).reply == Ok(Accepted)
    ensures !Live(s) && SequencerInvariant(ArmNext(s, arm).next)
    ensures ArmNext(s, arm).next.pending == Some(arm)
    ensures SameEpisodes(s, ArmNext(s, arm).next)
  {
    assert ArmNext(s, arm).next == Arming(s, arm);
    ArmingKeeps(s, arm);
  }

  lemma ArmKeeps(s: Sequencer, arm: Arm)
    requires SequencerInvariant(s)
    ensures var step := ArmNext(s, arm);
            && !step.reply.Fault?
            && (step.reply.Ok? ==>
                  && !Live(s) && SequencerInvariant(step.next) && SameEpisodes(s, step.next)
                  && step.next.pending == Some(arm))
            && (step.reply.Violation? ==> step.next == s)
  {
    if ArmError(s, arm).Some? {
    } else if s.pending.None? {
      ArmAcceptedKeeps(s, arm);
    }
  }

  /** The one spare action of the last finished episode. */
  predicate SpareFor(s: Sequencer, a: Action) {
    && s.completed.Some? && a.round == s.completed.value.round
    && a.policy == s.completed.value.policy && a.session == s.session
    && !s.raceConsumed && a.number == s.completedAction + 1
    && a.observation == s.completedObservation && ValidChoices(a.choices)
  }

  /** An accepted action is the next one of the live episode, which then holds it and held none
      before, or the spare one of the last; a refused action changes nothing. */
  lemma QueueKeeps(s: Sequencer, a: Action)
    requires SequencerInvariant(s)
    ensures var step := QueueAction(s, a);
            if step.reply.Ok? then
              || (Live(s) && NextFor(s, a) && Held(s).None?
                  && step.next == s.(queued := Some(a), phase := ActionQueued))
              || (SpareFor(s, a) && step.next == s.(raceConsumed := true))
            else step.next == s
    ensures var step := QueueAction(s, a);
            && SequencerInvariant(step.next) && !step.reply.Fault?
            && step.next.running == s.running
            && step.next.active == s.active && step.next.pending == s.pending
  {
    var step := QueueAction(s, a);
    if step.reply.Violation? {
      assert step.next == s;
    } else if ForCompleted(s, a) {
      assert step.next == s.(raceConsumed := true);
    } else {
      assert step.next == s.(queued := Some(a), phase := ActionQueued);
      assert NextFor(s, a);
    }
  }

  lemma ReceiveTrainerKeeps(c: Client, m: Envelope<ToClient>)
    requires ClientInvariant(c) && !c.crashed && c.connected
    ensures var h := ReceiveTrainer(c, m); ClientInvariant(h.client) && !h.client.crashed
  {
    if m.version != PROTOCOL_VERSION {
      FailureKeeps(c, VersionMismatch);
      return;
    }
    match m.payload
    case ArmEpisode(arm) =>
      ArmKeeps(c.sequencer, arm);
      var step := ArmNext(c.sequencer, arm);
      if step.reply.Violation? { FailureKeeps(Release(c), step.reply.code); }
    case ActionRequest(action) =>
      QueueKeeps(c.sequencer, action);
      var step := QueueAction(c.sequencer, action);
      if step.reply.Violation? { FailureKeeps(c.(sequencer := step.next), step.reply.code); }
    case Shutdown => FailureKeeps(c, Internal);
    case NotForClient => FailureKeeps(c, InvalidMessage);
  }

  lemma StartTickKeeps(c: Client)
    requires ClientInvariant(c) && !c.crashed
    ensures var h := StartTick(c); ClientInvariant(h.client) && !h.client.crashed
  {
  }

  lemma EndTickKeeps(c: Client, feetY: real)
    requires ClientInvariant(c) && !c.crashed
    ensures var h := EndTick(c, feetY); ClientInvariant(h.client) && !h.client.crashed
  {
  }

  /** Every handler keeps the invariant, and the only unchecked exception it can reach is the one
      a packet without its counts causes. */
  lemma HandleKeeps(c: Client, i: Input)
    requires ClientInvariant(c) && !c.crashed
    ensures Handle(c, i).client.crashed <==> Poison(i)
    ensures !Poison(i) ==> ClientInvariant(Handle(c, i).client)
  {
    match i
    case FromTrainer(m) => if c.connected { ReceiveTrainerKeeps(c, m); }
    case FromServer(p, feetY) => if !Poison(i) { ReceiveYRushKeeps(c, p, feetY); }
    case TickStarts => StartTickKeeps(c);
    case TickEnds(feetY) => EndTickKeeps(c, feetY);
    case TrainerConnected(session, nonce, uuid, name) =>
    case TrainerConnectedEarly =>
    case PaperJoined(session, nonce, uuid, name) =>
    case TrainerDisconnected => FailureKeeps(c, Internal);
    case PaperDisconnected => FailureKeeps(c, Internal);
    case FromServerGarbled => FailureKeeps(c, InvalidMessage);
  }

  /** A client crashes in a run if and only if some packet of the run omits its counts; until then
      every state satisfies the invariant. */
  lemma {:induction false} RunCrashesOnlyOnPoison(c: Client, inputs: seq<Input>)
    requires ClientInvariant(c) && !c.crashed
    ensures Run(c, inputs).crashed <==> exists k :: 0 <= k < |inputs| && Poison(inputs[k])
    ensures !Run(c, inputs).crashed ==> ClientInvariant(Run(c, inputs))
    decreases |inputs|
  {
    if inputs != [] {
      var d := Handle(c, inputs[0]).client;
      HandleKeeps(c, inputs[0]);
      if d.crashed {
        CrashedForever(d, inputs[1..]);
      } else {
        RunCrashesOnlyOnPoison(d, inputs[1..]);
        assert forall k :: 0 <= k < |inputs| && Poison(inputs[k]) ==>
          k > 0 && Poison(inputs[1..][k - 1]);
      }
    }
  }

  lemma {:induction false} CrashedForever(c: Client, inputs: seq<Input>)
    requires c.crashed
    ensures Run(c, inputs) == c
    decreases |inputs|
  {
    if inputs != [] {
      CrashedForever(c, inputs[1..]);
    }
  }
}
