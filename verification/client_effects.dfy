/** What the trainer can tell about a well-served client: a small status, and how each input moves
    it. */
module ClientEffects {
  import opened Common
  import opened Packets
  import opened WireMessages
  import opened SequencerSpec
  import opened ClientSpec
  import opened ClientInvariants
  import opened ConnectionSpec

  /** The order in which a round server sends one participant its packets. */
  predicate Lifecycle(previous: Option<Packet>, p: Packet) {
    && Parsed(p) && DirectionIsComplete(p)
    && (previous.Some? ==>
          var q := previous.value;
          match p.phase
          case Inactive => !q.phase.Active?
          case LockedCountdown => q.phase.Inactive? || q.phase.LockedCountdown?
          case Active =>
            && !q.phase.RoundComplete?
            && (q.phase.LockedCountdown? ==> p.playerActive)
            && (q.phase.Active? && p.playerActive ==> q.playerActive)
          case RoundComplete =>
            && (q.phase.RoundComplete? ==> p.playerOutcome == Some(Eliminated))
            && (q.phase.Active? && !q.playerActive ==> p.playerOutcome == Some(Eliminated))
            && (q.phase.Active? && q.playerActive ==> OutcomeFitsVerdict(p)))
  }

  /** The player won or lost exactly when somebody won. */
  predicate OutcomeFitsVerdict(p: Packet) {
    (p.playerOutcome == Some(Won) || p.playerOutcome == Some(Lost)) <==> p.result == Some(VerdictWin)
  }

  /** Somebody takes part, and no more are active than take part. */
  predicate SaneCounts(s: Sequencer) {
    0 <= s.activePlayers <= s.totalPlayers && 1 <= s.totalPlayers
  }

  predicate ClientOk(c: Client) {
    var s := c.sequencer;
    && ClientInvariant(c) && !c.crashed && c.greeted && s.session != ""
    && (s.active.Some? ==> SaneCounts(s))
    && (s.active.Some? && s.terminalReported && LatestPhase(s) == Some(Active) ==>
          !s.latest.value.playerActive)
  }

  /** Playing an episode with n actions acknowledged, or between episodes: the pending arm, the
      last ended one with its n acknowledged actions, and whether its spare action is accounted
      for. */
  datatype Status =
    | Playing(arm: Arm, n: int, held: Option<Action>)
    | Between(pending: Option<Arm>, last: Option<Arm>, n: int, race: bool)

  function StatusOf(s: Sequencer): Status {
    if Live(s) then Playing(s.active.value, s.actionSequence, Held(s))
    else Between(s.pending, s.completed, s.completedAction, s.raceConsumed)
  }

  predicate IsReady(m: Message, arm: Arm, session: string) {
    m.version == PROTOCOL_VERSION && m.payload.EpisodeReadyMessage?
    && ReadyMatches(session, m.payload.ready, arm)
  }

  predicate IsObservation(m: Message, arm: Arm, session: string, n: int, phase: ObservedPhase) {
    && m.version == PROTOCOL_VERSION && m.payload.ObservationMessage?
    && var o := m.payload.observed;
       && ValidObservation(o) && o.session == session && o.round == arm.round
       && o.policy == arm.policy && o.observation == n && o.number == n && o.phase == phase
  }

  predicate IsResult(m: Message, arm: Arm, session: string, n: int) {
    && m.version == PROTOCOL_VERSION && m.payload.EpisodeResultMessage?
    && var r := m.payload.result;
       && ValidResult(r) && r.session == session && r.round == arm.round
       && r.policy == arm.policy && r.observation == n
  }

  predicate IsApplied(m: Message, action: Action) {
    m.version == PROTOCOL_VERSION && m.payload.ActionAppliedMessage?
    && AppliedMatches(m.payload.applied, action)
  }

  predicate Ends(before: Status, after: Status, sent: seq<Message>, session: string) {
    && before.Playing?
    && after == Between(None, Some(before.arm), before.n, before.held.Some?)
    && |sent| == 2
    && IsObservation(sent[0], before.arm, session, before.n, ObservedComplete)
    && IsResult(sent[1], before.arm, session, before.n)
  }

  predicate Begins(before: Status, after: Status, sent: seq<Message>, session: string) {
    && before.Between? && before.pending.Some?
    && after == Playing(before.pending.value, 0, None)
    && |sent| == 2 && IsReady(sent[0], before.pending.value, session)
    && IsObservation(sent[1], before.pending.value, session, 0, ObservedActive)
  }

  predicate Acknowledges(before: Status, after: Status, sent: seq<Message>, session: string) {
    && before.Playing? && before.held.Some?
    && after == Playing(before.arm, before.n + 1, None)
    && |sent| == 2 && IsApplied(sent[0], before.held.value)
    && IsObservation(sent[1], before.arm, session, before.n + 1, ObservedActive)
  }

  predicate Nothing(before: Status, after: Status, sent: seq<Message>) {
    after == before && sent == []
  }

  /** A packet changes no more of the counts than what it carries. */
  lemma ReceiveRecords(s: Sequencer, p: Packet, tick: int)
    ensures var next := Receive(s, p, tick).next;
            var r := Record(s, p);
            && next.latest == Some(p)
            && next.activePlayers == r.activePlayers && next.totalPlayers == r.totalPlayers
  {
  }

  lemma ReceiveAccepts(c: Client, p: Packet)
    requires ClientOk(c) && Lifecycle(c.sequencer.latest, p)
    ensures Receive(c.sequencer, p, c.tick).reply.Ok?
  {
  }

  lemma ReceiveStaysSane(s: Sequencer, p: Packet, tick: int, step: Step<Event>)
    requires SequencerInvariant(s) && Parsed(p) && DirectionIsComplete(p)
    requires step == Receive(s, p, tick) && GoodReceive(s, p, tick, step) && step.reply.Ok?
    requires s.active.Some? ==> SaneCounts(s)
    ensures step.next.active.Some? ==> SaneCounts(step.next)
  {
  }

  /** An eliminated player stays eliminated. */
  lemma EliminationSticks(c: Client, p: Packet, step: Step<Event>)
    requires ClientOk(c) && Lifecycle(c.sequencer.latest, p)
    requires step == Receive(c.sequencer, p, c.tick) && GoodReceive(c.sequencer, p, c.tick, step)
    requires step.reply.Ok?
    ensures var s := step.next;
            s.active.Some? && s.terminalReported && LatestPhase(s) == Some(Active) ==>
              !s.latest.value.playerActive
  {
  }

  predicate ConsistentOutcome(s: Sequencer) {
    TerminalOutcome(s).Ok? ==>
      (TerminalOutcome(s).value.Won? || TerminalOutcome(s).value.Lost? <==> WinnerUuid(s) != "")
  }

  lemma EndEvent(c: Client, next: Sequencer, feetY: real)
    requires ClientOk(c) && SequencerInvariant(next) && EndsEpisode(c.sequencer, next)
    requires SaneCounts(next) && ConsistentOutcome(next)
    ensures var h := FinishEpisode(c.(sequencer := next), feetY);
            && Observed(next, h.client.sequencer)
            && Ends(StatusOf(c.sequencer), StatusOf(h.client.sequencer), h.sent, next.session)
  {
    FinishEpisodeEffect(c.(sequencer := next), feetY);
  }

  lemma BeginEvent(c: Client, p: Packet, next: Sequencer, feetY: real)
    requires ClientOk(c) && SequencerInvariant(next) && SaneCounts(next)
    requires StartsEpisode(c.sequencer, next, p, c.tick)
    ensures var h := BeginEpisode(c.(sequencer := next), feetY);
            && Observed(next, h.client.sequencer)
            && Begins(StatusOf(c.sequencer), StatusOf(h.client.sequencer), h.sent, next.session)
  {
  }

  lemma PacketEvent(c: Client, p: Packet, feetY: real, step: Step<Event>)
    requires ClientOk(c) && GoodReceive(c.sequencer, p, c.tick, step) && step.reply.Ok?
    requires step.next.active.Some? ==> SaneCounts(step.next)
    requires step.reply.value.PlayerEliminated? || step.reply.value.RoundCompleted? ==>
               ConsistentOutcome(step.next)
    ensures var h := AfterPacket(c, p, feetY, step);
            var before, after := StatusOf(c.sequencer), StatusOf(h.client.sequencer);
            var session := c.sequencer.session;
            && h.client.sequencer.session == session
            && Observed(step.next, h.client.sequencer)
            && (Nothing(before, after, h.sent) || Ends(before, after, h.sent, session)
                || Begins(before, after, h.sent, session))
  {
    match step.reply.value
    case EpisodeStarted => BeginEvent(c, p, step.next, feetY);
    case PlayerEliminated => EndEvent(c, step.next, feetY);
    case RoundCompleted => EndEvent(c, step.next, feetY);
    case Cleaned =>
    case NoEvent =>
  }

  lemma TerminalIsConsistent(c: Client, p: Packet, step: Step<Event>)
    requires ClientOk(c) && Lifecycle(c.sequencer.latest, p)
    requires step == Receive(c.sequencer, p, c.tick) && GoodReceive(c.sequencer, p, c.tick, step)
    requires step.reply.Ok? && (step.reply.value.PlayerEliminated? || step.reply.value.RoundCompleted?)
    ensures ConsistentOutcome(step.next)
  {
  }

  /** A packet in lifecycle order is never refused: it does nothing the trainer can see, starts
      the pending episode, or ends the live one with a valid result. */
  lemma PacketEffect(c: Client, p: Packet, feetY: real)
    requires ClientOk(c) && Lifecycle(c.sequencer.latest, p)
    ensures var h := ReceiveYRush(c, p, feetY);
            var before, after := StatusOf(c.sequencer), StatusOf(h.client.sequencer);
            var session := c.sequencer.session;
            && ClientOk(h.client) && h.client.sequencer.session == session
            && (Nothing(before, after, h.sent) || Ends(before, after, h.sent, session)
                || Begins(before, after, h.sent, session))
  {
    var step := Receive(c.sequencer, p, c.tick);
    ReceiveAccepts(c, p);
    ReceiveKeeps(c.sequencer, p, c.tick);
    ReceiveYRushKeeps(c, p, feetY);
    ReceiveStaysSane(c.sequencer, p, c.tick, step);
    EliminationSticks(c, p, step);
    if step.reply.value.PlayerEliminated? || step.reply.value.RoundCompleted? {
      TerminalIsConsistent(c, p, step);
    }
    PacketEvent(c, p, feetY, step);
    KeepsGreeting(c, p, feetY, step);
  }

  lemma KeepsGreeting(c: Client, p: Packet, feetY: real, step: Step<Event>)
    ensures AfterPacket(c, p, feetY, step).client.greeted == c.greeted
    ensures AfterPacket(c, p, feetY, step).client.connected == c.connected
  {
  }

  lemma StartTickEffect(c: Client)
    requires ClientOk(c) && !ActionTimedOut(c.sequencer, c.tick + 1)
    ensures var h := StartTick(c);
            && ClientOk(h.client) && h.client.sequencer.session == c.sequencer.session
            && h.client.sequencer.latest == c.sequencer.latest
            && Nothing(StatusOf(c.sequencer), StatusOf(h.client.sequencer), h.sent)
  {
  }

  lemma EndTickEffect(c: Client, feetY: real)
    requires ClientOk(c)
    ensures var h := EndTick(c, feetY);
            var before, after := StatusOf(c.sequencer), StatusOf(h.client.sequencer);
            && ClientOk(h.client) && h.client.sequencer.session == c.sequencer.session
            && h.client.sequencer.latest == c.sequencer.latest
            && (Nothing(before, after, h.sent)
                || Acknowledges(before, after, h.sent, c.sequencer.session))
  {
  }

  /** The round of the last episode, 0 before the first. */
  function LastRound(status: Status): int {
    if status.Playing? then status.arm.round
    else if status.last.Some? then status.last.value.round
    else 0
  }

  lemma ArmEffect(c: Client, arm: Arm)
    requires ClientOk(c) && StatusOf(c.sequencer).Between? && c.sequencer.pending.None?
    requires arm.version == PROTOCOL_VERSION && arm.session == c.sequencer.session
    requires arm.requestId != 0 && LastRound(StatusOf(c.sequencer)) < arm.round
    ensures var h := ReceiveTrainer(c, Envelope(PROTOCOL_VERSION, ArmEpisode(arm)));
            && ClientOk(h.client) && h.client.sequencer.session == c.sequencer.session
            && h.client.sequencer.latest == c.sequencer.latest && h.sent == []
            && StatusOf(h.client.sequencer)
               == StatusOf(c.sequencer).(pending := Some(arm))
  {
    assert PreviousRound(c.sequencer) == LastRound(StatusOf(c.sequencer));
    assert 0 <= LastRound(StatusOf(c.sequencer));
    ArmAcceptedKeeps(c.sequencer, arm);
    ArmingLeaves(c.sequencer, arm);
  }

  lemma ArmingLeaves(s: Sequencer, arm: Arm)
    ensures var next := Arming(s, arm);
            && next.activePlayers == s.activePlayers && next.totalPlayers == s.totalPlayers
  {
  }

  /** The action that continues an episode with n acknowledged actions. */
  predicate Continues(a: Action, arm: Arm, session: string, n: int) {
    && a.version == PROTOCOL_VERSION && a.session == session && ValidChoices(a.choices)
    && a.round == arm.round && a.policy == arm.policy && a.observation == n && a.number == n + 1
  }

  lemma ActionEffect(c: Client, a: Action)
    requires ClientOk(c)
    requires var status := StatusOf(c.sequencer);
             if status.Playing? then
               status.held.None? && Continues(a, status.arm, c.sequencer.session, status.n)
             else
               status.last.Some? && !status.race
               && Continues(a, status.last.value, c.sequencer.session, status.n)
    ensures var h := ReceiveTrainer(c, Envelope(PROTOCOL_VERSION, ActionRequest(a)));
            var before := StatusOf(c.sequencer);
            && ClientOk(h.client) && h.client.sequencer.session == c.sequencer.session
            && h.client.sequencer.latest == c.sequencer.latest && h.sent == []
            && StatusOf(h.client.sequencer)
               == if before.Playing? then before.(held := Some(a)) else before.(race := true)
  {
  }

  /** The two messages an ending sends, on the state the packet left. */
  lemma FinalMessages(c: Client, p: Packet, feetY: real)
    requires ClientInvariant(c) && Parsed(p) && !MissingCounts(p) && Live(c.sequencer)
    requires p.phase.RoundComplete? || (p.phase.Active? && !p.playerActive)
    ensures var sent, r := ReceiveYRush(c, p, feetY).sent, Record(c.sequencer, p);
            && |sent| == 2 && sent[0].payload.ObservationMessage?
            && sent[1].payload.EpisodeResultMessage?
            && var o, e := sent[0].payload.observed, sent[1].payload.result;
               && o.version == e.version == PROTOCOL_VERSION && 0 < o.round == e.round
               && o.session == e.session == c.sequencer.session
               && o.totalPlayers == e.participantCount == r.totalPlayers
               && o.activePlayers == r.activePlayers
               && e.outcome == (if p.phase.Active? then Eliminated else p.playerOutcome.value)
               && e.winnerUuid == (if p.winnerUuid.Some? then p.winnerUuid.value else "")
               && 0.0 <= e.completionTimeSeconds && 0.0 <= e.bestRemainingDistance
               && ((e.outcome.Won? || e.outcome.Lost? <==> e.winnerUuid != "")
                   <==> p.phase.Active? || OutcomeFitsVerdict(p))
  {
    ReceiveKeeps(c.sequencer, p, c.tick);
    ReceiveRecords(c.sequencer, p, c.tick);
    var step := Receive(c.sequencer, p, c.tick);
    FinishEpisodeEffect(c.(sequencer := step.next), feetY);
  }

  /** Cross-peer validity: the final observation a client builds when a packet ends its episode passes
      the trainer's validation if and only if the session has an id and the counts add up; the result
      if and only if the session has an id, somebody took part, and the player was eliminated in the
      round or its outcome fits the verdict. */
  lemma ResultValidity(c: Client, p: Packet, feetY: real)
    requires ClientInvariant(c) && Parsed(p) && !MissingCounts(p) && Live(c.sequencer)
    requires p.phase.RoundComplete? || (p.phase.Active? && !p.playerActive)
    ensures var sent, r := ReceiveYRush(c, p, feetY).sent, Record(c.sequencer, p);
            && |sent| == 2 && sent[0].payload.ObservationMessage?
            && sent[1].payload.EpisodeResultMessage?
            && (ValidObservation(sent[0].payload.observed) <==>
                  c.sequencer.session != "" && SaneCounts(r))
            && (ValidResult(sent[1].payload.result) <==>
                  c.sequencer.session != "" && 0 < r.totalPlayers
                  && (p.phase.Active? || OutcomeFitsVerdict(p)))
  {
    FinalMessages(c, p, feetY);
  }

  /** A ROUND_COMPLETE after the client's episode ended, by elimination or by an earlier one, is refused
      unless it says ELIMINATED. */
  lemma RepeatedCompletion(c: Client, p: Packet, feetY: real)
    requires ClientInvariant(c) && !c.crashed && Parsed(p) && !MissingCounts(p)
    requires p.phase.RoundComplete?
    requires c.sequencer.active.Some? && c.sequencer.terminalReported
    ensures ReceiveYRush(c, p, feetY).sent == [] <==> p.playerOutcome == Some(Eliminated)
    ensures ReceiveYRush(c, p, feetY).client.sequencer.active.None?
            <==> p.playerOutcome != Some(Eliminated)
  {
  }
}
