/** What the trainer is told, judged by a board that an onlooker keeps from the ticks, the packets and
    the messages alone. */
module ClientReports {
  import opened Common
  import opened Packets
  import opened WireMessages
  import opened SequencerSpec
  import opened ClientSpec
  import opened ClientInvariants

  /** The clock, the round's target and counts by the last packet that named them, the tick of the last
      readiness, and the least distance to the target observed since. */
  datatype Board = Board(
    tick: int, direction: Option<Direction>, targetY: int, activePlayers: int, totalPlayers: int,
    startTick: int, nearest: Option<real>)

  const BLANK := Board(0, None, 0, 0, 0, 0, None)

  function Noted(b: Board, i: Input): Board {
    match i
    case TickStarts => b.(tick := b.tick + 1)
    case FromServer(p, _) =>
      if Parsed(p) && p.direction.Some? && !MissingCounts(p) then
        b.(direction := p.direction, targetY := p.targetY.value,
           activePlayers := p.activePlayers.value, totalPlayers := p.totalPlayers.value)
      else b
    case _ => b
  }

  function Heard(b: Board, m: ToTrainer): Board {
    match m
    case EpisodeReadyMessage(r) => b.(startTick := r.clientTick, nearest := None)
    case ObservationMessage(o) =>
      var distance := Abs(o.heightDifference);
      if b.nearest.Some? && b.nearest.value <= distance then b else b.(nearest := Some(distance))
    case _ => b
  }

  function HeardAll(b: Board, sent: seq<Message>): Board
    decreases |sent|
  {
    if sent == [] then b else HeardAll(Heard(b, sent[0].payload), sent[1..])
  }

  /** Where the player's feet are when the input is handled. */
  function FeetAt(i: Input): real {
    match i
    case FromServer(_, feetY) => feetY
    case TickEnds(feetY) => feetY
    case _ => 0.0
  }

  /** How the packet that ends an episode says it ended: out of a running round, or as it states. */
  predicate Reports(p: Packet, outcome: Outcome, winner: string) {
    && (p.phase.RoundComplete? ==>
          && p.playerOutcome == Some(outcome)
          && (p.winnerUuid.Some? ==> winner == p.winnerUuid.value))
    && (p.phase.Active? ==> !p.playerActive && outcome == Eliminated)
    && (p.winnerUuid.None? ==> winner == "")
    && (p.phase.RoundComplete? || p.phase.Active?)
  }

  /** A trainer or the player arrived, and the greeting is of this arrival's session. */
  predicate Arrives(i: Input, session: string) {
    (i.TrainerConnected? || i.PaperJoined?) && i.session == session
  }

  /** What an error is about: the player's leaving alone can be retried, and only a tick misses a
      deadline. */
  predicate Complains(i: Input, code: ErrorCode, retryable: bool) {
    && (retryable <==> code == MinecraftDisconnected)
    && (retryable <==> i.PaperDisconnected?)
    && (code == ActionTimeout <==> i.TickStarts?)
    && (code == RoundOrdering ==> i.FromServer?)
    && (i.FromServer? || i.FromServerGarbled? ==>
          code == VersionMismatch || code == InvalidMessage || code == RoundOrdering)
    && code != Internal
  }

  /** The message says what the board shows. */
  predicate Tells(b: Board, i: Input, m: ToTrainer) {
    match m
    case EpisodeReadyMessage(r) =>
      && r.clientTick == b.tick && Some(r.direction) == b.direction && r.targetY == b.targetY
      && r.activePlayers == b.activePlayers && r.totalPlayers == b.totalPlayers
    case ObservationMessage(o) =>
      && o.clientTick == b.tick && o.heightDifference == b.targetY as real - FeetAt(i)
      && o.activePlayers == b.activePlayers && o.totalPlayers == b.totalPlayers
    case ActionAppliedMessage(a) => a.clientTick == b.tick
    case EpisodeResultMessage(r) =>
      && r.clientTick == b.tick && r.participantCount == b.totalPlayers
      && b.startTick <= b.tick
      && r.completionTimeSeconds == (b.tick - b.startTick) as real / 20.0
      && b.nearest == Some(r.bestRemainingDistance)
      && i.FromServer? && Reports(i.packet, r.outcome, r.winnerUuid)
    case ConnectionHello(version, session, nonce, tick) =>
      version == PROTOCOL_VERSION && tick == b.tick && Arrives(i, session) && i.nonce == nonce
    case ConnectionReady(version, session, minecraft, uuid, name, tick) =>
      && version == PROTOCOL_VERSION && minecraft == MINECRAFT_VERSION && tick == b.tick
      && Arrives(i, session) && i.uuid == uuid && i.name == name
    case ErrorMessage(code, retryable, _) => Complains(i, code, retryable)
    case ShutdownMessage => false
  }

  predicate TellsAll(b: Board, i: Input, sent: seq<Message>)
    decreases |sent|
  {
    sent == [] || (Tells(b, i, sent[0].payload) && TellsAll(Heard(b, sent[0].payload), i, sent[1..]))
  }

  predicate SameRound(c: Client, b: Board) {
    var s := c.sequencer;
    && c.tick == b.tick && s.direction == b.direction && s.targetY == b.targetY
    && s.activePlayers == b.activePlayers && s.totalPlayers == b.totalPlayers
  }

  predicate SameEpisode(c: Client, b: Board) {
    && c.sequencer.roundStartedTick == b.startTick <= b.tick
    && c.sequencer.bestDistance == b.nearest
  }

  predicate OnBoard(c: Client, b: Board) {
    SameRound(c, b) && (Live(c.sequencer) ==> SameEpisode(c, b))
  }

  /** The input's messages tell the board, and the client agrees with it again. */
  predicate Informs(b: Board, i: Input, h: Handled) {
    var n := Noted(b, i);
    TellsAll(n, i, h.sent) && OnBoard(h.client, HeardAll(n, h.sent))
  }

  lemma OneMessage(b: Board, i: Input, m: Message)
    ensures TellsAll(b, i, [m]) <==> Tells(b, i, m.payload)
    ensures HeardAll(b, [m]) == Heard(b, m.payload)
  {
    assert [m][1..] == [];
  }

  lemma TwoMessages(b: Board, i: Input, m: Message, n: Message)
    ensures TellsAll(b, i, [m, n]) <==> Tells(b, i, m.payload) && Tells(Heard(b, m.payload), i, n.payload)
    ensures HeardAll(b, [m, n]) == Heard(Heard(b, m.payload), n.payload)
  {
    assert [m, n][1..] == [n];
    OneMessage(Heard(b, m.payload), i, n);
  }

  lemma FailureInforms(c: Client, b: Board, i: Input, code: ErrorCode)
    requires OnBoard(c, Noted(b, i)) && Complains(i, code, false)
    ensures Informs(b, i, Failure(c, code))
  {
    OneMessage(Noted(b, i), i, Failure(c, code).sent[0]);
  }

  lemma SilenceInforms(c: Client, b: Board, i: Input)
    requires OnBoard(c, Noted(b, i))
    ensures Informs(b, i, Handled(c, []))
  {
  }

  // ---------------------------------------------------------------- packets

  /** An accepted or refused packet leaves the episode's clock alone, unless it starts an episode. */
  predicate KeepsClock(s: Sequencer, step: Step<Event>, tick: int) {
    var next := step.next;
    && next.latest == s.latest && next.direction == s.direction && next.targetY == s.targetY
    && next.activePlayers == s.activePlayers && next.totalPlayers == s.totalPlayers
    && (step.reply.Violation? ==> step.reply.code == RoundOrdering)
    && if step.reply == Ok(EpisodeStarted) then
         next.roundStartedTick == tick && next.bestDistance.None?
       else next.roundStartedTick == s.roundStartedTick && next.bestDistance == s.bestDistance
  }

  lemma InactiveKeepsClock(s: Sequencer, previous: Option<ServerPhase>, tick: int)
    ensures KeepsClock(s, ReceiveInactive(s, previous), tick)
  {
  }

  lemma CountdownKeepsClock(s: Sequencer, previous: Option<ServerPhase>, tick: int)
    ensures KeepsClock(s, ReceiveCountdown(s, previous), tick)
  {
  }

  lemma ActiveKeepsClock(s: Sequencer, previous: Option<ServerPhase>, p: Packet, tick: int)
    ensures KeepsClock(s, ReceiveActive(s, previous, p, tick), tick)
  {
  }

  lemma CompleteKeepsClock(s: Sequencer, previous: Option<ServerPhase>, p: Packet, tick: int)
    ensures KeepsClock(s, ReceiveComplete(s, previous, p), tick)
  {
  }

  lemma ReceiveKeepsClock(s: Sequencer, p: Packet, tick: int)
    requires !MissingCounts(p)
    ensures KeepsClock(Record(s, p), Receive(s, p, tick), tick)
  {
    var previous, r := LatestPhase(s), Record(s, p);
    match p.phase
    case Inactive => InactiveKeepsClock(r, previous, tick);
    case LockedCountdown => CountdownKeepsClock(r, previous, tick);
    case Active => ActiveKeepsClock(r, previous, p, tick);
    case RoundComplete => CompleteKeepsClock(r, previous, p, tick);
  }

  /** What the sequencer records of a packet is what the board notes. */
  lemma RecordIsNoted(c: Client, b: Board, p: Packet, feetY: real)
    requires OnBoard(c, b) && Parsed(p) && !MissingCounts(p)
    ensures var n, r := Noted(b, FromServer(p, feetY)), Record(c.sequencer, p);
            && r.latest == Some(p) && r.direction == n.direction && r.targetY == n.targetY
            && r.activePlayers == n.activePlayers && r.totalPlayers == n.totalPlayers
            && r.roundStartedTick == c.sequencer.roundStartedTick
            && r.bestDistance == c.sequencer.bestDistance
            && n.tick == b.tick && n.startTick == b.startTick && n.nearest == b.nearest
  {
  }

  // ---------------------------------------------------------------- one message each

  lemma ObservationTells(c: Client, n: Board, i: Input, arm: Arm, phase: ObservedPhase)
    requires SameRound(c, n) && c.sequencer.bestDistance == n.nearest
    ensures var m := ObservationMessage(ObservationOf(c, arm, phase, FeetAt(i)));
            var distance := Abs(c.sequencer.targetY as real - FeetAt(i));
            && Tells(n, i, m)
            && Heard(n, m)
               == n.(nearest := RecordDistance(c.sequencer, distance).bestDistance)
  {
  }

  lemma ReadyTells(c: Client, n: Board, i: Input, arm: Arm)
    requires SameRound(c, n) && c.sequencer.direction.Some?
    ensures var m := EpisodeReadyMessage(ReadyOf(c, arm));
            Tells(n, i, m) && Heard(n, m) == n.(startTick := c.tick, nearest := None)
  {
    assert c.sequencer.direction.value.Up? || c.sequencer.direction.value.Down?;
  }

  /** The outcome and winner a finished sequencer names are the ending packet's. */
  lemma EndReports(s: Sequencer, p: Packet)
    requires s.latest == Some(p) && TerminalOutcome(s).Ok? && Parsed(p)
    requires p.phase.RoundComplete? || (p.phase.Active? && !p.playerActive)
    ensures Reports(p, TerminalOutcome(s).value, WinnerUuid(s))
  {
  }

  lemma ResultTells(c: Client, n: Board, p: Packet, feetY: real, arm: Arm)
    requires SameRound(c, n) && SameEpisode(c, n) && c.sequencer.bestDistance.Some?
    requires TerminalOutcome(c.sequencer).Ok? && Parsed(p) && c.sequencer.latest == Some(p)
    requires p.phase.RoundComplete? || (p.phase.Active? && !p.playerActive)
    ensures var m := EpisodeResultMessage(ResultOf(c, arm, TerminalOutcome(c.sequencer).value));
            Tells(n, FromServer(p, feetY), m) && Heard(n, m) == n
  {
    EndReports(c.sequencer, p);
  }

  // ---------------------------------------------------------------- starts and ends

  lemma StartInforms(c: Client, b: Board, p: Packet, feetY: real)
    requires SequencerInvariant(c.sequencer) && Live(c.sequencer)
    requires SameRound(c, Noted(b, FromServer(p, feetY))) && c.sequencer.direction.Some?
    requires c.sequencer.roundStartedTick == c.tick && c.sequencer.bestDistance.None?
    ensures Informs(b, FromServer(p, feetY), BeginEpisode(c, feetY))
  {
    var i, n := FromServer(p, feetY), Noted(b, FromServer(p, feetY));
    var h, arm := BeginEpisode(c, feetY), c.sequencer.active.value;
    BeginEpisodeEffect(c, feetY);
    ReadyTells(c, n, i, arm);
    ObservationTells(c, Heard(n, h.sent[0].payload), i, arm, ObservedActive);
    TwoMessages(n, i, h.sent[0], h.sent[1]);
  }

  lemma EndInforms(c: Client, b: Board, p: Packet, feetY: real)
    requires SequencerInvariant(c.sequencer) && c.sequencer.active.Some? && !Live(c.sequencer)
    requires TerminalOutcome(c.sequencer).Ok? && Parsed(p) && c.sequencer.latest == Some(p)
    requires p.phase.RoundComplete? || (p.phase.Active? && !p.playerActive)
    requires var n := Noted(b, FromServer(p, feetY)); SameRound(c, n) && SameEpisode(c, n)
    ensures Informs(b, FromServer(p, feetY), FinishEpisode(c, feetY))
  {
    var i, n := FromServer(p, feetY), Noted(b, FromServer(p, feetY));
    var h, arm := FinishEpisode(c, feetY), c.sequencer.active.value;
    FinishEpisodeEffect(c, feetY);
    ObservationTells(c, n, i, arm, ObservedComplete);
    ResultTells(h.client, Heard(n, h.sent[0].payload), p, feetY, arm);
    TwoMessages(n, i, h.sent[0], h.sent[1]);
  }

  lemma EventInforms(c: Client, b: Board, p: Packet, feetY: real, step: Step<Event>)
    requires ClientInvariant(c) && OnBoard(c, b) && Parsed(p) && !MissingCounts(p)
    requires step == Receive(c.sequencer, p, c.tick) && GoodReceive(c.sequencer, p, c.tick, step)
    requires step.reply.Ok?
    ensures Informs(b, FromServer(p, feetY), AfterPacket(c, p, feetY, step))
  {
    var d := c.(sequencer := step.next);
    RecordIsNoted(c, b, p, feetY);
    ReceiveKeepsClock(c.sequencer, p, c.tick);
    match step.reply.value
    case EpisodeStarted => StartInforms(d, b, p, feetY);
    case PlayerEliminated => EndInforms(d, b, p, feetY);
    case RoundCompleted => EndInforms(d, b, p, feetY);
    case Cleaned => SilenceInforms(Release(d), b, FromServer(p, feetY));
    case NoEvent => SilenceInforms(if p.playerActive then d else Release(d), b, FromServer(p, feetY));
  }

  lemma PacketInforms(c: Client, b: Board, p: Packet, feetY: real)
    requires ClientInvariant(c) && !c.crashed && !Poison(FromServer(p, feetY)) && OnBoard(c, b)
    ensures Informs(b, FromServer(p, feetY), ReceiveYRush(c, p, feetY))
  {
    var i := FromServer(p, feetY);
    if !Parsed(p) {
      FailureInforms(c, b, i, ParseError(p).value);
    } else {
      var step := Receive(c.sequencer, p, c.tick);
      ReceiveKeeps(c.sequencer, p, c.tick);
      if step.reply.Violation? {
        RecordIsNoted(c, b, p, feetY);
        ReceiveKeepsClock(c.sequencer, p, c.tick);
        FailureInforms(c.(sequencer := step.next), b, i, step.reply.code);
      } else {
        EventInforms(c, b, p, feetY, step);
      }
    }
  }

  // ---------------------------------------------------------------- the other inputs

  /** Arming touches neither the round nor the episode. */
  lemma ArmingLeavesRound(s: Sequencer, arm: Arm)
    ensures var next := Arming(s, arm);
            && next.direction == s.direction && next.targetY == s.targetY
            && next.activePlayers == s.activePlayers && next.totalPlayers == s.totalPlayers
            && next.roundStartedTick == s.roundStartedTick && next.bestDistance == s.bestDistance
            && next.active == s.active && next.terminalReported == s.terminalReported
  {
  }

  lemma ArmRefusalComplains(s: Sequencer, arm: Arm, m: Envelope<ToClient>)
    ensures var error := ArmError(s, arm);
            error.Some? ==> Complains(FromTrainer(m), error.value, false)
  {
  }

  lemma ArmInforms(c: Client, b: Board, m: Envelope<ToClient>, arm: Arm)
    requires OnBoard(c, b)
    ensures Informs(b, FromTrainer(m), Settle(Release(c), ArmNext(c.sequencer, arm)))
  {
    var error := ArmError(c.sequencer, arm);
    if error.Some? {
      ArmRefusalComplains(c.sequencer, arm, m);
      FailureInforms(Release(c), b, FromTrainer(m), error.value);
    } else if c.sequencer.pending.None? {
      ArmingLeavesRound(c.sequencer, arm);
    }
  }

  lemma ActionInforms(c: Client, b: Board, m: Envelope<ToClient>, a: Action)
    requires ClientInvariant(c) && OnBoard(c, b)
    ensures Informs(b, FromTrainer(m), Settle(c, QueueAction(c.sequencer, a)))
  {
    QueueKeeps(c.sequencer, a);
    var step := QueueAction(c.sequencer, a);
    if step.reply.Violation? { FailureInforms(c, b, FromTrainer(m), step.reply.code); }
  }

  lemma TrainerInforms(c: Client, b: Board, m: Envelope<ToClient>)
    requires ClientInvariant(c) && !c.crashed && c.connected && OnBoard(c, b)
    ensures Informs(b, FromTrainer(m), ReceiveTrainer(c, m))
  {
    if m.version != PROTOCOL_VERSION {
      FailureInforms(c, b, FromTrainer(m), VersionMismatch);
      return;
    }
    match m.payload
    case ArmEpisode(arm) => ArmInforms(c, b, m, arm);
    case ActionRequest(action) => ActionInforms(c, b, m, action);
    case Shutdown =>
    case NotForClient => FailureInforms(c, b, FromTrainer(m), InvalidMessage);
  }

  lemma StartTickInforms(c: Client, b: Board)
    requires ClientInvariant(c) && !c.crashed && OnBoard(c, b)
    ensures Informs(b, TickStarts, StartTick(c))
  {
    var d := c.(tick := c.tick + 1);
    if ActionTimedOut(d.sequencer, d.tick) {
      FailureInforms(d, b, TickStarts, ActionTimeout);
    }
  }

  /** An acknowledgement and the observation after it. */
  lemma AcknowledgementInforms(c: Client, b: Board, feetY: real, a: Action)
    requires Live(c.sequencer) && OnBoard(c, b)
    ensures var observed := SendObservation(c, ObservedActive, feetY);
            var applied := ToTheTrainer(ActionAppliedMessage(AppliedOf(c, a)));
            Informs(b, TickEnds(feetY), observed.(sent := [applied] + observed.sent))
  {
    var i, arm := TickEnds(feetY), c.sequencer.active.value;
    var observed := SendObservation(c, ObservedActive, feetY);
    var applied := ToTheTrainer(ActionAppliedMessage(AppliedOf(c, a)));
    ObservationTells(c, b, i, arm, ObservedActive);
    assert [applied] + observed.sent == [applied, observed.sent[0]];
    TwoMessages(b, i, applied, observed.sent[0]);
  }

  lemma EndTickInforms(c: Client, b: Board, feetY: real)
    requires ClientInvariant(c) && !c.crashed && OnBoard(c, b)
    ensures Informs(b, TickEnds(feetY), EndTick(c, feetY))
  {
    var d := c.(holdTicks := c.holdTicks - 1);
    if c.holdTicks > 0 && d.holdTicks == 0 && d.sequencer.phase == ActionRunning {
      var step := CompleteAction(d.sequencer, d.tick);
      AcknowledgementInforms(Release(d).(sequencer := step.next), b, feetY, step.reply.value);
    }
  }

  /** Every handler tells the trainer exactly what the board shows. */
  lemma HandleInforms(c: Client, b: Board, i: Input)
    requires ClientInvariant(c) && !c.crashed && !Poison(i) && OnBoard(c, b)
    ensures Informs(b, i, Handle(c, i))
  {
    match i
    case FromTrainer(m) => if c.connected { TrainerInforms(c, b, m); }
    case FromServer(p, feetY) => PacketInforms(c, b, p, feetY);
    case TickStarts => StartTickInforms(c, b);
    case TickEnds(feetY) => EndTickInforms(c, b, feetY);
    case TrainerConnected(session, nonce, uuid, name) => GreetingInforms(c, b, i);
    case TrainerConnectedEarly =>
    case PaperJoined(session, nonce, uuid, name) => GreetingInforms(c, b, i);
    case TrainerDisconnected =>
    case PaperDisconnected => OneMessage(b, i, Handle(c, i).sent[0]);
    case FromServerGarbled => FailureInforms(c, b, i, InvalidMessage);
  }

  lemma GreetingInforms(c: Client, b: Board, i: Input)
    requires OnBoard(c, b) && !c.crashed && (i.TrainerConnected? || i.PaperJoined?)
    ensures Informs(b, i, Handle(c, i))
  {
    var h := Handle(c, i);
    if h.sent != [] {
      assert |h.sent| == 2;
      TwoMessages(b, i, h.sent[0], h.sent[1]);
    }
  }

  // ---------------------------------------------------------------- whole runs

  ghost predicate AlwaysTells(c: Client, b: Board, inputs: seq<Input>)
    decreases |inputs|
  {
    inputs != [] ==>
      var h := Handle(c, inputs[0]);
      var n := Noted(b, inputs[0]);
      TellsAll(n, inputs[0], h.sent) && AlwaysTells(h.client, HeardAll(n, h.sent), inputs[1..])
  }

  lemma {:induction false} CrashedTellsNothing(c: Client, b: Board, inputs: seq<Input>)
    requires c.crashed
    ensures AlwaysTells(c, b, inputs)
    decreases |inputs|
  {
    if inputs != [] {
      CrashedTellsNothing(c, Noted(b, inputs[0]), inputs[1..]);
    }
  }

  lemma {:induction false} ReportsAreTrue(c: Client, b: Board, inputs: seq<Input>)
    requires ClientInvariant(c) && !c.crashed && OnBoard(c, b)
    ensures AlwaysTells(c, b, inputs)
    decreases |inputs|
  {
    if inputs != [] {
      var h, n := Handle(c, inputs[0]), Noted(b, inputs[0]);
      HandleKeeps(c, inputs[0]);
      if h.client.crashed {
        assert h.sent == [];
        CrashedTellsNothing(h.client, n, inputs[1..]);
      } else {
        HandleInforms(c, b, inputs[0]);
        ReportsAreTrue(h.client, HeardAll(n, h.sent), inputs[1..]);
      }
    }
  }

  /** In every run of a newly launched client, every message tells the board: an episode ends with the
      outcome and winner of the packet that ended it, the time since its readiness, and the least
      distance of all its observations. */
  lemma EveryReportIsTrue(inputs: seq<Input>)
    ensures AlwaysTells(LAUNCHED, BLANK, inputs)
  {
    ReportsAreTrue(LAUNCHED, BLANK, inputs);
  }
}
