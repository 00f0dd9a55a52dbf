/** The Fabric client on the values its handlers read and write: every handler as a function from
    the client before to the client after and the messages it sent. The player is present and the
    trainer connected throughout. */
module ClientSpec {
  import opened Common
  import opened Packets
  import opened WireMessages
  import opened SequencerSpec

  type Message = Envelope<ToTrainer>

  /** The latched keys a held action presses. */
  datatype Inputs = Inputs(forwardAxis: int, strafeAxis: int, jump: bool, attack: bool)

  const NEUTRAL := Inputs(0, 0, false, false)

  predicate GoesForward(i: Inputs) {
    i.forwardAxis > 0
  }

  predicate GoesBackward(i: Inputs) {
    i.forwardAxis < 0
  }

  predicate GoesLeft(i: Inputs) {
    i.strafeAxis < 0
  }

  predicate GoesRight(i: Inputs) {
    i.strafeAxis > 0
  }

  function InputsFor(choices: seq<int>): Inputs
    requires ValidChoices(choices)
  {
    Inputs(choices[0] - 1, choices[1] - 1, choices[2] == 1, choices[3] == 1)
  }

  /** holdTicks counts down an applied action; connected says whether a trainer's connection is open,
      greeted whether it was greeted; crashed records an exception no handler catches. Messages sent
      without a connection reach nobody. */
  datatype Client = Client(
    sequencer: Sequencer,
    tick: int,
    holdTicks: int,
    inputs: Inputs,
    connected: bool,
    greeted: bool,
    crashed: bool)

  datatype Handled = Handled(client: Client, sent: seq<Message>)

  /** What can happen to the client. Server packets arrive decoded, or garbled: no text, no JSON or
      fields of the wrong kind. Trainer messages arrive enveloped. A trainer that connects early
      finds no player in the game yet. */
  datatype Input =
    | FromTrainer(message: Envelope<ToClient>)
    | FromServer(packet: Packet, feetY: real)
    | FromServerGarbled
    | TickStarts
    | TickEnds(endFeetY: real)
    | TrainerConnected(session: string, nonce: string, uuid: string, name: string)
    | TrainerConnectedEarly
    | PaperJoined(session: string, nonce: string, uuid: string, name: string)
    | TrainerDisconnected
    | PaperDisconnected

  function Release(c: Client): Client {
    c.(holdTicks := 0, inputs := NEUTRAL)
  }

  function Crash(h: Handled): Handled {
    h.(client := h.client.(crashed := true))
  }

  function Failure(c: Client, code: ErrorCode): Handled {
    Handled(Release(c).(sequencer := Abort(c.sequencer)),
            [ToTheTrainer(ErrorMessage(code, false, c.sequencer.active))])
  }

  function Greet(c: Client, session: string, nonce: string, uuid: string, name: string): Handled {
    if !c.connected || c.greeted then Handled(c, [])
    else Handled(
      c.(sequencer := StartSession(c.sequencer, session), greeted := true),
      [ToTheTrainer(ConnectionHello(PROTOCOL_VERSION, session, nonce, c.tick)),
       ToTheTrainer(ConnectionReady(PROTOCOL_VERSION, session, MINECRAFT_VERSION, uuid, name, c.tick))])
  }

  /** The listener serves one connection at a time. */
  function Connect(c: Client, session: string, nonce: string, uuid: string, name: string): Handled {
    if c.connected then Handled(c, [])
    else Greet(c.(connected := true), session, nonce, uuid, name)
  }

  function Join(c: Client, session: string, nonce: string, uuid: string, name: string): Handled {
    Greet(Release(c), session, nonce, uuid, name)
  }

  function Disconnect(c: Client): Handled {
    Handled(Release(c).(sequencer := Abort(c.sequencer), connected := false, greeted := false), [])
  }

  /** The session id stays, and so does the trainer's connection. */
  function LosePaper(c: Client): Handled {
    Handled(Release(c).(sequencer := Abort(c.sequencer), greeted := false),
            [ToTheTrainer(ErrorMessage(MinecraftDisconnected, true, c.sequencer.active))])
  }

  function ObservationOf(c: Client, arm: Arm, phase: ObservedPhase, feetY: real): Observation {
    Observation(
      PROTOCOL_VERSION, c.sequencer.session, arm.round, arm.policy, c.tick,
      c.sequencer.observationSequence, c.sequencer.actionSequence, phase,
      c.sequencer.targetY as real - feetY, c.sequencer.activePlayers, c.sequencer.totalPlayers)
  }

  function SendObservation(c: Client, phase: ObservedPhase, feetY: real): Handled {
    match c.sequencer.active
    case None => Failure(c, Internal)
    case Some(arm) => Handled(
      c.(sequencer := RecordDistance(c.sequencer, Abs(c.sequencer.targetY as real - feetY))),
      [ToTheTrainer(ObservationMessage(ObservationOf(c, arm, phase, feetY)))])
  }

  function ReadyOf(c: Client, arm: Arm): EpisodeReady {
    EpisodeReady(
      PROTOCOL_VERSION, arm.requestId, c.sequencer.session, arm.round, arm.policy, c.tick,
      if c.sequencer.direction == Some(Up) then Up else Down,
      c.sequencer.targetY, c.sequencer.activePlayers, c.sequencer.totalPlayers, ACTION_HOLD_TICKS)
  }

  function BeginEpisode(c: Client, feetY: real): Handled {
    match c.sequencer.active
    case None => Crash(Handled(Release(c), []))
    case Some(arm) =>
      var observed := SendObservation(Release(c), ObservedActive, feetY);
      observed.(sent := [ToTheTrainer(EpisodeReadyMessage(ReadyOf(c, arm)))] + observed.sent)
  }

  function ResultOf(c: Client, arm: Arm, outcome: Outcome): EpisodeResult {
    var elapsed := c.tick - c.sequencer.roundStartedTick;
    EpisodeResult(
      PROTOCOL_VERSION, c.sequencer.session, arm.round, arm.policy, c.tick,
      c.sequencer.observationSequence, outcome, WinnerUuid(c.sequencer), c.sequencer.totalPlayers,
      if elapsed <= 0 then 0.0 else elapsed as real / 20.0,
      if c.sequencer.bestDistance.Some? then c.sequencer.bestDistance.value else 0.0)
  }

  function FinishEpisode(c: Client, feetY: real): Handled {
    var observed := SendObservation(Release(c), ObservedComplete, feetY);
    var d := observed.client;
    match (d.sequencer.active, TerminalOutcome(d.sequencer))
    case (None, _) => Crash(observed)
    case (_, Fault) => Crash(observed)
    case (_, Violation(code)) =>
      var failed := Failure(d, code);
      failed.(sent := observed.sent + failed.sent)
    case (Some(arm), Ok(outcome)) =>
      Handled(d, observed.sent + [ToTheTrainer(EpisodeResultMessage(ResultOf(d, arm, outcome)))])
  }

  /** What the handler does once the sequencer has answered a packet. */
  function AfterPacket(c: Client, p: Packet, feetY: real, step: Step<Event>): Handled {
    var d := c.(sequencer := step.next);
    match step.reply
    case Fault => Crash(Handled(d, []))
    case Violation(code) => Failure(d, code)
    case Ok(event) => AfterEvent(d, p, feetY, event)
  }

  /** What an accepted packet makes the client do. */
  function AfterEvent(c: Client, p: Packet, feetY: real, event: Event): Handled {
    match event
    case EpisodeStarted => BeginEpisode(c, feetY)
    case PlayerEliminated => FinishEpisode(c, feetY)
    case RoundCompleted => FinishEpisode(c, feetY)
    case Cleaned => Handled(Release(c), [])
    case NoEvent => Handled(if p.playerActive then c else Release(c), [])
  }

  function ReceiveYRush(c: Client, p: Packet, feetY: real): Handled {
    var parseError := ParseError(p);
    if parseError.Some? then Failure(c, parseError.value)
    else AfterPacket(c, p, feetY, Receive(c.sequencer, p, c.tick))
  }

  function Settle<T>(c: Client, step: Step<T>): Handled {
    var d := c.(sequencer := step.next);
    match step.reply
    case Ok(_) => Handled(d, [])
    case Violation(code) => Failure(d, code)
    case Fault => Crash(Handled(d, []))
  }

  function ReceiveTrainer(c: Client, m: Envelope<ToClient>): Handled {
    if m.version != PROTOCOL_VERSION then Failure(c, VersionMismatch)
    else match m.payload
      case ArmEpisode(arm) => Settle(Release(c), ArmNext(c.sequencer, arm))
      case ActionRequest(action) => Settle(c, QueueAction(c.sequencer, action))
      case Shutdown => Handled(Release(c).(sequencer := Abort(c.sequencer)), [])
      case NotForClient => Failure(c, InvalidMessage)
  }

  function StartTick(c: Client): Handled {
    var d := c.(tick := c.tick + 1);
    if ActionTimedOut(d.sequencer, d.tick) then Failure(d, ActionTimeout)
    else if d.sequencer.phase != ActionQueued || d.sequencer.queued.None? then
      Handled(d.(sequencer := BeginAction(d.sequencer)), [])
    else
      var begun := d.(sequencer := BeginAction(d.sequencer));
      var choices := d.sequencer.queued.value.choices;
      if !ValidChoices(choices) then Crash(Handled(begun, []))
      else Handled(begun.(inputs := InputsFor(choices), holdTicks := ACTION_HOLD_TICKS), [])
  }

  function AppliedOf(c: Client, a: Action): Applied {
    Applied(PROTOCOL_VERSION, c.sequencer.session, a.round, a.policy, c.tick, a.observation, a.number,
            a.choices, ACTION_HOLD_TICKS)
  }

  function EndTick(c: Client, feetY: real): Handled {
    if c.holdTicks <= 0 then Handled(c, [])
    else
      var d := c.(holdTicks := c.holdTicks - 1);
      if d.holdTicks > 0 || d.sequencer.phase != ActionRunning then Handled(d, [])
      else
        var step := CompleteAction(d.sequencer, d.tick);
        var e := Release(d).(sequencer := step.next);
        if !step.reply.Ok? then Crash(Handled(e, []))
        else
          var observed := SendObservation(e, ObservedActive, feetY);
          observed.(sent := [ToTheTrainer(ActionAppliedMessage(AppliedOf(e, step.reply.value)))]
                            + observed.sent)
  }

  /** One input. A crashed client does nothing more; a trainer's messages are read whenever it is
      connected, greeted or not. A greeted client has its player in the game, so the game tells it of
      no other join before the player has left. */
  function Handle(c: Client, i: Input): Handled {
    if c.crashed then Handled(c, [])
    else match i
      case FromTrainer(m) => if c.connected then ReceiveTrainer(c, m) else Handled(c, [])
      case FromServer(p, feetY) => ReceiveYRush(c, p, feetY)
      case FromServerGarbled => Failure(c, InvalidMessage)
      case TickStarts => StartTick(c)
      case TickEnds(feetY) => EndTick(c, feetY)
      case TrainerConnected(session, nonce, uuid, name) => Connect(c, session, nonce, uuid, name)
      case TrainerConnectedEarly => Handled(c.(connected := true), [])
      case PaperJoined(session, nonce, uuid, name) =>
        if c.greeted then Handled(c, []) else Join(c, session, nonce, uuid, name)
      case TrainerDisconnected => Disconnect(c)
      case PaperDisconnected => LosePaper(c)
  }

  const LAUNCHED := Client(INITIAL, 0, 0, NEUTRAL, false, false, false)

  function Run(c: Client, inputs: seq<Input>): Client
    decreases |inputs|
  {
    if inputs == [] then c else Run(Handle(c, inputs[0]).client, inputs[1..])
  }
}
