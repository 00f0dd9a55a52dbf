/** The trainer's end of the wire: what each received message does to a call in progress. */
module ConnectionSpec {
  import opened Common
  import opened Packets
  import opened WireMessages

  datatype WireError = ProtocolState | Infrastructure | TimedOut | BadAction

  datatype StepExchange = StepExchange(
    observation: Observation, result: Option<EpisodeResult>, applied: bool)

  /** The blocking call the trainer is inside, or how the last one ended. */
  datatype Call =
    | NoCall
    | Greeting(hello: Option<string>)
    | ArmCall(request: Arm, ready: Option<EpisodeReady>)
    | StepCall(
        action: Action, applied: bool, terminal: Option<Observation>, result: Option<EpisodeResult>)
    | ArmDone(initial: Observation)
    | StepDone(exchange: StepExchange)
    | Raised(error: WireError)

  datatype Connection = Connection(
    session: string,
    playerUuid: string,
    playerName: string,
    tick: int,
    round: int,
    policy: int,
    direction: Option<Direction>,
    targetY: int,
    call: Call)

  const OPENED := Connection("", "", "", 0, 0, 0, None, 0, Greeting(None))

  predicate Awaiting(k: Connection) {
    k.call.Greeting? || k.call.ArmCall? || k.call.StepCall?
  }

  function Max(a: int, b: int): int {
    if a < b then b else a
  }

  function Raise(k: Connection, error: WireError): Connection {
    k.(call := Raised(error))
  }

  predicate ValidObservation(o: Observation) {
    && o.version == PROTOCOL_VERSION && o.session != "" && 0 < o.round
    && 0 < o.totalPlayers && 0 <= o.activePlayers <= o.totalPlayers
  }

  predicate ValidResult(r: EpisodeResult) {
    && r.version == PROTOCOL_VERSION && r.session != "" && 0 < r.round
    && 0 < r.participantCount
    && (r.outcome.Won? || r.outcome.Lost? <==> r.winnerUuid != "")
    && 0.0 <= r.completionTimeSeconds && 0.0 <= r.bestRemainingDistance
  }

  predicate ReadyMatches(session: string, ready: EpisodeReady, request: Arm) {
    && ready.version == PROTOCOL_VERSION && ready.requestId == request.requestId
    && ready.session == session && ready.round == request.round && ready.policy == request.policy
    && ready.holdTicks == ACTION_HOLD_TICKS
    && 0 < ready.totalPlayers && 0 <= ready.activePlayers <= ready.totalPlayers
  }

  predicate InitialMatches(session: string, o: Observation, request: Arm) {
    && o.session == session && o.round == request.round && o.policy == request.policy
    && o.observation == 0 && o.number == 0 && o.phase.ObservedActive?
  }

  predicate AppliedMatches(applied: Applied, action: Action) {
    && applied.version == PROTOCOL_VERSION && applied.session == action.session
    && applied.round == action.round && applied.policy == action.policy
    && applied.observation == action.observation && applied.number == action.number
    && applied.choices == action.choices && applied.holdTicks == ACTION_HOLD_TICKS
  }

  /** The sequence number a step's observation or result must carry. */
  function Expected(action: Action, applied: bool): int {
    if applied then action.number else action.observation
  }

  predicate ObservationMatches(session: string, o: Observation, action: Action, applied: bool) {
    && o.session == session && o.round == action.round && o.policy == action.policy
    && o.observation == Expected(action, applied) && o.number == Expected(action, applied)
  }

  predicate ResultMatches(session: string, r: EpisodeResult, action: Action, applied: bool) {
    && r.session == session && r.round == action.round && r.policy == action.policy
    && r.observation == Expected(action, applied)
  }

  function DeliverGreeting(k: Connection, p: ToTrainer): Connection
    requires k.call.Greeting?
  {
    match p
    case ConnectionHello(version, session, nonce, tick) =>
      if k.call.hello.Some? || version != PROTOCOL_VERSION || session == "" || nonce == "" then
        Raise(k, ProtocolState)
      else k.(session := session, tick := tick, call := Greeting(Some(session)))
    case ConnectionReady(version, session, minecraft, uuid, name, tick) =>
      if k.call.hello.None? || version != PROTOCOL_VERSION || session != k.session
         || minecraft != MINECRAFT_VERSION || uuid == "" || name == "" then
        Raise(k, ProtocolState)
      else k.(playerUuid := uuid, playerName := name, tick := Max(k.tick, tick), call := NoCall)
    case _ => Raise(k, ProtocolState)
  }

  function DeliverArming(k: Connection, p: ToTrainer): Connection
    requires k.call.ArmCall?
  {
    var request := k.call.request;
    match p
    case EpisodeReadyMessage(ready) =>
      if k.call.ready.Some? || !ReadyMatches(k.session, ready, request) then Raise(k, ProtocolState)
      else k.(tick := Max(k.tick, ready.clientTick), call := ArmCall(request, Some(ready)))
    case ObservationMessage(o) =>
      if k.call.ready.None? || !ValidObservation(o) then Raise(k, ProtocolState)
      else if o.round < request.round then k
      else if !InitialMatches(k.session, o, request) then Raise(k, ProtocolState)
      else k.(round := request.round, policy := request.policy,
              direction := Some(k.call.ready.value.direction),
              targetY := k.call.ready.value.targetY, tick := o.clientTick, call := ArmDone(o))
    case EpisodeResultMessage(r) =>
      if !ValidResult(r) || r.round >= request.round then Raise(k, ProtocolState) else k
    case _ => Raise(k, ProtocolState)
  }

  function DeliverStepping(k: Connection, p: ToTrainer): Connection
    requires k.call.StepCall?
  {
    var StepCall(action, applied, terminal, result) := k.call;
    match p
    case ActionAppliedMessage(a) =>
      if applied || !AppliedMatches(a, action) then Raise(k, ProtocolState)
      else k.(tick := Max(k.tick, a.clientTick), call := StepCall(action, true, terminal, result))
    case ObservationMessage(o) =>
      if !ValidObservation(o) || !ObservationMatches(k.session, o, action, applied) then
        Raise(k, ProtocolState)
      else
        var seen := k.(tick := o.clientTick);
        if o.phase.ObservedActive? then
          if !applied then Raise(seen, ProtocolState)
          else seen.(call := StepDone(StepExchange(o, None, true)))
        else if result.Some? then seen.(call := StepDone(StepExchange(o, result, applied)))
        else seen.(call := StepCall(action, applied, Some(o), result))
    case EpisodeResultMessage(r) =>
      if !ValidResult(r) || !ResultMatches(k.session, r, action, applied) then Raise(k, ProtocolState)
      else if terminal.Some? then
        k.(call := StepDone(StepExchange(terminal.value, Some(r), applied)))
      else k.(call := StepCall(action, applied, terminal, Some(r)))
    case _ => Raise(k, ProtocolState)
  }

  /** One received message. */
  function Deliver(k: Connection, m: Envelope<ToTrainer>): Connection
    requires Awaiting(k)
  {
    if m.version != PROTOCOL_VERSION then Raise(k, ProtocolState)
    else if m.payload.ErrorMessage? || m.payload.ShutdownMessage? then Raise(k, Infrastructure)
    else match k.call
      case Greeting(_) => DeliverGreeting(k, m.payload)
      case ArmCall(_, _) => DeliverArming(k, m.payload)
      case StepCall(_, _, _, _) => DeliverStepping(k, m.payload)
  }

  /** A call blocks on the incoming messages until it ends; running out of them is a timeout. */
  function Await(k: Connection, inbox: seq<Envelope<ToTrainer>>)
    : (r: (Connection, seq<Envelope<ToTrainer>>))
    ensures !Awaiting(r.0) && |r.1| <= |inbox|
    ensures r.1 == inbox[|inbox| - |r.1|..]
    decreases |inbox|
  {
    if !Awaiting(k) then (k, inbox)
    else if inbox == [] then (Raise(k, TimedOut), [])
    else Await(Deliver(k, inbox[0]), inbox[1..])
  }

  function ArmRequest(k: Connection, requestId: int, round: int, policy: int): Arm {
    Arm(PROTOCOL_VERSION, requestId, k.session, round, policy, k.tick)
  }

  function StepRequest(k: Connection, previous: Observation, number: int, choices: seq<int>): Action {
    Action(PROTOCOL_VERSION, k.session, previous.round, previous.policy, previous.clientTick,
           previous.observation, number, choices)
  }
}
