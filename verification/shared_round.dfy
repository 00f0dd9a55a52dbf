/** One trainer and one client joined by two FIFO channels, with a round server feeding the client
    packets: the composed protocol and its inductive invariant. */
module SharedRound {
  import opened Common
  import opened Packets
  import opened WireMessages
  import opened SequencerSpec
  import opened ClientSpec
  import opened ConnectionSpec
  import opened ClientEffects

  type Request = Envelope<ToClient>

  /** `previous` is the environment's current observation while its episode is active and no call
      is in progress. The last three fields only count. */
  datatype System = System(
    client: Client,
    connection: Connection,
    previous: Option<Observation>,
    toClient: seq<Request>,
    toTrainer: seq<Message>,
    episodeActions: int,
    exchanges: seq<StepExchange>,
    asked: int,
    dropped: int)

  /** One atomic step: the trainer starts a call or receives a message, or a client handler runs. */
  datatype Act =
    | TrainerArms(requestId: int, round: int, policy: int)
    | TrainerActs(choices: seq<int>)
    | TrainerReceives
    | ClientReceives
    | ServerSends(packet: Packet, feetY: real)
    | TickBegins
    | TickFinishes(endFeetY: real)

  predicate Enabled(y: System, act: Act) {
    match act
    case TrainerArms(requestId, round, policy) =>
      y.connection.call.NoCall? && y.previous.None? && requestId != 0 && y.connection.round < round
    case TrainerActs(choices) =>
      y.connection.call.NoCall? && y.previous.Some? && ValidChoices(choices)
    case TrainerReceives => Awaiting(y.connection) && y.toTrainer != []
    case ClientReceives => y.toClient != []
    case ServerSends(p, feetY) => Lifecycle(y.client.sequencer.latest, p)
    case TickBegins => !ActionTimedOut(y.client.sequencer, y.client.tick + 1)
    case TickFinishes(feetY) => true
  }

  /** An action the client gives up: held when its episode ended, or arriving after. */
  function Drop(before: Status, after: Status): int {
    if before.Playing? && after.Between? then (if before.held.Some? then 1 else 0)
    else if before.Between? && after.Between? && !before.race && after.race then 1
    else 0
  }

  function ClientDid(y: System, h: Handled): System {
    y.(client := h.client, toTrainer := y.toTrainer + h.sent,
       dropped := y.dropped
         + Drop(StatusOf(y.client.sequencer), StatusOf(h.client.sequencer)))
  }

  /** A finished call hands its outcome to the environment. */
  function Settled(y: System): System {
    match y.connection.call
    case ArmDone(o) =>
      y.(connection := y.connection.(call := NoCall), previous := Some(o), episodeActions := 0)
    case StepDone(x) =>
      y.(connection := y.connection.(call := NoCall),
         previous := if x.result.None? then Some(x.observation) else None,
         episodeActions := y.episodeActions + (if x.applied then 1 else 0),
         exchanges := y.exchanges + [x])
    case _ => y
  }

  function Next(y: System, act: Act): System
    requires Enabled(y, act)
  {
    match act
    case TrainerArms(requestId, round, policy) =>
      var request := ArmRequest(y.connection, requestId, round, policy);
      y.(connection := y.connection.(call := ArmCall(request, None)),
         toClient := y.toClient + [Envelope(PROTOCOL_VERSION, ArmEpisode(request))])
    case TrainerActs(choices) =>
      var o := y.previous.value;
      var action := StepRequest(y.connection, o, o.number + 1, choices);
      y.(connection := y.connection.(call := StepCall(action, false, None, None)),
         previous := None, asked := y.asked + 1,
         toClient := y.toClient + [Envelope(PROTOCOL_VERSION, ActionRequest(action))])
    case TrainerReceives =>
      Settled(y.(connection := Deliver(y.connection, y.toTrainer[0]), toTrainer := y.toTrainer[1..]))
    case ClientReceives =>
      ClientDid(y.(toClient := y.toClient[1..]), ReceiveTrainer(y.client, y.toClient[0]))
    case ServerSends(p, feetY) => ClientDid(y, ReceiveYRush(y.client, p, feetY))
    case TickBegins => ClientDid(y, StartTick(y.client))
    case TickFinishes(feetY) => ClientDid(y, EndTick(y.client, feetY))
  }

  /** Nothing has gone wrong: no exception, no protocol error on its way, no reset client. */
  predicate Safe(y: System) {
    && !y.connection.call.Raised? && !y.client.crashed
    && forall k :: 0 <= k < |y.toTrainer| ==> !y.toTrainer[k].payload.ErrorMessage?
  }

  // ---------------------------------------------------------------- the invariant's shapes

  function ActionMessage(a: Action): Request {
    Envelope(PROTOCOL_VERSION, ActionRequest(a))
  }

  /** An ended episode whose spare action has not reached the client. */
  predicate Owed(status: Status) {
    status.Between? && status.last.Some? && !status.race
  }

  /** What is on its way to a client between episodes. */
  predicate Spare(status: Status, session: string, requests: seq<Request>) {
    if Owed(status) then
      && |requests| == 1 && requests[0].payload.ActionRequest?
      && requests[0] == ActionMessage(requests[0].payload.action)
      && Continues(requests[0].payload.action, status.last.value, session, status.n)
    else requests == []
  }

  /** The episode with n acknowledged actions and none under way: live, or ended with its last two
      messages still to be received. */
  predicate At(status: Status, arm: Arm, n: int, session: string, messages: seq<Message>) {
    if status.Playing? then
      status == Playing(arm, n, None) && messages == []
    else
      status == Between(None, Some(arm), n, false) && Finale(arm, n, session, messages)
  }

  predicate Finale(arm: Arm, n: int, session: string, messages: seq<Message>) {
    && |messages| == 2
    && IsObservation(messages[0], arm, session, n, ObservedComplete)
    && IsResult(messages[1], arm, session, n)
  }

  function ArmOf(status: Status): Option<Arm> {
    if status.Playing? then Some(status.arm) else status.last
  }

  predicate IsHello(m: Message, session: string) {
    m.version == PROTOCOL_VERSION && m.payload.ConnectionHello?
    && m.payload.helloVersion == PROTOCOL_VERSION
    && m.payload.helloSession == session && session != "" && m.payload.nonce != ""
  }

  predicate IsIdentity(m: Message, session: string) {
    m.version == PROTOCOL_VERSION && m.payload.ConnectionReady?
    && m.payload.readyVersion == PROTOCOL_VERSION && m.payload.readySession == session
    && m.payload.minecraft == MINECRAFT_VERSION
    && m.payload.playerUuid != "" && m.payload.playerName != ""
  }

  /** Handshaking: `balance` is finished episodes minus dropped actions. */
  predicate GreetingShape(
      status: Status, session: string, hello: Option<string>,
      requests: seq<Request>, messages: seq<Message>, balance: int)
  {
    && status.Between? && status.pending.None? && status.last.None? && !status.race
    && requests == [] && balance == 0
    && (if hello.None? then
          |messages| == 2 && IsHello(messages[0], session) && IsIdentity(messages[1], session)
        else |messages| == 1 && IsIdentity(messages[0], session))
  }

  predicate RestShape(
      status: Status, session: string, requests: seq<Request>, messages: seq<Message>,
      acknowledged: int, balance: int)
  {
    && status.Between? && status.pending.None? && messages == []
    && Spare(status, session, requests)
    && balance == (if Owed(status) then 1 else 0)
    && (status.last.Some? ==> acknowledged == status.n)
  }

  predicate ArmSent(
      status: Status, session: string, arm: Arm, requests: seq<Request>, messages: seq<Message>,
      balance: int)
  {
    && status.Between? && status.pending.None? && messages == []
    && requests != [] && requests[|requests| - 1] == Envelope(PROTOCOL_VERSION, ArmEpisode(arm))
    && Spare(status, session, requests[..|requests| - 1])
    && LastRound(status) < arm.round
    && balance == (if Owed(status) then 1 else 0)
  }

  predicate ArmPending(
      status: Status, arm: Arm, requests: seq<Request>, messages: seq<Message>, balance: int)
  {
    status.Between? && status.pending == Some(arm) && requests == [] && messages == [] && balance == 0
  }

  predicate ArmAnswered(
      status: Status, session: string, arm: Arm, ready: bool, requests: seq<Request>,
      messages: seq<Message>, balance: int)
  {
    var from := if ready then 0 else 1;
    && requests == [] && from < |messages| && balance == 0
    && (!ready ==> IsReady(messages[0], arm, session))
    && IsObservation(messages[from], arm, session, 0, ObservedActive)
    && At(status, arm, 0, session, messages[from + 1..])
  }

  predicate ArmShape(
      status: Status, session: string, arm: Arm, ready: bool, requests: seq<Request>,
      messages: seq<Message>, balance: int)
  {
    && arm.version == PROTOCOL_VERSION && arm.session == session && arm.requestId != 0
    && 0 < arm.round
    && (|| (!ready && ArmSent(status, session, arm, requests, messages, balance))
        || (!ready && ArmPending(status, arm, requests, messages, balance))
        || ArmAnswered(status, session, arm, ready, requests, messages, balance))
  }

  predicate DecideShape(
      status: Status, session: string, o: Observation, requests: seq<Request>,
      messages: seq<Message>, acknowledged: int, balance: int)
  {
    && ArmOf(status).Some?
    && o.session == session && o.round == ArmOf(status).value.round
    && o.policy == ArmOf(status).value.policy && o.observation == o.number
    && requests == [] && At(status, ArmOf(status).value, o.number, session, messages)
    && acknowledged == o.number && balance == 0
  }

  /** The client has not seen the action. */
  predicate ActionSent(
      status: Status, session: string, arm: Arm, a: Action, requests: seq<Request>,
      messages: seq<Message>, balance: int)
  {
    && requests == [ActionMessage(a)] && At(status, arm, a.observation, session, messages)
    && balance == 0
  }

  /** The client holds the action, or held it when the episode ended, or absorbed it after. */
  predicate ActionTaken(
      status: Status, session: string, arm: Arm, a: Action, requests: seq<Request>,
      messages: seq<Message>, balance: int)
  {
    && requests == []
    && (|| (status == Playing(arm, a.observation, Some(a)) && messages == [] && balance == 0)
        || (status == Between(None, Some(arm), a.observation, true)
            && Finale(arm, a.observation, session, messages) && balance == -1))
  }

  predicate ActionAnswered(
      status: Status, session: string, arm: Arm, a: Action, applied: bool,
      requests: seq<Request>, messages: seq<Message>, balance: int)
  {
    var from := if applied then 0 else 1;
    && requests == [] && from < |messages| && balance == 0
    && (!applied ==> IsApplied(messages[0], a))
    && IsObservation(messages[from], arm, session, a.number, ObservedActive)
    && At(status, arm, a.number, session, messages[from + 1..])
  }

  /** The final observation was received, its result was not. */
  predicate ResultComing(
      status: Status, session: string, arm: Arm, a: Action, requests: seq<Request>,
      messages: seq<Message>, balance: int)
  {
    && status.Between? && status.pending.None? && status.last == Some(arm)
    && status.n == a.observation
    && |messages| == 1 && IsResult(messages[0], arm, session, a.observation)
    && requests == (if status.race then [] else [ActionMessage(a)])
    && balance == (if status.race then -1 else 0)
  }

  predicate StepShape(
      status: Status, session: string, call: Call, requests: seq<Request>,
      messages: seq<Message>, acknowledged: int, balance: int)
    requires call.StepCall?
  {
    var StepCall(a, applied, terminal, result) := call;
    && ArmOf(status).Some? && result.None?
    && acknowledged == a.observation
    && Continues(a, ArmOf(status).value, session, a.observation)
    && var arm := ArmOf(status).value;
       if terminal.Some? then
         !applied && ResultComing(status, session, arm, a, requests, messages, balance)
       else
         || (!applied && ActionSent(status, session, arm, a, requests, messages, balance))
         || (!applied && ActionTaken(status, session, arm, a, requests, messages, balance))
         || ActionAnswered(status, session, arm, a, applied, requests, messages, balance)
  }

  /** How the trainer, both channels and the client's status fit together. */
  predicate Shape(
      status: Status, session: string, k: Connection, previous: Option<Observation>,
      requests: seq<Request>, messages: seq<Message>, acknowledged: int, balance: int)
  {
    && (k.call.Greeting? || k.session == session)
    && (previous.Some? ==> k.call.NoCall?)
    && (status.Between? && status.last.None? ==> !status.race)
    && match k.call
       case Greeting(hello) =>
         && GreetingShape(status, session, hello, requests, messages, balance)
         && (hello.Some? ==> k.session == session) && k.round == 0
       case NoCall =>
         (if previous.None? then
            RestShape(status, session, requests, messages, acknowledged, balance)
          else
            DecideShape(status, session, previous.value, requests, messages, acknowledged, balance))
         && k.round == LastRound(status)
       case ArmCall(arm, ready) =>
         ArmShape(status, session, arm, ready.Some?, requests, messages, balance)
       case StepCall(_, _, _, _) =>
         && StepShape(status, session, k.call, requests, messages, acknowledged, balance)
         && k.round == LastRound(status)
       case _ => false
  }
}
