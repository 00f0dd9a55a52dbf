/** Safety of the composed protocol: the invariant is inductive, and what it says. */
module SharedRoundSafety {
  import opened Common
  import opened WireMessages
  import opened ClientSpec
  import opened ClientInvariants
  import opened ConnectionSpec
  import opened ClientEffects
  import opened SharedRound

  /** The moves a client makes on its own. */
  predicate Moves(before: Status, after: Status, sent: seq<Message>, session: string) {
    || Nothing(before, after, sent)
    || Ends(before, after, sent, session)
    || Begins(before, after, sent, session)
    || Acknowledges(before, after, sent, session)
  }

  /** Whatever the client does on its own, the parts still fit. */
  lemma ClientMoves(before: Status, after: Status, sent: seq<Message>, session: string,
                    k: Connection, previous: Option<Observation>, requests: seq<Request>,
                    messages: seq<Message>, acknowledged: int, balance: int)
    requires Shape(before, session, k, previous, requests, messages, acknowledged, balance)
    requires Moves(before, after, sent, session)
    ensures Shape(after, session, k, previous, requests, messages + sent, acknowledged,
                  balance - Drop(before, after))
  {
  }

  /** What hearing the next request does to a status. */
  function Heard(status: Status, request: Request): Status {
    match request.payload
    case ArmEpisode(arm) => if status.Between? then status.(pending := Some(arm)) else status
    case ActionRequest(a) =>
      if status.Playing? then status.(held := Some(a)) else status.(race := true)
    case _ => status
  }

  /** The next request is one the client accepts. */
  predicate Welcome(status: Status, session: string, request: Request) {
    && request.version == PROTOCOL_VERSION
    && match request.payload
       case ArmEpisode(arm) =>
         && status.Between? && status.pending.None?
         && arm.version == PROTOCOL_VERSION && arm.session == session
         && arm.requestId != 0 && LastRound(status) < arm.round
       case ActionRequest(a) =>
         if status.Playing? then
           status.held.None? && Continues(a, status.arm, session, status.n)
         else
           status.last.Some? && !status.race && Continues(a, status.last.value, session, status.n)
       case _ => false
  }

  /** The head of the request channel is always welcome, and hearing it keeps the parts fitting. */
  lemma RequestIsWelcome(status: Status, session: string, k: Connection,
                         previous: Option<Observation>, requests: seq<Request>,
                         messages: seq<Message>, acknowledged: int, balance: int)
    requires Shape(status, session, k, previous, requests, messages, acknowledged, balance)
    requires requests != []
    ensures Welcome(status, session, requests[0])
    ensures var after := Heard(status, requests[0]);
            Shape(after, session, k, previous, requests[1..], messages, acknowledged,
                  balance - Drop(status, after))
  {
  }

  function Count(flag: bool): int {
    if flag then 1 else 0
  }

  /** What receiving a message leads to, once a finished call has been settled. */
  predicate Advances(status: Status, session: string, k: Connection, requests: seq<Request>,
                     messages: seq<Message>, acknowledged: int, balance: int)
  {
    match k.call
    case ArmDone(o) =>
      Shape(status, session, k.(call := NoCall), Some(o), requests, messages, 0, balance)
    case StepDone(x) =>
      && (x.result.Some? <==> !x.applied)
      && Shape(status, session, k.(call := NoCall),
               if x.result.None? then Some(x.observation) else None, requests, messages,
               acknowledged + Count(x.applied), balance + Count(x.result.Some?))
    case _ => Shape(status, session, k, None, requests, messages, acknowledged, balance)
  }

  lemma ArmReceives(status: Status, session: string, k: Connection, requests: seq<Request>,
                    messages: seq<Message>, acknowledged: int, balance: int)
    requires k.call.ArmCall? && messages != []
    requires Shape(status, session, k, None, requests, messages, acknowledged, balance)
    ensures Advances(status, session, Deliver(k, messages[0]), requests, messages[1..],
                     acknowledged, balance)
  {
  }

  lemma StepReceives(status: Status, session: string, k: Connection, requests: seq<Request>,
                     messages: seq<Message>, acknowledged: int, balance: int)
    requires k.call.StepCall? && messages != []
    requires Shape(status, session, k, None, requests, messages, acknowledged, balance)
    ensures Advances(status, session, Deliver(k, messages[0]), requests, messages[1..],
                     acknowledged, balance)
  {
  }

  /** The head of the message channel never raises an exception in the waiting call. */
  lemma MessageIsWelcome(status: Status, session: string, k: Connection, requests: seq<Request>,
                         messages: seq<Message>, acknowledged: int, balance: int)
    requires Awaiting(k) && messages != []
    requires Shape(status, session, k, None, requests, messages, acknowledged, balance)
    ensures Advances(status, session, Deliver(k, messages[0]), requests, messages[1..],
                     acknowledged, balance)
  {
    match k.call
    case Greeting(hello) =>
    case ArmCall(arm, ready) =>
      ArmReceives(status, session, k, requests, messages, acknowledged, balance);
    case StepCall(a, applied, terminal, result) =>
      StepReceives(status, session, k, requests, messages, acknowledged, balance);
  }

  // ---------------------------------------------------------------- the invariant

  function AcknowledgedExchanges(xs: seq<StepExchange>): int {
    if xs == [] then 0
    else AcknowledgedExchanges(xs[..|xs| - 1]) + Count(xs[|xs| - 1].applied)
  }

  function FinishedExchanges(xs: seq<StepExchange>): int {
    if xs == [] then 0
    else FinishedExchanges(xs[..|xs| - 1]) + Count(xs[|xs| - 1].result.Some?)
  }

  /** Every exchange either acknowledged its action or brought the episode's result. */
  predicate Faithful(xs: seq<StepExchange>) {
    forall j :: 0 <= j < |xs| ==> (xs[j].result.Some? <==> !xs[j].applied)
  }

  /** Every exchange is faithful, and every action asked for was acknowledged, ended with its
      episode, or is the one being waited for. */
  predicate Books(xs: seq<StepExchange>, asked: int, call: Call) {
    && Faithful(xs)
    && asked == AcknowledgedExchanges(xs) + FinishedExchanges(xs) + Count(call.StepCall?)
  }

  predicate Invariant(y: System) {
    && ClientOk(y.client)
    && Shape(StatusOf(y.client.sequencer), y.client.sequencer.session, y.connection, y.previous,
             y.toClient, y.toTrainer, y.episodeActions, FinishedExchanges(y.exchanges) - y.dropped)
    && Books(y.exchanges, y.asked, y.connection.call)
  }

  lemma ShapeIsSafe(status: Status, session: string, k: Connection, previous: Option<Observation>,
                    requests: seq<Request>, messages: seq<Message>, acknowledged: int, balance: int)
    requires Shape(status, session, k, previous, requests, messages, acknowledged, balance)
    ensures !k.call.Raised?
    ensures forall j :: 0 <= j < |messages| ==> !messages[j].payload.ErrorMessage?
  {
  }

  /** The invariant, from its parts. */
  lemma Assembled(y: System, status: Status, messages: seq<Message>, balance: int)
    requires ClientOk(y.client) && Books(y.exchanges, y.asked, y.connection.call)
    requires status == StatusOf(y.client.sequencer) && messages == y.toTrainer
    requires balance == FinishedExchanges(y.exchanges) - y.dropped
    requires Shape(status, y.client.sequencer.session, y.connection, y.previous, y.toClient, messages,
                   y.episodeActions, balance)
    ensures Invariant(y)
  {
  }

  lemma ClientDidKeeps(y: System, h: Handled)
    requires Invariant(y) && ClientOk(h.client)
    requires h.client.sequencer.session == y.client.sequencer.session
    requires Moves(StatusOf(y.client.sequencer), StatusOf(h.client.sequencer), h.sent,
                   y.client.sequencer.session)
    ensures Invariant(ClientDid(y, h))
  {
    var s := y.client.sequencer;
    var before, after := StatusOf(s), StatusOf(h.client.sequencer);
    var balance := FinishedExchanges(y.exchanges) - y.dropped;
    ClientMoves(before, after, h.sent, s.session, y.connection, y.previous, y.toClient, y.toTrainer,
                y.episodeActions, balance);
    Assembled(ClientDid(y, h), after, y.toTrainer + h.sent, balance - Drop(before, after));
  }

  lemma RequestEffect(c: Client, request: Request)
    requires ClientOk(c) && Welcome(StatusOf(c.sequencer), c.sequencer.session, request)
    ensures var h := ReceiveTrainer(c, request);
            ClientOk(h.client) && h.client.sequencer.session == c.sequencer.session
            && h.sent == [] && StatusOf(h.client.sequencer) == Heard(StatusOf(c.sequencer), request)
  {
    match request.payload
    case ArmEpisode(arm) => ArmEffect(c, arm);
    case ActionRequest(a) => ActionEffect(c, a);
  }

  lemma ClientReceivesKeeps(y: System)
    requires Invariant(y) && y.toClient != []
    ensures Invariant(Next(y, ClientReceives))
  {
    var s, request := y.client.sequencer, y.toClient[0];
    var balance := FinishedExchanges(y.exchanges) - y.dropped;
    RequestIsWelcome(StatusOf(s), s.session, y.connection, y.previous, y.toClient, y.toTrainer,
                     y.episodeActions, balance);
    RequestEffect(y.client, request);
    assert y.toTrainer + [] == y.toTrainer;
    Assembled(Next(y, ClientReceives), Heard(StatusOf(s), request), y.toTrainer,
              balance - Drop(StatusOf(s), Heard(StatusOf(s), request)));
  }

  lemma BooksGrow(xs: seq<StepExchange>, asked: int, call: Call, x: StepExchange)
    requires Books(xs, asked, call) && call.StepCall? && (x.result.Some? <==> !x.applied)
    ensures Books(xs + [x], asked, NoCall)
    ensures FinishedExchanges(xs + [x]) == FinishedExchanges(xs) + Count(x.result.Some?)
  {
  }

  lemma SettlingKeeps(y: System, call: Call)
    requires ClientOk(y.client) && y.previous.None?
    requires Advances(StatusOf(y.client.sequencer), y.client.sequencer.session, y.connection,
                      y.toClient, y.toTrainer, y.episodeActions,
                      FinishedExchanges(y.exchanges) - y.dropped)
    requires Books(y.exchanges, y.asked, call)
    requires if y.connection.call.StepDone? then call.StepCall?
             else call.StepCall? <==> y.connection.call.StepCall?
    ensures Invariant(Settled(y))
  {
    var balance := FinishedExchanges(y.exchanges) - y.dropped;
    if y.connection.call.StepDone? {
      var x := y.connection.call.exchange;
      BooksGrow(y.exchanges, y.asked, call, x);
      Assembled(Settled(y), StatusOf(y.client.sequencer), y.toTrainer, balance + Count(x.result.Some?));
    } else {
      Assembled(Settled(y), StatusOf(y.client.sequencer), y.toTrainer, balance);
    }
  }

  lemma TrainerReceivesKeeps(y: System)
    requires Invariant(y) && Awaiting(y.connection) && y.toTrainer != []
    ensures Invariant(Next(y, TrainerReceives))
  {
    var s := y.client.sequencer;
    var balance := FinishedExchanges(y.exchanges) - y.dropped;
    MessageIsWelcome(StatusOf(s), s.session, y.connection, y.toClient, y.toTrainer,
                     y.episodeActions, balance);
    StaysInStep(y.connection, y.toTrainer[0]);
    var k := Deliver(y.connection, y.toTrainer[0]);
    NotRaised(StatusOf(s), s.session, k, y.toClient, y.toTrainer[1..], y.episodeActions, balance);
    SettlingKeeps(y.(connection := k, toTrainer := y.toTrainer[1..]), y.connection.call);
  }

  lemma NotRaised(status: Status, session: string, k: Connection, requests: seq<Request>,
                  messages: seq<Message>, acknowledged: int, balance: int)
    requires Advances(status, session, k, requests, messages, acknowledged, balance)
    ensures !k.call.Raised?
  {
  }

  lemma StaysInStep(k: Connection, m: Message)
    requires Awaiting(k)
    ensures var d := Deliver(k, m);
            && (d.call.StepCall? ==> k.call.StepCall?)
            && (k.call.StepCall? ==> d.call.StepCall? || d.call.StepDone? || d.call.Raised?)
            && (d.call.StepDone? ==> k.call.StepCall?)
  {
  }

  lemma TrainerArmsKeeps(y: System, requestId: int, round: int, policy: int)
    requires Invariant(y) && Enabled(y, TrainerArms(requestId, round, policy))
    ensures Invariant(Next(y, TrainerArms(requestId, round, policy)))
  {
  }

  lemma TrainerActsKeeps(y: System, choices: seq<int>)
    requires Invariant(y) && Enabled(y, TrainerActs(choices))
    ensures Invariant(Next(y, TrainerActs(choices)))
  {
  }

  /** Every enabled step keeps the invariant. */
  lemma NextKeeps(y: System, act: Act)
    requires Invariant(y) && Enabled(y, act)
    ensures Invariant(Next(y, act))
  {
    match act
    case TrainerArms(requestId, round, policy) => TrainerArmsKeeps(y, requestId, round, policy);
    case TrainerActs(choices) => TrainerActsKeeps(y, choices);
    case TrainerReceives => TrainerReceivesKeeps(y);
    case ClientReceives => ClientReceivesKeeps(y);
    case ServerSends(p, feetY) =>
      PacketEffect(y.client, p, feetY);
      ClientDidKeeps(y, ReceiveYRush(y.client, p, feetY));
    case TickBegins =>
      StartTickEffect(y.client);
      ClientDidKeeps(y, StartTick(y.client));
    case TickFinishes(feetY) =>
      EndTickEffect(y.client, feetY);
      ClientDidKeeps(y, EndTick(y.client, feetY));
  }

  // ---------------------------------------------------------------- whole runs

  ghost predicate Possible(y: System, acts: seq<Act>)
    decreases |acts|
  {
    acts != [] ==> Enabled(y, acts[0]) && Possible(Next(y, acts[0]), acts[1..])
  }

  ghost function After(y: System, acts: seq<Act>): System
    requires Possible(y, acts)
    decreases |acts|
  {
    if acts == [] then y else After(Next(y, acts[0]), acts[1..])
  }

  /** A freshly greeted client, whatever packet it saw last, and a trainer about to read. */
  function Start(c: Client, session: string, nonce: string, uuid: string, name: string): System {
    var h := Connect(c, session, nonce, uuid, name);
    System(h.client, OPENED, None, [], h.sent, 0, [], 0, 0)
  }

  lemma StartHolds(c: Client, session: string, nonce: string, uuid: string, name: string)
    requires ClientInvariant(c) && !c.crashed && !c.connected
    requires session != "" && nonce != "" && uuid != "" && name != ""
    ensures Invariant(Start(c, session, nonce, uuid, name))
  {
  }

  lemma {:induction false} InvariantHolds(y: System, acts: seq<Act>)
    requires Invariant(y) && Possible(y, acts)
    ensures Invariant(After(y, acts))
    decreases |acts|
  {
    if acts != [] {
      NextKeeps(y, acts[0]);
      InvariantHolds(Next(y, acts[0]), acts[1..]);
    }
  }

  /** Composed safety: in every interleaving neither peer ever raises a sequencing or identity
      error, and no request, packet or message in flight is about to. */
  lemma ProtocolIsSafe(c: Client, session: string, nonce: string, uuid: string, name: string,
                       acts: seq<Act>)
    requires ClientInvariant(c) && !c.crashed && !c.connected
    requires session != "" && nonce != "" && uuid != "" && name != ""
    requires Possible(Start(c, session, nonce, uuid, name), acts)
    ensures Safe(After(Start(c, session, nonce, uuid, name), acts))
    ensures Invariant(After(Start(c, session, nonce, uuid, name), acts))
  {
    StartHolds(c, session, nonce, uuid, name);
    InvariantHolds(Start(c, session, nonce, uuid, name), acts);
    var y := After(Start(c, session, nonce, uuid, name), acts);
    ShapeIsSafe(StatusOf(y.client.sequencer), y.client.sequencer.session, y.connection, y.previous,
                y.toClient, y.toTrainer, y.episodeActions,
                FinishedExchanges(y.exchanges) - y.dropped);
  }

  /** Agreement between the peers in every reachable state: an exchange brings a result exactly
      when its action was not acknowledged; outside calls the trainer's count of acknowledged
      actions is the client's; every action asked for was acknowledged, dropped with a finished
      episode, or is under way; and once nothing is on its way to the client between episodes,
      exactly one action per finished episode was dropped. */
  lemma PeersAgree(y: System)
    requires Invariant(y)
    ensures forall j :: 0 <= j < |y.exchanges| ==>
              (y.exchanges[j].result.Some? <==> !y.exchanges[j].applied)
    ensures y.previous.Some? ==>
              y.episodeActions == if Live(y.client.sequencer) then y.client.sequencer.actionSequence
                                  else y.client.sequencer.completedAction
    ensures y.connection.call.NoCall? && y.previous.None? && y.client.sequencer.completed.Some? ==>
              y.episodeActions == y.client.sequencer.completedAction
    ensures y.asked == AcknowledgedExchanges(y.exchanges) + FinishedExchanges(y.exchanges)
                       + Count(y.connection.call.StepCall?)
    ensures y.connection.call.NoCall? && y.previous.None? && y.toClient == [] ==>
              y.dropped == FinishedExchanges(y.exchanges)
    ensures -1 <= FinishedExchanges(y.exchanges) - y.dropped <= 1
  {
  }

  /** A waiting trainer always waits for something: a message or request is on its way, the client
      is still to be served the round it is armed for, or it is holding the action. */
  lemma WaitingHasAReason(y: System)
    requires Invariant(y) && Awaiting(y.connection) && y.toTrainer == [] && y.toClient == []
    ensures match y.connection.call
            case ArmCall(arm, ready) => ready.None? && y.client.sequencer.pending == Some(arm)
            case StepCall(a, applied, _, _) =>
              !applied && Live(y.client.sequencer) && Held(y.client.sequencer) == Some(a)
            case _ => false
  {
  }
}
