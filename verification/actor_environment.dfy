/** What an actor thread makes of its environment's replies, and why the scheduler's assumptions
    about environments hold. */
module ActorEnvironment {
  import opened Common
  import opened Packets
  import opened Transitions
  import opened WireMessages
  import opened ConnectionSpec
  import opened EnvironmentSpec
  import Reconcile
  import PoolSpec
  import PoolAccounting
  import SharedRound
  import SharedRoundSafety
  import ConnectionProvenance

  /** The player's identity and the episode's direction, known to the environment. */
  datatype Identity = Identity(uuid: string, name: string, direction: Direction)

  function SightOf(o: Observation, features: Features): PoolSpec.Sight {
    PoolSpec.Sight(features, o.round, o.policy)
  }

  /** The info dictionary of a step, as the reconciliation reads it. */
  function ReportOf(id: Identity, info: Info): Reconcile.Report {
    var (outcome, winner, participants, time, distance) :=
      match info.result
      case None => (None, None, 0, 0.0, 0.0)
      case Some(r) =>
        (Some(r.outcome), if r.winnerUuid == "" then None else Some(r.winnerUuid),
         r.participantCount, r.completionTimeSeconds, r.bestRemainingDistance);
    Reconcile.Report(
      info.observation.round, info.observation.policy, id.uuid, id.name, outcome, winner,
      participants, time, distance, id.direction, info.observation.activePlayers)
  }

  function SteppingOf(id: Identity, reply: Reply, features: Features): PoolSpec.Stepping
    requires reply.Moved?
  {
    PoolSpec.Stepping(SightOf(reply.info.observation, features), reply.reward, reply.terminated,
                      reply.truncated, reply.info.valid, ReportOf(id, reply.info))
  }

  /** The connection as a call finds it, and whatever messages arrive during the call. */
  datatype Wire = Wire(
    connection: Connection, inbox: seq<Envelope<ToTrainer>>, identity: Identity, features: Features)

  /** The environment shows what the actor has seen. */
  predicate Agree(seen: Option<PoolSpec.Sight>, e: Env) {
    seen.Some? ==>
      && e.active && e.observation.Some?
      && seen.value.round == e.observation.value.round
      && seen.value.version == e.observation.value.policy
  }

  /** Arming: bad options raise, and so does every failure of the connection. */
  function Arming(e: Env, round: int, version: int, wire: Wire): (r: (Env, PoolSpec.Response)) {
    var (next, reply) := ResetOver(e, wire.connection, wire.inbox, Some(round), Some(version));
    (next, if reply.Begun? then
             PoolSpec.ArmReturned(SightOf(reply.info.observation, wire.features))
           else PoolSpec.CallFailed)
  }

  /** Acting: bad choices and a missing episode raise, and so does every failure of the connection. */
  function Acting(e: Env, choices: seq<int>, wire: Wire): (r: (Env, PoolSpec.Response)) {
    var (next, reply) := StepOver(e, wire.connection, wire.inbox, choices);
    (next, if reply.Moved? then
             PoolSpec.StepReturned(SteppingOf(wire.identity, reply, wire.features))
           else PoolSpec.CallFailed)
  }

  /** The command an actor is executing, carried out by its environment. */
  function Execute(actor: PoolSpec.Actor, e: Env, wire: Wire): (r: (Env, PoolSpec.Response))
    requires actor.running.Some?
  {
    match actor.running.value
    case ArmCommand(round, version) => Arming(e, round, version, wire)
    case ActCommand(decision) =>
      if actor.seen.None? then (e, PoolSpec.CallFailed) else Acting(e, decision.choices, wire)
  }

  lemma ArmingStaysInRound(e: Env, round: int, version: int, wire: Wire)
    ensures var (next, response) := Arming(e, round, version, wire);
            response.ArmReturned? ==>
              && response.sight.round == round && response.sight.version == version
              && Agree(Some(response.sight), next)
  {
    var request := ArmRequest(wire.connection, e.nextIdentifier, round, version);
    CallsStayInTheirRound(
      wire.connection, wire.inbox, request, Action(0, "", 0, 0, 0, 0, 0, []));
  }

  lemma ActingStaysInRound(e: Env, choices: seq<int>, wire: Wire)
    ensures var (next, response) := Acting(e, choices, wire);
            response.StepReturned? ==>
              && e.observation.Some? && e.active
              && response.step.sight.round == e.observation.value.round
              && response.step.sight.version == e.observation.value.policy
              && response.step.report.round == response.step.sight.round
              && response.step.report.version == response.step.sight.version
              && (!PoolSpec.Finished(response.step) ==> Agree(Some(response.step.sight), next))
  {
    StepsStayInRound(e, wire.connection, wire.inbox, choices);
  }

  /** Whatever arrives on the wire, an actor whose environment shows what it has seen gets a response
      that is faithful to its command, and then has seen what its environment shows, unless the call
      failed. */
  lemma EnvironmentsAreFaithful(actor: PoolSpec.Actor, e: Env, wire: Wire)
    requires actor.running.Some? && Agree(actor.seen, e)
    ensures var (next, response) := Execute(actor, e, wire);
            && PoolSpec.Faithful(actor, response)
            && (!response.CallFailed? ==> Agree(PoolSpec.Settle(actor, response).seen, next))
  {
    if actor.running.value.ArmCommand? {
      ArmingStaysInRound(e, actor.running.value.round, actor.running.value.version, wire);
    } else {
      ActingStaysInRound(e, actor.running.value.decision.choices, wire);
    }
  }

  /** The report is the exchange's: its own round, counts and acknowledgement, and what its result
      says if it has one. */
  predicate ReportsExchange(report: Reconcile.Report, id: Identity, x: StepExchange) {
    && report.round == x.observation.round && report.version == x.observation.policy
    && report.activePlayers == x.observation.activePlayers
    && report.uuid == id.uuid && report.name == id.name && report.direction == id.direction
    && (x.result.None? ==> report.outcome.None? && report.winner.None?)
    && (x.result.Some? ==>
          var r := x.result.value;
          && report.outcome == Some(r.outcome) && report.participants == r.participantCount
          && report.completionTime == r.completionTimeSeconds
          && report.bestDistance == r.bestRemainingDistance
          && (r.winnerUuid != "" ==> report.winner == Some(r.winnerUuid))
          && (r.winnerUuid == "" ==> report.winner.None?))
  }

  /** What the actor makes of a reply that hands on the exchange. */
  lemma StepTellsExchange(id: Identity, reply: Reply, features: Features, x: StepExchange)
    requires reply.Moved? && reply.info == Info(x.observation, x.applied, x.result)
    ensures var step := SteppingOf(id, reply, features);
            && step.sight == PoolSpec.Sight(features, x.observation.round, x.observation.policy)
            && step.reward == reply.reward && step.terminated == reply.terminated
            && step.truncated == reply.truncated && step.valid == x.applied
            && ReportsExchange(step.report, id, x)
  {
  }

  /** The exchange of the call that carries out an action. */
  function ExchangeOf(e: Env, choices: seq<int>, wire: Wire): Option<StepExchange> {
    if !ValidChoices(choices) || !e.active || e.observation.None? then None
    else
      var previous := e.observation.value;
      var action := StepRequest(wire.connection, previous, previous.number + 1, choices);
      var asked := wire.connection.(call := StepCall(action, false, None, None));
      var stepped := Await(asked, wire.inbox).0.call;
      if stepped.StepDone? then Some(stepped.exchange) else None
  }

  lemma ActingMoves(e: Env, choices: seq<int>, wire: Wire)
    ensures var (next, reply) := StepOver(e, wire.connection, wire.inbox, choices);
            reply.Moved? ==>
              && e.observation.Some? && ExchangeOf(e, choices, wire).Some?
              && (next, reply) == Advance(e, ExchangeOf(e, choices, wire).value)
  {
  }

  /** A step that returns hands on one exchange, made of messages that arrived during the call: it is
      valid if and only if its action was acknowledged, and its reward, its flags and its report are
      that exchange's. */
  lemma StepsHandOnTheirExchange(e: Env, choices: seq<int>, wire: Wire)
    requires Acting(e, choices, wire).1.StepReturned?
    ensures e.observation.Some? && ExchangeOf(e, choices, wire).Some?
    ensures var x, step := ExchangeOf(e, choices, wire).value, Acting(e, choices, wire).1.step;
            && step.sight == PoolSpec.Sight(wire.features, x.observation.round, x.observation.policy)
            && step.reward == Reward(e.observation.value, x.observation, x.result)
            && (step.truncated <==> x.result.Some? && x.result.value.outcome == Stopped)
            && (step.terminated <==> x.result.Some? && x.result.value.outcome != Stopped)
            && (step.valid <==> x.applied)
            && ReportsExchange(step.report, wire.identity, x)
  {
    ActingMoves(e, choices, wire);
    var x := ExchangeOf(e, choices, wire).value;
    if x.observation.phase.ObservedComplete? <==> x.result.Some? {
      StepHandsOn(e, x);
      StepTellsExchange(wire.identity, Advance(e, x).1, wire.features, x);
    }
  }

  /** That exchange is made of messages read during the call. */
  lemma ExchangesAreTold(e: Env, choices: seq<int>, wire: Wire, action: Action, asked: Connection)
    requires ExchangeOf(e, choices, wire).Some?
    requires var previous := e.observation.value;
             action == StepRequest(wire.connection, previous, previous.number + 1, choices)
    requires asked == wire.connection.(call := StepCall(action, false, None, None))
    ensures ConnectionProvenance.ExchangedBy(
              ExchangeOf(e, choices, wire).value, action,
              ConnectionProvenance.Read(asked, wire.inbox))
  {
    assert ExchangeOf(e, choices, wire) == Some(Await(asked, wire.inbox).0.call.exchange);
    ConnectionProvenance.StepsAreTold(wire.connection, wire.inbox, action);
  }

  /** With the real client at the other end, a step is valid exactly when it does not end the
      episode, which is what makes the scheduler discard one exchange per client and round. */
  lemma RealExchangesAreExclusive(
      y: SharedRound.System, j: nat, e: Env, id: Identity, features: Features)
    requires SharedRoundSafety.Invariant(y) && j < |y.exchanges| && e.observation.Some?
    ensures var reply := Advance(e, y.exchanges[j]).1;
            reply.Moved? ==> PoolAccounting.Exclusive(SteppingOf(id, reply, features))
  {
  }
}
