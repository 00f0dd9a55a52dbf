/** The asynchronous scheduler on values: actors with one-slot command queues, one event queue, and
    the driving thread's bookkeeping. Each function is one atomic step of one thread. */
module PoolSpec {
  import opened Common
  import opened Transitions
  import opened Reconcile

  /** A policy is its version and what it computes row by row. */
  datatype Policy = Policy(
    version: int, critic: Features -> real, likelihood: (Features, seq<int>) -> real)

  /** What an environment shows: normalised features, and whose round they belong to. */
  datatype Sight = Sight(features: Features, round: int, version: int)

  datatype Decision = Decision(
    choices: seq<int>, logProbability: real, value: real, episodeStart: bool)

  datatype Command =
    | ArmCommand(round: int, version: int)
    | ActCommand(decision: Decision)

  /** What env.step returned. The report is its info, read when the episode is done. */
  datatype Stepping = Stepping(
    sight: Sight, reward: real, terminated: bool, truncated: bool, valid: bool, report: Report)

  datatype Event =
    | Armed(actor: int, sight: Sight)
    | Stepped(actor: int, previous: Sight, decision: Decision, step: Stepping)
    | Failed(actor: int)

  /** An actor thread: its one-slot command queue, the command it is executing, and the observation
      its next action answers. */
  datatype Actor = Actor(slot: Option<Command>, running: Option<Command>, seen: Option<Sight>)

  const IDLE := Actor(None, None, None)

  datatype Offer = Offer(features: Features, episodeStart: bool)

  datatype PoolError =
    | Departed | UnexpectedRound | SlotFull | BadRound(disagreement: Disagreement) | BoundaryFailed

  datatype Status = NotDriving | Driving | Raised(error: PoolError)

  datatype Pool = Pool(
    order: seq<int>,
    actors: map<int, Actor>,
    events: seq<Event>,
    valid: int,
    discarded: int,
    sequence: int,
    status: Status,
    policy: Policy,
    round: int,
    limit: Option<int>,
    completed: seq<GlobalRound>,
    available: map<int, Offer>,
    results: map<int, Report>,
    sunk: seq<Transition>,
    usedIn: map<int, Policy>)

  // ---------------------------------------------------------------- actor threads

  function Take(a: Actor): Actor {
    a.(slot := None, running := a.slot)
  }

  /** How an environment call ended. */
  datatype Response = ArmReturned(sight: Sight) | StepReturned(step: Stepping) | CallFailed

  predicate Finished(step: Stepping) {
    step.terminated || step.truncated
  }

  /** What an environment owes the actor: it stays in the round it was armed for. */
  predicate Faithful(a: Actor, response: Response) {
    match response
    case ArmReturned(sight) =>
      && a.running.Some? && a.running.value.ArmCommand?
      && sight.round == a.running.value.round && sight.version == a.running.value.version
    case StepReturned(step) =>
      && a.running.Some? && a.running.value.ActCommand? && a.seen.Some?
      && step.sight.round == a.seen.value.round && step.sight.version == a.seen.value.version
      && step.report.round == step.sight.round && step.report.version == step.sight.version
    case CallFailed => a.running.Some?
  }

  function Outcome(index: int, a: Actor, response: Response): Event
    requires Faithful(a, response)
  {
    match response
    case ArmReturned(sight) => Armed(index, sight)
    case StepReturned(step) => Stepped(index, a.seen.value, a.running.value.decision, step)
    case CallFailed => Failed(index)
  }

  function Settle(a: Actor, response: Response): Actor
    requires Faithful(a, response)
  {
    match response
    case ArmReturned(sight) => Actor(a.slot, None, Some(sight))
    case StepReturned(step) =>
      Actor(a.slot, None, if Finished(step) then None else Some(step.sight))
    case CallFailed => a.(running := None)
  }

  function ActorTakes(p: Pool, index: int): Pool
    requires index in p.actors
  {
    p.(actors := p.actors[index := Take(p.actors[index])])
  }

  function ActorFinishes(p: Pool, index: int, response: Response): Pool
    requires index in p.actors && Faithful(p.actors[index], response)
  {
    p.(actors := p.actors[index := Settle(p.actors[index], response)],
       events := p.events + [Outcome(index, p.actors[index], response)])
  }

  // ---------------------------------------------------------------- one event

  predicate NeedsValue(e: Event) {
    e.Stepped? && e.step.valid
  }

  /** The policy's value of every valid step's next observation, by actor. */
  function NextValues(policy: Policy, batch: seq<Event>): (values: map<int, real>)
    ensures forall i :: 0 <= i < |batch| && NeedsValue(batch[i]) ==> batch[i].actor in values
  {
    if batch == [] then map[]
    else
      var values, e := NextValues(policy, batch[..|batch| - 1]), batch[|batch| - 1];
      if NeedsValue(e) then values[e.actor := policy.critic(e.step.sight.features)] else values
  }

  function TransitionOf(p: Pool, e: Event, nextValue: real): Transition
    requires e.Stepped?
  {
    Transition(
      e.actor, p.round, p.policy.version, e.previous.features, e.decision.choices, e.step.reward,
      e.step.sight.features, e.step.terminated, e.step.truncated, e.decision.episodeStart,
      e.decision.logProbability, e.decision.value, nextValue)
  }

  function Raise(p: Pool, error: PoolError): Pool {
    p.(status := Raised(error))
  }

  function Counted(p: Pool, e: Event, nextValues: map<int, real>): Pool
    requires e.Stepped? && (NeedsValue(e) ==> e.actor in nextValues)
  {
    if e.step.valid then
      p.(valid := p.valid + 1, sunk := p.sunk + [TransitionOf(p, e, nextValues[e.actor])])
    else p.(discarded := p.discarded + 1)
  }

  function Process(p: Pool, e: Event, nextValues: map<int, real>): Pool
    requires NeedsValue(e) ==> e.actor in nextValues
  {
    match e
    case Failed(_) => Raise(p, Departed)
    case Armed(actor, sight) =>
      if sight.round != p.round then Raise(p, UnexpectedRound)
      else p.(available := p.available[actor := Offer(sight.features, true)])
    case Stepped(actor, _, _, step) =>
      var counted := Counted(p, e, nextValues);
      if Finished(step) then counted.(results := p.results[actor := step.report])
      else counted.(available := p.available[actor := Offer(step.sight.features, false)])
  }

  predicate HaveValues(events: seq<Event>, n: nat, nextValues: map<int, real>)
    requires n <= |events|
  {
    forall i :: 0 <= i < n && NeedsValue(events[i]) ==> events[i].actor in nextValues
  }

  /** The first event leaves the queue and is processed. */
  function TakeFirst(p: Pool, nextValues: map<int, real>): Pool
    requires p.events != [] && (NeedsValue(p.events[0]) ==> p.events[0].actor in nextValues)
  {
    Process(p.(events := p.events[1..]), p.events[0], nextValues)
  }

  /** The first n events, in order, until one raises. */
  function ProcessAll(p: Pool, n: nat, nextValues: map<int, real>): Pool
    requires n <= |p.events| && HaveValues(p.events, n, nextValues)
    decreases n
  {
    if n == 0 || p.status.Raised? then p
    else ProcessAll(TakeFirst(p, nextValues), n - 1, nextValues)
  }

  /** A turn's events, with their next values computed at once. */
  function Processed(p: Pool, n: nat): Pool
    requires n <= |p.events|
  {
    ProcessAll(p, n, NextValues(p.policy, p.events[..n]))
  }

  // ---------------------------------------------------------------- submitting

  predicate AllFree(p: Pool, wanted: set<int>) {
    forall a :: a in p.actors && a in wanted ==> p.actors[a].slot.None?
  }

  function ArmAll(p: Pool): Pool {
    if AllFree(p, p.actors.Keys) then
      p.(actors := map a | a in p.actors ::
           p.actors[a].(slot := Some(ArmCommand(p.round, p.policy.version))))
    else Raise(p, SlotFull)
  }

  /** The policy's decision on an offered observation, the sampled choices being given. */
  function Decide(policy: Policy, offer: Offer, choices: seq<int>): Decision {
    Decision(choices, policy.likelihood(offer.features, choices), policy.critic(offer.features),
             offer.episodeStart)
  }

  function SubmitAll(p: Pool, picks: int -> seq<int>): Pool {
    if AllFree(p, p.available.Keys) then
      p.(actors := map a | a in p.actors ::
           if a in p.available then
             p.actors[a].(slot := Some(ActCommand(Decide(p.policy, p.available[a], picks(a)))))
           else p.actors[a],
         available := map[])
    else Raise(p, SlotFull)
  }

  // ---------------------------------------------------------------- the barrier

  /** What the boundary callback does with a round's record. */
  datatype Boundary = Continue(next: Policy) | Halt(last: Policy) | CallbackRaises

  /** The next round's bookkeeping. */
  function Opening(p: Pool): Pool {
    p.(sequence := p.sequence + 1, round := p.sequence + 1, results := map[], available := map[],
       usedIn := p.usedIn[p.sequence + 1 := p.policy])
  }

  function EnterRound(p: Pool): Pool {
    ArmAll(Opening(p))
  }

  predicate LimitReached(p: Pool) {
    p.limit.Some? && |p.completed| >= p.limit.value
  }

  /** What follows once the round's record is kept. */
  function Cross(p: Pool, boundary: Boundary): Pool {
    match boundary
    case CallbackRaises => Raise(p, BoundaryFailed)
    case Halt(last) => p.(policy := last, status := NotDriving)
    case Continue(next) =>
      if LimitReached(p) then p.(policy := next, status := NotDriving)
      else EnterRound(p.(policy := next))
  }

  function Barrier(p: Pool, boundary: Boundary): Pool {
    match ReconcileRound(p.round, p.policy.version, p.results, p.order)
    case Disagree(error) => Raise(p, BadRound(error))
    case Reconciled(record) => Cross(p.(completed := p.completed + [record]), boundary)
  }

  /** The end of a turn: the barrier if every actor has a result, and an action for every actor made
      available. */
  function FinishTurn(p: Pool, picks: int -> seq<int>, boundary: Boundary): Pool {
    var q := if |p.results| == |p.order| then Barrier(p, boundary) else p;
    if q.status.Driving? then SubmitAll(q, picks) else q
  }

  /** One turn of the driving loop, over the first n queued events. */
  function Iterate(p: Pool, n: nat, picks: int -> seq<int>, boundary: Boundary): Pool
    requires n <= |p.events|
  {
    var q := Processed(p, n);
    if q.status.Raised? then q else FinishTurn(q, picks, boundary)
  }

  function Called(p: Pool, policy: Policy, limit: Option<int>): Pool {
    p.(status := Driving, policy := policy, limit := limit, completed := [])
  }

  /** A call of drive, up to its loop; a limit that is not positive is refused at once. */
  function StartDrive(p: Pool, policy: Policy, limit: Option<int>): Pool {
    if limit.Some? && limit.value <= 0 then p
    else EnterRound(Called(p, policy, limit))
  }
}
