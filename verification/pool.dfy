/** The pool object whose driving loop empties the event queue, meets the barrier and submits. */
module PoolClass {
  import opened Common
  import opened Transitions
  import opened Reconcile
  import opened PoolSpec
  import PoolInvariant

  class ClientPool {
    var order: seq<int>
    var actors: map<int, Actor>
    var events: seq<Event>
    var valid: int
    var discarded: int
    var sequence: int
    var status: Status
    var policy: Policy
    var round: int
    var limit: Option<int>
    var completed: seq<GlobalRound>
    var available: map<int, Offer>
    var results: map<int, Report>
    /** What the transition sink received, and which policy each round used. */
    ghost var sunk: seq<Transition>
    ghost var usedIn: map<int, Policy>

    ghost function State(): Pool
      reads this
    {
      Pool(order, actors, events, valid, discarded, sequence, status, policy, round, limit,
           completed, available, results, sunk, usedIn)
    }

    /** A started pool: every endpoint connected, every actor idle. */
    constructor (endpoints: seq<int>, first: Policy)
      ensures order == endpoints && actors == (map a | a in endpoints :: IDLE)
      ensures events == [] && status.NotDriving? && sequence == valid == discarded == 0
      ensures sunk == [] && usedIn == map[]
    {
      order := endpoints;
      actors := map a | a in endpoints :: IDLE;
      events, completed := [], [];
      valid, discarded, sequence, round := 0, 0, 0, 0;
      status, policy, limit := NotDriving, first, None;
      available, results := map[], map[];
      sunk, usedIn := [], map[];
    }

    /** Puts a command into an actor's one-slot queue, unless it is full. */
    method Submit(index: int, command: Command) returns (accepted: bool)
      requires index in actors
      modifies `actors
      ensures accepted == old(actors[index].slot.None?)
      ensures actors == if accepted then old(actors)[index := old(actors[index]).(slot := Some(command))]
                        else old(actors)
    {
      var actor := actors[index];
      if actor.slot.Some? {
        return false;
      }
      actors := actors[index := actor.(slot := Some(command))];
      return true;
    }

    method ArmEveryone()
      requires PoolInvariant.Listed(order, actors)
      modifies `actors, `status
      ensures Agrees(State(), ArmAll(old(State()))) && actors.Keys == old(actors.Keys)
    {
      ghost var before := actors;
      for k := 0 to |order|
        invariant actors.Keys == before.Keys && status == old(status)
        invariant forall i :: 0 <= i < k ==>
                    && before[order[i]].slot.None?
                    && actors[order[i]]
                       == before[order[i]].(slot := Some(ArmCommand(round, policy.version)))
        invariant forall i :: k <= i < |order| ==> actors[order[i]] == before[order[i]]
      {
        var accepted := Submit(order[k], ArmCommand(round, policy.version));
        if !accepted {
          status := Raised(SlotFull);
          assert order[k] in before;
          return;
        }
      }
      forall a | a in before
        ensures before[a].slot.None?
                && actors[a] == before[a].(slot := Some(ArmCommand(round, policy.version)))
      {
        assert a in State().actors;
        var i :| 0 <= i < |order| && order[i] == a;
      }
    }

    /** One queued event. */
    method TakeEvent(e: Event, nextValues: map<int, real>)
      requires NeedsValue(e) ==> e.actor in nextValues
      modifies `status, `available, `results, `valid, `discarded, `sunk
      ensures State() == Process(old(State()), e, nextValues)
    {
      match e {
        case Failed(_) => status := Raised(Departed);
        case Armed(actor, sight) =>
          if sight.round != round {
            status := Raised(UnexpectedRound);
          } else {
            available := available[actor := Offer(sight.features, true)];
          }
        case Stepped(actor, previous, decision, step) =>
          if step.valid {
            var transition := Transition(
              actor, round, policy.version, previous.features, decision.choices, step.reward,
              step.sight.features, step.terminated, step.truncated, decision.episodeStart,
              decision.logProbability, decision.value, nextValues[actor]);
            valid := valid + 1;
            sunk := sunk + [transition];
          } else {
            discarded := discarded + 1;
          }
          if Finished(step) {
            results := results[actor := step.report];
          } else {
            available := available[actor := Offer(step.sight.features, false)];
          }
      }
    }

    /** The policy's values of the batch's valid next observations, keyed by actor. */
    method ValueBatch(batch: seq<Event>) returns (values: map<int, real>)
      ensures values == NextValues(policy, batch)
    {
      values := map[];
      for k := 0 to |batch|
        invariant values == NextValues(policy, batch[..k])
      {
        assert batch[..k + 1][..k] == batch[..k];
        if NeedsValue(batch[k]) {
          values := values[batch[k].actor := policy.critic(batch[k].step.sight.features)];
        }
      }
      assert batch[..|batch|] == batch;
    }

    /** Taking the next left events leads to `goal`. */
    ghost predicate Leads(left: nat, nextValues: map<int, real>, goal: Pool)
      reads this
    {
      && left <= |events| && HaveValues(events, left, nextValues)
      && ProcessAll(State(), left, nextValues) == goal
    }

    /** The first of the events still to be taken. */
    method TakeNext(left: nat, nextValues: map<int, real>, ghost goal: Pool)
      requires 0 < left && !status.Raised? && Leads(left, nextValues, goal)
      modifies `events, `status, `available, `results, `valid, `discarded, `sunk
      ensures Leads(left - 1, nextValues, goal)
    {
      ghost var before := State();
      var e := events[0];
      events := events[1..];
      assert forall i :: 0 <= i < left - 1 ==> events[i] == before.events[i + 1];
      TakeEvent(e, nextValues);
      assert State() == TakeFirst(before, nextValues);
    }

    /** The loop over a drained batch, stopping at the first event that raises. */
    method TakeAll(n: nat, nextValues: map<int, real>, ghost goal: Pool)
      requires !status.Raised? && Leads(n, nextValues, goal)
      modifies `events, `status, `available, `results, `valid, `discarded, `sunk
      ensures State() == goal
    {
      var left := n;
      while left > 0 && !status.Raised?
        invariant Leads(left, nextValues, goal)
      {
        TakeNext(left, nextValues, goal);
        left := left - 1;
      }
      NothingLeft(State(), left, nextValues, goal);
    }

    /** The first n queued events, their next values computed at once. */
    method TakeEvents(n: nat)
      requires n <= |events| && !status.Raised?
      modifies `events, `status, `available, `results, `valid, `discarded, `sunk
      ensures State() == Processed(old(State()), n)
    {
      var values := ValueBatch(events[..n]);
      Ahead(State(), n, values);
      TakeAll(n, values, Processed(State(), n));
    }

    /** What an available actor is told to do. */
    ghost function CommandFor(a: int, picks: int -> seq<int>): Command
      reads this
      requires a in available
    {
      ActCommand(Decide(policy, available[a], picks(a)))
    }

    /** The policy's decision on one available actor's observation. */
    method SubmitAction(index: int, picks: int -> seq<int>) returns (accepted: bool)
      requires index in actors && index in available
      modifies `actors
      ensures accepted == old(actors[index].slot.None?)
      ensures actors == if accepted then
                          old(actors)[index := old(actors[index]).(slot := Some(CommandFor(index, picks)))]
                        else old(actors)
    {
      var offer, choices := available[index], picks(index);
      accepted := Submit(index, ActCommand(Decision(
        choices, policy.likelihood(offer.features, choices), policy.critic(offer.features),
        offer.episodeStart)));
    }

    /** An action for every available actor, in ascending order, until a queue is full. */
    method SubmitEach(picks: int -> seq<int>) returns (complete: bool)
      requires PoolInvariant.Listed(order, actors)
      modifies `actors
      ensures actors.Keys == old(actors.Keys)
      ensures complete <==> forall a :: a in old(actors) && a in available ==> old(actors)[a].slot.None?
      ensures complete ==> forall a :: a in old(actors) ==>
                actors[a] == if a in available then
                               old(actors)[a].(slot := Some(CommandFor(a, picks)))
                             else old(actors)[a]
    {
      ghost var before := actors;
      for k := 0 to |order|
        invariant actors.Keys == before.Keys
        invariant forall i :: 0 <= i < k && order[i] in available ==> before[order[i]].slot.None?
        invariant forall i :: 0 <= i < k ==>
                    actors[order[i]] ==
                      if order[i] in available then
                        before[order[i]].(slot := Some(CommandFor(order[i], picks)))
                      else before[order[i]]
        invariant forall i :: k <= i < |order| ==> actors[order[i]] == before[order[i]]
      {
        if order[k] in available {
          var accepted := SubmitAction(order[k], picks);
          if !accepted {
            assert order[k] in before;
            return false;
          }
        }
      }
      forall a | a in before
        ensures a in available ==> before[a].slot.None?
        ensures actors[a] == if a in available then
                               before[a].(slot := Some(CommandFor(a, picks)))
                             else before[a]
      {
        var i :| 0 <= i < |order| && order[i] == a;
      }
      return true;
    }

    /** The submissions of a turn; then nobody is available. */
    method SubmitActions(picks: int -> seq<int>)
      requires PoolInvariant.Listed(order, actors)
      modifies `actors, `available, `status
      ensures Agrees(State(), SubmitAll(old(State()), picks))
    {
      var complete := SubmitEach(picks);
      if complete {
        ActionsSubmitted(old(State()), picks, actors);
        available := map[];
      } else {
        status := Raised(SlotFull);
      }
    }

    method OpenRound()
      modifies `sequence, `round, `results, `available, `usedIn
      ensures State() == Opening(old(State()))
    {
      sequence := sequence + 1;
      round, results, available := sequence, map[], map[];
      usedIn := usedIn[sequence := policy];
    }

    /** The next round of the same call of drive, or the first. */
    method EnterNextRound()
      requires PoolInvariant.Listed(order, actors)
      modifies `sequence, `round, `results, `available, `usedIn, `actors, `status
      ensures Agrees(State(), EnterRound(old(State()))) && PoolInvariant.Listed(order, actors)
    {
      OpenRound();
      ArmEveryone();
    }

    method CrossBoundary(boundary: Boundary)
      requires PoolInvariant.Listed(order, actors)
      modifies `policy, `status, `sequence, `round, `results, `available, `usedIn, `actors
      ensures Agrees(State(), Cross(old(State()), boundary)) && PoolInvariant.Listed(order, actors)
    {
      match boundary {
        case CallbackRaises => status := Raised(BoundaryFailed);
        case Halt(last) => policy, status := last, NotDriving;
        case Continue(next) =>
          policy := next;
          if limit.Some? && |completed| >= limit.value {
            status := NotDriving;
          } else {
            EnterNextRound();
          }
      }
    }

    method MeetBarrier(boundary: Boundary)
      requires PoolInvariant.Listed(order, actors)
      modifies this
      ensures Agrees(State(), Barrier(old(State()), boundary)) && PoolInvariant.Listed(order, actors)
    {
      match ReconcileRound(round, policy.version, results, order) {
        case Disagree(error) => status := Raised(BadRound(error));
        case Reconciled(record) =>
          completed := completed + [record];
          CrossBoundary(boundary);
      }
    }

    /** The barrier and the submissions. */
    method EndTurn(picks: int -> seq<int>, boundary: Boundary)
      requires PoolInvariant.Listed(order, actors)
      modifies this
      ensures Agrees(State(), FinishTurn(old(State()), picks, boundary))
    {
      if |results| == |order| {
        MeetBarrier(boundary);
      }
      if status.Driving? {
        SubmitActions(picks);
      }
    }

    /** One turn of the loop over the first n queued events. */
    method Turn(n: nat, picks: int -> seq<int>, boundary: Boundary)
      requires PoolInvariant.Listed(order, actors) && status.Driving? && n <= |events|
      modifies this
      ensures Agrees(State(), Iterate(old(State()), n, picks, boundary))
    {
      TakeEvents(n);
      if !status.Raised? {
        EndTurn(picks, boundary);
      }
    }

    /** A call of drive up to its loop; false when the limit is refused. */
    method BeginDrive(chosen: Policy, rounds: Option<int>) returns (accepted: bool)
      requires PoolInvariant.Listed(order, actors) && status.NotDriving?
      modifies this
      ensures accepted <==> rounds.None? || 0 < rounds.value
      ensures Agrees(State(), StartDrive(old(State()), chosen, rounds))
    {
      if rounds.Some? && rounds.value <= 0 {
        return false;
      }
      Call(chosen, rounds);
      EnterNextRound();
      return true;
    }

    method Call(chosen: Policy, rounds: Option<int>)
      modifies `status, `policy, `limit, `completed
      ensures State() == Called(old(State()), chosen, rounds)
    {
      status, policy, limit, completed := Driving, chosen, rounds, [];
    }
  }

  /** After an exception only the exception matters: the pool is closed. */
  ghost predicate Agrees(actual: Pool, expected: Pool) {
    if expected.status.Raised? then actual.status == expected.status else actual == expected
  }

  lemma Ahead(p: Pool, n: nat, values: map<int, real>)
    requires n <= |p.events| && values == NextValues(p.policy, p.events[..n])
    ensures HaveValues(p.events, n, values) && ProcessAll(p, n, values) == Processed(p, n)
  {
  }

  lemma NothingLeft(p: Pool, left: nat, values: map<int, real>, goal: Pool)
    requires left <= |p.events| && HaveValues(p.events, left, values)
    requires ProcessAll(p, left, values) == goal && (left == 0 || p.status.Raised?)
    ensures p == goal
  {
  }

  lemma ActionsSubmitted(p: Pool, picks: int -> seq<int>, actors: map<int, Actor>)
    requires actors.Keys == p.actors.Keys && AllFree(p, p.available.Keys)
    requires forall a :: a in p.actors ==>
               actors[a] ==
                 if a in p.available then
                   p.actors[a].(slot := Some(ActCommand(Decide(p.policy, p.available[a], picks(a)))))
                 else p.actors[a]
    ensures SubmitAll(p, picks) == p.(actors := actors, available := map[])
  {
    var goal := SubmitAll(p, picks).actors;
    assert forall a :: a in actors ==> a in goal && actors[a] == goal[a];
    assert forall a :: a in goal ==> a in actors;
  }
}
