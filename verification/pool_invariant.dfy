/** The partition the scheduler keeps, and why it never stalls, overfills or mixes rounds. */
module PoolInvariant {
  import opened Common
  import opened Transitions
  import opened Reconcile
  import opened PoolSpec

  // ---------------------------------------------------------------- the partition

  predicate Free(a: Actor) {
    a.slot.None? && a.running.None?
  }

  /** The actor's operation is finished and its event not yet processed. */
  predicate Posted(events: seq<Event>, a: int) {
    exists i :: 0 <= i < |events| && events[i].actor == a
  }

  /** Queued, executing or posted: an operation is outstanding. */
  predicate Outstanding(p: Pool, a: int)
    requires a in p.actors
  {
    !Free(p.actors[a]) || Posted(p.events, a)
  }

  predicate OneEventEach(events: seq<Event>) {
    forall i, j :: 0 <= i < j < |events| ==> events[i].actor != events[j].actor
  }

  /** No actor is in two places. */
  predicate Disjoint(p: Pool) {
    && OneEventEach(p.events)
    && (forall a :: a in p.actors ==> p.actors[a].slot.None? || p.actors[a].running.None?)
    && (forall i :: 0 <= i < |p.events| ==>
          && p.events[i].actor in p.actors && Free(p.actors[p.events[i].actor])
          && p.events[i].actor !in p.available && p.events[i].actor !in p.results)
    && (forall a :: a in p.available ==> a in p.actors && Free(p.actors[a]) && a !in p.results)
    && (forall a :: a in p.results ==> a in p.actors && Free(p.actors[a]))
  }

  /** Every actor is somewhere. */
  predicate Covered(p: Pool) {
    forall a :: a in p.actors ==> Outstanding(p, a) || a in p.available || a in p.results
  }

  // ---------------------------------------------------------------- one round, one policy

  predicate InRound(p: Pool, sight: Sight) {
    sight.round == p.round && sight.version == p.policy.version
  }

  /** The decision is the current policy's answer to the observation. */
  predicate DecidedBy(policy: Policy, seen: Features, d: Decision) {
    d.value == policy.critic(seen) && d.logProbability == policy.likelihood(seen, d.choices)
  }

  predicate GoodCommand(p: Pool, a: Actor, c: Command) {
    match c
    case ArmCommand(round, version) => round == p.round && version == p.policy.version
    case ActCommand(d) =>
      a.seen.Some? && InRound(p, a.seen.value) && DecidedBy(p.policy, a.seen.value.features, d)
  }

  predicate GoodActor(p: Pool, a: Actor) {
    && (a.slot.Some? ==> GoodCommand(p, a, a.slot.value))
    && (a.running.Some? ==> GoodCommand(p, a, a.running.value))
  }

  predicate GoodEvent(p: Pool, e: Event)
    requires e.actor in p.actors
  {
    match e
    case Failed(_) => true
    case Armed(actor, sight) => InRound(p, sight) && p.actors[actor].seen == Some(sight)
    case Stepped(actor, previous, d, step) =>
      && InRound(p, previous) && DecidedBy(p.policy, previous.features, d)
      && InRound(p, step.sight)
      && step.report.round == p.round && step.report.version == p.policy.version
      && (!Finished(step) ==> p.actors[actor].seen == Some(step.sight))
  }

  predicate GoodOffer(p: Pool, a: int)
    requires a in p.available
  {
    && a in p.actors && p.actors[a].seen.Some? && InRound(p, p.actors[a].seen.value)
    && p.available[a].features == p.actors[a].seen.value.features
  }

  predicate Homogeneous(p: Pool) {
    && (forall a :: a in p.actors ==> GoodActor(p, p.actors[a]))
    && (forall i :: 0 <= i < |p.events| ==>
          p.events[i].actor in p.actors && GoodEvent(p, p.events[i]))
    && (forall a :: a in p.available ==> GoodOffer(p, a))
    && (forall a :: a in p.results ==>
          p.results[a].round == p.round && p.results[a].version == p.policy.version)
  }

  /** Everything the transition holds came from the one policy of its round. */
  predicate OnePolicy(usedIn: map<int, Policy>, t: Transition) {
    && t.round in usedIn
    && var policy := usedIn[t.round];
       && t.version == policy.version
       && t.value == policy.critic(t.observation)
       && t.logProbability == policy.likelihood(t.observation, t.action)
       && t.nextValue == policy.critic(t.nextObservation)
  }

  predicate SunkWell(sunk: seq<Transition>, usedIn: map<int, Policy>) {
    forall k :: 0 <= k < |sunk| ==> OnePolicy(usedIn, sunk[k])
  }

  // ---------------------------------------------------------------- the invariant

  predicate Listed(order: seq<int>, actors: map<int, Actor>) {
    && order != [] && Distinct(order)
    && (forall i :: 0 <= i < |order| ==> order[i] in actors)
    && (forall a :: a in actors ==> a in order)
  }

  predicate Roster(p: Pool) {
    Listed(p.order, p.actors)
  }

  predicate History(p: Pool) {
    && p.valid == |p.sunk| && SunkWell(p.sunk, p.usedIn)
    && forall r :: r in p.usedIn ==> r <= p.sequence
  }

  /** While driving, at any point inside the loop. */
  ghost predicate Within(p: Pool) {
    && Roster(p) && Disjoint(p) && Covered(p) && Homogeneous(p) && History(p)
    && p.round == p.sequence && p.round in p.usedIn && p.usedIn[p.round] == p.policy
  }

  /** Between calls of drive: nothing queued, executing or posted. */
  predicate AtRest(p: Pool) {
    && Roster(p) && History(p) && p.events == []
    && forall a :: a in p.actors ==> Free(p.actors[a])
  }

  /** Errors that are not the scheduler's doing. */
  predicate Blameless(error: PoolError) {
    match error
    case Departed => true
    case BoundaryFailed => true
    case BadRound(d) => d !in {IncompletePool, DifferentRounds, DifferentVersions}
    case _ => false
  }

  ghost predicate Holds(p: Pool) {
    && Roster(p) && History(p)
    && match p.status
       case Raised(error) => Blameless(error)
       case NotDriving => AtRest(p)
       case Driving => Within(p) && |p.available| == 0 && |p.results| < |p.order|
  }

  // ---------------------------------------------------------------- actor threads

  lemma TakeKeeps(p: Pool, index: int)
    requires Within(p) && index in p.actors && p.actors[index].slot.Some?
    ensures Within(ActorTakes(p, index))
  {
    var q := ActorTakes(p, index);
    assert !Free(p.actors[index]);
    forall a | a in q.actors ensures Outstanding(q, a) || a in q.available || a in q.results {
      assert Outstanding(p, a) || a in p.available || a in p.results;
    }
    assert Disjoint(q);
    assert Homogeneous(q);
  }

  lemma FinishKeeps(p: Pool, index: int, response: Response)
    requires Within(p) && index in p.actors && PoolSpec.Faithful(p.actors[index], response)
    ensures Within(ActorFinishes(p, index, response))
  {
    var q := ActorFinishes(p, index, response);
    assert !Free(p.actors[index]) && Free(q.actors[index]);
    FinishKeepsDisjoint(p, index, response);
    FinishKeepsCovered(p, index, response);
    FinishKeepsHomogeneous(p, index, response);
  }

  lemma FinishKeepsDisjoint(p: Pool, index: int, response: Response)
    requires Disjoint(p) && index in p.actors && PoolSpec.Faithful(p.actors[index], response)
    ensures Disjoint(ActorFinishes(p, index, response))
  {
  }

  lemma FinishKeepsCovered(p: Pool, index: int, response: Response)
    requires Covered(p) && index in p.actors && PoolSpec.Faithful(p.actors[index], response)
    ensures Covered(ActorFinishes(p, index, response))
  {
    var q := ActorFinishes(p, index, response);
    assert q.events[|p.events|].actor == index;
    forall a | a in q.actors ensures Outstanding(q, a) || a in q.available || a in q.results {
      assert Outstanding(p, a) || a in p.available || a in p.results;
      if a != index && Posted(p.events, a) {
        var i :| 0 <= i < |p.events| && p.events[i].actor == a;
        assert q.events[i].actor == a;
      }
    }
  }

  lemma FinishKeepsHomogeneous(p: Pool, index: int, response: Response)
    requires Homogeneous(p) && Disjoint(p)
    requires index in p.actors && PoolSpec.Faithful(p.actors[index], response)
    ensures Homogeneous(ActorFinishes(p, index, response))
  {
  }

  // ---------------------------------------------------------------- processing events

  predicate ValuedBy(policy: Policy, events: seq<Event>, n: nat, values: map<int, real>)
    requires n <= |events|
  {
    forall i :: 0 <= i < n && NeedsValue(events[i]) ==>
      events[i].actor in values
      && values[events[i].actor] == policy.critic(events[i].step.sight.features)
  }

  /** One event per actor is what keeps the value dictionary from overwriting itself. */
  lemma {:induction false} NextValuesAreRight(policy: Policy, events: seq<Event>, n: nat)
    requires n <= |events| && OneEventEach(events)
    ensures ValuedBy(policy, events, n, NextValues(policy, events[..n]))
  {
    if n > 0 {
      NextValuesAreRight(policy, events, n - 1);
      assert events[..n][..n - 1] == events[..n - 1];
      assert events[..n][n - 1] == events[n - 1];
    }
  }

  /** The first event's actor becomes available, or has its result. */
  ghost predicate Moved(p: Pool, q: Pool)
    requires p.events != []
  {
    && q.events == p.events[1..] && q.actors == p.actors && q.order == p.order
    && q.policy == p.policy && q.round == p.round && q.sequence == p.sequence
    && q.usedIn == p.usedIn && q.status == p.status
    && ((&& !p.events[0].Failed? && InRound(p, ShownBy(p.events[0]))
         && q.available
            == p.available[p.events[0].actor := Offer(ShownBy(p.events[0]).features, p.events[0].Armed?)]
         && q.results == p.results
         && (p.events[0].Stepped? ==> !Finished(p.events[0].step)))
        || (&& p.events[0].Stepped? && q.available == p.available
            && q.results == p.results[p.events[0].actor := p.events[0].step.report]))
  }

  function ShownBy(e: Event): Sight
    requires !e.Failed?
  {
    if e.Armed? then e.sight else e.step.sight
  }

  lemma ProcessMoves(p: Pool, values: map<int, real>)
    requires p.events != [] && Homogeneous(p) && ValuedBy(p.policy, p.events, 1, values)
    ensures var q := TakeFirst(p, values);
            q.order == p.order && (q.status == Raised(Departed) || Moved(p, q))
  {
    assert GoodEvent(p, p.events[0]);
  }

  lemma MoveKeepsDisjoint(p: Pool, q: Pool)
    requires p.events != [] && Disjoint(p) && Moved(p, q)
    ensures Disjoint(q)
  {
  }

  lemma MoveKeepsCovered(p: Pool, q: Pool)
    requires p.events != [] && Covered(p) && Moved(p, q)
    ensures Covered(q)
  {
  }

  lemma MoveKeepsHomogeneous(p: Pool, q: Pool)
    requires p.events != [] && Homogeneous(p) && Moved(p, q)
    ensures Homogeneous(q)
  {
  }

  lemma ProcessKeepsHistory(p: Pool, values: map<int, real>)
    requires Within(p) && p.events != [] && ValuedBy(p.policy, p.events, 1, values)
    ensures History(TakeFirst(p, values))
  {
    var e := p.events[0];
    assert GoodEvent(p, e);
    if NeedsValue(e) {
      assert OnePolicy(p.usedIn, TransitionOf(p, e, values[e.actor]));
    }
  }

  lemma ProcessKeeps(p: Pool, values: map<int, real>)
    requires Within(p) && p.status.Driving? && p.events != []
    requires ValuedBy(p.policy, p.events, 1, values)
    ensures var q := TakeFirst(p, values);
            && q.policy == p.policy && q.events == p.events[1..]
            && q.sequence == p.sequence && q.order == p.order && Roster(q) && History(q)
            && (q.status == Raised(Departed) || (q.status.Driving? && Within(q)))
  {
    var q := TakeFirst(p, values);
    ProcessMoves(p, values);
    ProcessKeepsHistory(p, values);
    if q.status.Driving? {
      MoveKeepsDisjoint(p, q);
      MoveKeepsCovered(p, q);
      MoveKeepsHomogeneous(p, q);
    }
  }

  /** Processing leads from one good state to another, unless a client departed. */
  ghost predicate Keeps(p: Pool, q: Pool) {
    && q.order == p.order && q.policy == p.policy && Roster(q) && History(q)
    && (q.status == Raised(Departed) || (q.status.Driving? && Within(q)))
  }

  lemma KeepsTogether(p: Pool, m: Pool, q: Pool)
    requires Keeps(p, m) && Keeps(m, q)
    ensures Keeps(p, q)
  {
  }

  /** The first of several events leaves the rest as good as they were. */
  lemma FirstKeeps(p: Pool, n: nat, values: map<int, real>)
    requires Within(p) && p.status.Driving? && 0 < n <= |p.events|
    requires ValuedBy(p.policy, p.events, n, values)
    ensures var m := TakeFirst(p, values);
            && Keeps(p, m) && |m.events| == |p.events| - 1
            && ValuedBy(m.policy, m.events, n - 1, values)
  {
    ProcessKeeps(p, values);
    assert forall i :: 0 <= i < n - 1 ==> TakeFirst(p, values).events[i] == p.events[i + 1];
  }

  lemma {:induction false} ProcessAllKeeps(p: Pool, n: nat, values: map<int, real>)
    requires Within(p) && p.status.Driving? && n <= |p.events|
    requires ValuedBy(p.policy, p.events, n, values)
    ensures Keeps(p, ProcessAll(p, n, values))
    decreases n
  {
    if n > 0 {
      FirstKeeps(p, n, values);
      var m := TakeFirst(p, values);
      if m.status.Driving? {
        ProcessAllKeeps(m, n - 1, values);
        KeepsTogether(p, m, ProcessAll(m, n - 1, values));
      }
    }
  }

  // ---------------------------------------------------------------- submitting

  lemma SubmitKeeps(p: Pool, picks: int -> seq<int>)
    requires Within(p)
    ensures SubmitAll(p, picks).status == p.status && Within(SubmitAll(p, picks))
  {
    assert AllFree(p, p.available.Keys);
    var q := SubmitAll(p, picks);
    forall a | a in q.actors
      ensures GoodActor(q, q.actors[a]) && (a in p.available ==> q.actors[a].slot.Some?)
      ensures q.actors[a].slot.None? || q.actors[a].running.None?
      ensures Outstanding(q, a) || a in q.results
    {
      assert GoodActor(p, p.actors[a]);
      assert Outstanding(p, a) || a in p.available || a in p.results;
      if a in p.available { assert GoodOffer(p, a); }
    }
    assert Disjoint(q);
    forall i | 0 <= i < |q.events| ensures q.events[i].actor in q.actors && GoodEvent(q, q.events[i])
    {
      assert GoodEvent(p, p.events[i]) && p.events[i].actor !in p.available;
    }
  }

  // ---------------------------------------------------------------- the barrier

  function ToSet(s: seq<int>): set<int> {
    set a | a in s
  }

  lemma {:induction false} DistinctSize(s: seq<int>)
    requires Distinct(s)
    ensures |ToSet(s)| == |s|
  {
    if s != [] {
      var front, last := s[..|s| - 1], s[|s| - 1];
      DistinctSize(front);
      assert s == front + [last] && last !in front;
      assert ToSet(s) == ToSet(front) + {last};
    }
  }

  lemma SubsetFills(part: set<int>, whole: set<int>)
    requires part <= whole
    ensures |part| <= |whole| && (|part| == |whole| ==> part == whole)
  {
    assert |whole - part| == |whole| - |part|;
    if |part| == |whole| {
      assert whole - part == {};
    }
  }

  /** As many results as actors means a result from every actor; never more. */
  lemma FullMeansEveryone(p: Pool)
    requires Roster(p) && forall a :: a in p.results ==> a in p.actors
    ensures |p.results| <= |p.order|
    ensures |p.results| == |p.order| ==> forall a :: a in p.actors ==> a in p.results
  {
    DistinctSize(p.order);
    forall a | a in p.results.Keys ensures a in ToSet(p.order) {
      assert a in p.results && a in p.order;
    }
    SubsetFills(p.results.Keys, ToSet(p.order));
    assert |p.results.Keys| == |p.results|;
    if |p.results| == |p.order| {
      forall a | a in p.actors ensures a in p.results {
        assert a in p.order;
        assert a in ToSet(p.order);
        assert a in p.results.Keys;
      }
    }
  }
}
