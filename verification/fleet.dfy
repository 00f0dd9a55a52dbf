/** The scheduler with the real environments of its actors: the faithfulness the scheduler relies on
    is an invariant, so every run of a fleet is a run of its pool. */
module Fleets {
  import opened Common
  import opened Reconcile
  import opened PoolSpec
  import opened PoolInvariant
  import opened EnvironmentSpec
  import opened ActorEnvironment
  import PoolSafety

  /** One environment for every actor. */
  datatype Fleet = Fleet(pool: Pool, envs: map<int, Env>)

  /** An actor answers with whatever its environment makes of the messages that arrive. */
  datatype Act =
    | DriveIsCalled(policy: Policy, limit: Option<int>)
    | ActorPicksUp(actor: int)
    | ActorAnswers(actor: int, wire: Wire)
    | DriveTurns(n: nat, picks: int -> seq<int>, boundary: PoolSpec.Boundary)

  /** The actor's environment failed and its event is not yet processed. */
  predicate FailurePosted(events: seq<Event>, a: int) {
    exists i :: 0 <= i < |events| && events[i] == Failed(a)
  }

  predicate InStep(f: Fleet) {
    forall a :: a in f.pool.actors ==>
      a in f.envs && (FailurePosted(f.pool.events, a) || Agree(f.pool.actors[a].seen, f.envs[a]))
  }

  ghost predicate Sound(f: Fleet) {
    Holds(f.pool) && (f.pool.status.Raised? || InStep(f))
  }

  ghost predicate Enabled(f: Fleet, act: Act) {
    match act
    case DriveIsCalled(_, _) => f.pool.status.NotDriving?
    case ActorPicksUp(a) =>
      a in f.pool.actors && f.pool.actors[a].slot.Some? && !f.pool.status.Raised?
    case ActorAnswers(a, _) =>
      a in f.pool.actors && f.pool.actors[a].running.Some? && !f.pool.status.Raised?
    case DriveTurns(n, _, _) => f.pool.status.Driving? && 0 < n <= |f.pool.events|
  }

  function PoolAct(f: Fleet, act: Act): PoolSafety.Act
    requires act.ActorAnswers? ==>
               && act.actor in f.pool.actors && act.actor in f.envs
               && f.pool.actors[act.actor].running.Some?
  {
    match act
    case DriveIsCalled(policy, limit) => PoolSafety.DriveIsCalled(policy, limit)
    case ActorPicksUp(a) => PoolSafety.ActorPicksUp(a)
    case ActorAnswers(a, wire) =>
      PoolSafety.ActorAnswers(a, Execute(f.pool.actors[a], f.envs[a], wire).1)
    case DriveTurns(n, picks, boundary) => PoolSafety.DriveTurns(n, picks, boundary)
  }

  lemma FailedMeansFree(p: Pool, a: int)
    requires Disjoint(p)
    ensures FailurePosted(p.events, a) ==> a in p.actors && Free(p.actors[a])
  {
  }

  /** An actor with a command has seen what its environment shows. */
  lemma BusyAgree(f: Fleet, a: int)
    requires Sound(f) && !f.pool.status.Raised? && a in f.pool.actors && !Free(f.pool.actors[a])
    ensures a in f.envs && Agree(f.pool.actors[a].seen, f.envs[a])
  {
    PoolSafety.BusyMeansDriving(f.pool, a);
    FailedMeansFree(f.pool, a);
  }

  /** The faithfulness the scheduler asks for is always given. */
  lemma AnswersAreFaithful(f: Fleet, act: Act)
    requires Sound(f) && Enabled(f, act)
    ensures act.ActorAnswers? ==>
              && act.actor in f.envs
              && PoolSpec.Faithful(
                   f.pool.actors[act.actor],
                   Execute(f.pool.actors[act.actor], f.envs[act.actor], act.wire).1)
    ensures PoolSafety.Enabled(f.pool, PoolAct(f, act))
  {
    if act.ActorAnswers? {
      BusyAgree(f, act.actor);
      EnvironmentsAreFaithful(f.pool.actors[act.actor], f.envs[act.actor], act.wire);
    }
  }

  /** The pool does its step; an answering actor's environment has done its own. */
  ghost function Next(f: Fleet, act: Act): Fleet
    requires Sound(f) && Enabled(f, act)
  {
    AnswersAreFaithful(f, act);
    Fleet(PoolSafety.Next(f.pool, PoolAct(f, act)),
          if act.ActorAnswers? then
            f.envs[act.actor := Execute(f.pool.actors[act.actor], f.envs[act.actor], act.wire).0]
          else f.envs)
  }

  // ---------------------------------------------------------------- every step

  /** Same actors, every actor has seen what it had, and the same events are queued. */
  predicate SameSights(p: Pool, q: Pool) {
    && q.actors.Keys == p.actors.Keys && q.events == p.events
    && forall a :: a in p.actors ==> q.actors[a].seen == p.actors[a].seen
  }

  /** Unless something raises, n events leave the queue and none of them was a failure. */
  predicate Passed(p: Pool, n: nat, q: Pool)
    requires n <= |p.events|
  {
    && q.actors == p.actors
    && (!q.status.Raised? ==>
          q.events == p.events[n..] && forall i :: 0 <= i < n ==> !p.events[i].Failed?)
  }

  lemma FirstPassed(p: Pool, values: map<int, real>)
    requires p.events != [] && HaveValues(p.events, 1, values)
    ensures Passed(p, 1, TakeFirst(p, values))
  {
  }

  lemma PassedTogether(p: Pool, m: Pool, n: nat, q: Pool)
    requires n < |p.events| && Passed(p, 1, m) && !m.status.Raised? && Passed(m, n, q)
    ensures Passed(p, n + 1, q)
  {
    assert p.events[1..][n..] == p.events[n + 1..];
    assert forall i :: 1 <= i < n + 1 ==> p.events[i] == m.events[i - 1];
  }

  lemma {:induction false} EventsPassed(p: Pool, n: nat, values: map<int, real>)
    requires n <= |p.events| && HaveValues(p.events, n, values)
    ensures Passed(p, n, ProcessAll(p, n, values))
    decreases n
  {
    if n > 0 && !p.status.Raised? {
      var m := TakeFirst(p, values);
      FirstPassed(p, values);
      assert |m.events| == |p.events| - 1;
      assert forall i :: 0 <= i < n - 1 ==> m.events[i] == p.events[i + 1];
      if !m.status.Raised? {
        EventsPassed(m, n - 1, values);
        PassedTogether(p, m, n - 1, ProcessAll(m, n - 1, values));
      }
    }
  }

  lemma SameTogether(p: Pool, m: Pool, q: Pool)
    requires SameSights(p, m) && SameSights(m, q)
    ensures SameSights(p, q)
  {
  }

  lemma SubmitKeepsSights(p: Pool, picks: int -> seq<int>)
    ensures SameSights(p, SubmitAll(p, picks))
  {
  }

  lemma EnterRoundKeepsSights(p: Pool)
    ensures SameSights(p, EnterRound(p))
  {
  }

  lemma BarrierKeepsSights(p: Pool, boundary: PoolSpec.Boundary)
    ensures SameSights(p, Barrier(p, boundary))
  {
    var r := ReconcileRound(p.round, p.policy.version, p.results, p.order);
    if r.Reconciled? && boundary.Continue? {
      var q := p.(completed := p.completed + [r.record], policy := boundary.next);
      EnterRoundKeepsSights(q);
      SameTogether(p, q, EnterRound(q));
    }
  }

  lemma EndingKeepsSights(p: Pool, picks: int -> seq<int>, boundary: PoolSpec.Boundary)
    ensures SameSights(p, FinishTurn(p, picks, boundary))
  {
    var m := if |p.results| == |p.order| then Barrier(p, boundary) else p;
    BarrierKeepsSights(p, boundary);
    SubmitKeepsSights(m, picks);
    SameTogether(p, m, SubmitAll(m, picks));
  }

  lemma TurnKeepsInStep(f: Fleet, n: nat, picks: int -> seq<int>, boundary: PoolSpec.Boundary)
    requires InStep(f) && f.pool.status.Driving? && n <= |f.pool.events|
    ensures var q := Iterate(f.pool, n, picks, boundary);
            q.status.Raised? || InStep(Fleet(q, f.envs))
  {
    var p := f.pool;
    EventsPassed(p, n, NextValues(p.policy, p.events[..n]));
    var m := Processed(p, n);
    var q := Iterate(p, n, picks, boundary);
    if !m.status.Raised? {
      EndingKeepsSights(m, picks, boundary);
      forall a | a in q.actors
        ensures a in f.envs && (FailurePosted(q.events, a) || Agree(q.actors[a].seen, f.envs[a]))
      {
        assert a in p.actors;
        if FailurePosted(p.events, a) {
          var i :| 0 <= i < |p.events| && p.events[i] == Failed(a);
          assert q.events[i - n] == Failed(a);
        }
      }
    }
  }

  lemma AnswerKeepsInStep(f: Fleet, a: int, wire: Wire)
    requires Sound(f) && Enabled(f, ActorAnswers(a, wire)) && InStep(f)
    ensures InStep(Next(f, ActorAnswers(a, wire)))
  {
    BusyAgree(f, a);
    EnvironmentsAreFaithful(f.pool.actors[a], f.envs[a], wire);
    var p, q := f.pool, Next(f, ActorAnswers(a, wire)).pool;
    var response := Execute(p.actors[a], f.envs[a], wire).1;
    assert q.events == p.events + [PoolSpec.Outcome(a, p.actors[a], response)];
    if response.CallFailed? {
      assert q.events[|p.events|] == Failed(a);
    }
    forall b | b in p.actors && b != a && FailurePosted(p.events, b)
      ensures FailurePosted(q.events, b)
    {
      var i :| 0 <= i < |p.events| && p.events[i] == Failed(b);
      assert q.events[i] == Failed(b);
    }
  }

  lemma CallKeepsInStep(f: Fleet, policy: Policy, limit: Option<int>)
    requires Sound(f) && f.pool.status.NotDriving?
    ensures var q := StartDrive(f.pool, policy, limit);
            q.status.Raised? || InStep(Fleet(q, f.envs))
  {
  }

  lemma NextKeeps(f: Fleet, act: Act)
    requires Sound(f) && Enabled(f, act)
    ensures Sound(Next(f, act))
  {
    AnswersAreFaithful(f, act);
    PoolSafety.NextKeeps(f.pool, PoolAct(f, act));
    match act
    case DriveIsCalled(policy, limit) => CallKeepsInStep(f, policy, limit);
    case ActorPicksUp(a) =>
    case ActorAnswers(a, wire) => AnswerKeepsInStep(f, a, wire);
    case DriveTurns(n, picks, boundary) => TurnKeepsInStep(f, n, picks, boundary);
  }

  // ---------------------------------------------------------------- whole runs

  ghost predicate Possible(f: Fleet, acts: seq<Act>)
    requires Sound(f)
    decreases |acts|
  {
    acts != [] ==>
      && Enabled(f, acts[0])
      && (NextKeeps(f, acts[0]); Possible(Next(f, acts[0]), acts[1..]))
  }

  ghost function After(f: Fleet, acts: seq<Act>): Fleet
    requires Sound(f) && Possible(f, acts)
    decreases |acts|
  {
    if acts == [] then f
    else
      NextKeeps(f, acts[0]);
      After(Next(f, acts[0]), acts[1..])
  }

  /** Every run of a fleet is a run of its pool, in which every answer is faithful: what holds in
      every run of a pool holds with the real environments, whatever arrives on their wires. */
  lemma {:induction false} FleetsRunPools(f: Fleet, acts: seq<Act>)
    returns (poolActs: seq<PoolSafety.Act>)
    requires Sound(f) && Possible(f, acts)
    ensures Sound(After(f, acts))
    ensures PoolSafety.Possible(f.pool, poolActs)
    ensures PoolSafety.After(f.pool, poolActs) == After(f, acts).pool
    decreases |acts|
  {
    poolActs := [];
    if acts != [] {
      AnswersAreFaithful(f, acts[0]);
      NextKeeps(f, acts[0]);
      var rest := FleetsRunPools(Next(f, acts[0]), acts[1..]);
      poolActs := [PoolAct(f, acts[0])] + rest;
      assert poolActs[1..] == rest;
    }
  }

  /** A started pool with one new environment for every actor. */
  ghost function Started(order: seq<int>, policy: Policy, envs: map<int, Env>): Fleet {
    Fleet(PoolSafety.Started(order, policy), envs)
  }

  lemma StartedIsSound(order: seq<int>, policy: Policy, envs: map<int, Env>)
    requires order != [] && Distinct(order) && forall a :: a in order ==> a in envs
    ensures Sound(Started(order, policy, envs))
  {
  }
}
