/** The collector object: per-actor lists that grow in place until every client has its share. */
module RolloutClass {
  import opened Common
  import opened Transitions
  import opened Gae
  import opened RolloutSpec
  import RolloutOrder

  class RolloutCollector {
    var actorIndices: seq<int>
    var policyVersion: int
    var lengthPerClient: int
    var transitions: map<int, seq<Transition>>
    var discardedAfterClose: nat

    ghost function State(): Collector
      reads this
    {
      Collector(actorIndices, policyVersion, lengthPerClient, transitions, discardedAfterClose)
    }

    constructor (actors: seq<int>, version: int, length: int)
      ensures State() == Opened(actors, version, length)
    {
      actorIndices := Sorted(actors);
      policyVersion, lengthPerClient := version, length;
      transitions := map a | a in actors :: [];
      discardedAfterClose := 0;
    }

    /** The checked construction: a bad actor list or bad settings open nothing. */
    static method Open(actors: seq<int>, version: int, length: int)
      returns (r: Result<RolloutCollector>)
      ensures actors == [] || !Distinct(actors) ==> r == Failed(BadActors)
      ensures actors != [] && Distinct(actors) && (version < 0 || length <= 0) ==>
                r == Failed(BadSettings)
      ensures actors != [] && Distinct(actors) && 0 <= version && 0 < length ==>
                r.Success? && fresh(r.value) && Valid(r.value.State())
                && r.value.State() == Opened(actors, version, length)
    {
      if actors == [] || !Distinct(actors) {
        return Failed(BadActors);
      }
      if version < 0 || length <= 0 {
        return Failed(BadSettings);
      }
      RolloutOrder.OpenedIsValid(actors, version, length);
      var collector := new RolloutCollector(actors, version, length);
      return Success(collector);
    }

    method AddTransition(x: Transition) returns (added: Added)
      modifies this
      ensures added == AddResult(old(State()), x) && State() == Add(old(State()), x)
      ensures old(Valid(State())) ==> Valid(State())
    {
      if Valid(State()) {
        RolloutOrder.AddKeepsValid(State(), x);
      }
      if x.actor !in transitions {
        return Rejected(UnknownActor);
      }
      if x.version != policyVersion {
        return Rejected(MixedVersions);
      }
      var target := transitions[x.actor];
      if |target| >= lengthPerClient {
        discardedAfterClose := discardedAfterClose + 1;
        return Overflow;
      }
      transitions := transitions[x.actor := target + [x]];
      return Accepted;
    }

    method IsComplete() returns (complete: bool)
      ensures complete <==> Complete(State())
    {
      complete := forall a :: a in transitions ==> |transitions[a]| == lengthPerClient;
    }

    method PrepareRollout(gamma: real, gaeLambda: real) returns (r: Result<Prepared>)
      requires Valid(State())
      ensures r == Prepare(State(), gamma, gaeLambda)
    {
      if exists a :: a in transitions && |transitions[a]| != lengthPerClient {
        return Failed(Incomplete);
      }
      if !GoodSettings(gamma, gaeLambda) {
        return Failed(BadGaeSettings);
      }
      var c := Collector(
        actorIndices, policyVersion, lengthPerClient, transitions, discardedAfterClose);
      var columns := Columns(c);
      var advantages, targets := FillAdvantages(columns, lengthPerClient, gamma, gaeLambda);
      return Success(Assemble(c, advantages, targets));
    }
  }

  /** One backward pass per client over a table of zeros. */
  method FillAdvantages(columns: seq<seq<Transition>>, length: nat, gamma: real, gaeLambda: real)
    returns (table: seq<seq<real>>, targets: seq<seq<real>>)
    requires Rectangular(columns, length)
    ensures table == AdvantageTable(columns, length, gamma, gaeLambda)
    ensures targets == ReturnTable(columns, length, gamma, gaeLambda)
  {
    var advantages := new real[length, |columns|]((t, i) => 0.0);
    for client := 0 to |columns|
      invariant forall t, i :: 0 <= t < length && 0 <= i < client ==>
                  advantages[t, i] == Advantage(columns[i][t..], gamma, gaeLambda)
    {
      BackwardPass(columns[client], gamma, gaeLambda, advantages, client);
    }
    table := seq(length, t requires 0 <= t < length reads advantages =>
      seq(|columns|, i requires 0 <= i < |columns| reads advantages => advantages[t, i]));
    targets := seq(length, t requires 0 <= t < length reads advantages =>
      seq(|columns|, i requires 0 <= i < |columns| reads advantages =>
        advantages[t, i] + columns[i][t].value));
    assert forall t :: 0 <= t < length ==>
      table[t] == AdvantageTable(columns, length, gamma, gaeLambda)[t];
    assert forall t :: 0 <= t < length ==>
      targets[t] == ReturnTable(columns, length, gamma, gaeLambda)[t];
  }
}
