/** What stands where in a prepared rollout. */
module RolloutTables {
  import opened Transitions
  import opened Gae
  import opened RolloutSpec
  import opened RolloutOrder

  predicate Rows<T>(table: seq<seq<T>>, length: nat, width: nat) {
    |table| == length && forall t :: 0 <= t < length ==> |table[t]| == width
  }

  /** Every table has one row per step and one entry per client. */
  predicate Shaped(r: Prepared, length: nat, width: nat) {
    && Rows(r.observations, length, width) && Rows(r.actions, length, width)
    && Rows(r.rewards, length, width) && Rows(r.episodeStarts, length, width)
    && Rows(r.values, length, width) && Rows(r.logProbabilities, length, width)
    && Rows(r.advantages, length, width) && Rows(r.valueTargets, length, width)
  }

  /** Step t of client i is this transition. */
  predicate Shows(r: Prepared, length: nat, t: nat, i: nat, x: Transition)
    requires Shaped(r, length, |r.actors|) && t < length && i < |r.actors|
  {
    && r.actors[i] == x.actor && r.version == x.version
    && r.observations[t][i] == x.observation && r.actions[t][i] == x.action
    && r.rewards[t][i] == x.reward && r.episodeStarts[t][i] == x.episodeStart
    && r.values[t][i] == x.value && r.logProbabilities[t][i] == x.logProbability
    && r.valueTargets[t][i] == r.advantages[t][i] + x.value
  }

  /** Column i shows these transitions, with their advantages. */
  predicate ShowsColumn(
      r: Prepared, length: nat, i: nat, xs: seq<Transition>, gamma: real, gaeLambda: real)
    requires Shaped(r, length, |r.actors|) && i < |r.actors| && length <= |xs|
  {
    forall t :: 0 <= t < length ==>
      && Shows(r, length, t, i, xs[t])
      && r.advantages[t][i] == Advantage(xs[t..length], gamma, gaeLambda)
  }

  predicate FullAt(c: Collector, i: nat)
    requires i < |c.actors|
  {
    c.actors[i] in c.columns && |c.columns[c.actors[i]]| == c.length
  }

  /** A rollout is prepared if and only if every column is full and the settings are in range. */
  lemma PreparedWhenFull(c: Collector, gamma: real, gaeLambda: real)
    requires Valid(c)
    ensures Prepare(c, gamma, gaeLambda).Success? <==>
              && (forall i :: 0 <= i < |c.actors| ==> FullAt(c, i))
              && 0.0 < gamma <= 1.0 && 0.0 <= gaeLambda <= 1.0
  {
    if forall i :: 0 <= i < |c.actors| ==> FullAt(c, i) {
      forall a | a in c.columns ensures |c.columns[a]| == c.length {
        var i :| 0 <= i < |c.actors| && c.actors[i] == a;
        assert FullAt(c, i);
      }
    } else {
      var i :| 0 <= i < |c.actors| && !FullAt(c, i);
      assert c.actors[i] in c.actors;
    }
  }

  /** A prepared rollout shows its collector's columns, entry by entry. */
  lemma PreparedEntries(c: Collector, gamma: real, gaeLambda: real, r: Prepared, i: nat)
    requires Valid(c) && Prepare(c, gamma, gaeLambda) == Success(r) && i < |c.actors|
    ensures r.actors == c.actors && Shaped(r, c.length, |r.actors|)
    ensures c.actors[i] in c.columns && |c.columns[c.actors[i]]| == c.length
    ensures ShowsColumn(r, c.length, i, c.columns[c.actors[i]], gamma, gaeLambda)
  {
    var xs := c.columns[c.actors[i]];
    assert Columns(c)[i] == xs;
    forall t | 0 <= t < c.length
      ensures Shows(r, c.length, t, i, xs[t])
      ensures r.advantages[t][i] == Advantage(xs[t..c.length], gamma, gaeLambda)
    {
      assert xs[t..] == xs[t..c.length];
    }
  }

  /** The rollout shows every client's first arrivals. */
  predicate ShowsArrivals(
      r: Prepared, actors: seq<int>, length: nat, arrivals: seq<Transition>, gamma: real,
      gaeLambda: real)
  {
    && r.actors == Sorted(actors) && Shaped(r, length, |r.actors|)
    && forall i :: 0 <= i < |r.actors| ==>
         && length <= |Only(arrivals, r.actors[i])|
         && ShowsColumn(r, length, i, Only(arrivals, r.actors[i]), gamma, gaeLambda)
  }

  lemma SameBeginning(
      r: Prepared, length: nat, i: nat, xs: seq<Transition>, ys: seq<Transition>, gamma: real,
      gaeLambda: real)
    requires Shaped(r, length, |r.actors|) && i < |r.actors| && length <= |xs| && length <= |ys|
    requires xs[..length] == ys[..length] && ShowsColumn(r, length, i, xs, gamma, gaeLambda)
    ensures ShowsColumn(r, length, i, ys, gamma, gaeLambda)
  {
    forall t | 0 <= t < length
      ensures Shows(r, length, t, i, ys[t])
      ensures r.advantages[t][i] == Advantage(ys[t..length], gamma, gaeLambda)
    {
      assert xs[t] == xs[..length][t] && ys[t] == ys[..length][t];
      assert xs[t..length] == xs[..length][t..] && ys[t..length] == ys[..length][t..];
    }
  }

  /** Step t of client i is the client's arrival t, whatever came between its arrivals. */
  lemma PreparedArrivals(
      actors: seq<int>, version: int, length: nat, arrivals: seq<Transition>, gamma: real,
      gaeLambda: real, r: Prepared)
    requires Fits(Opened(actors, version, length), arrivals)
    requires Valid(AddAll(Opened(actors, version, length), arrivals))
    requires Prepare(AddAll(Opened(actors, version, length), arrivals), gamma, gaeLambda) == Success(r)
    ensures ShowsArrivals(r, actors, length, arrivals, gamma, gaeLambda)
  {
    var c := AddAll(Opened(actors, version, length), arrivals);
    ColumnsAreFirstArrivals(actors, version, length, arrivals);
    PreparedEntries(c, gamma, gaeLambda, r, 0);
    forall i | 0 <= i < |r.actors|
      ensures length <= |Only(arrivals, r.actors[i])|
      ensures ShowsColumn(r, length, i, Only(arrivals, r.actors[i]), gamma, gaeLambda)
    {
      PreparedEntries(c, gamma, gaeLambda, r, i);
      SameBeginning(r, length, i, c.columns[c.actors[i]], Only(arrivals, r.actors[i]), gamma,
                    gaeLambda);
    }
  }

  lemma {:induction false} OnlyGrows(xs: seq<Transition>, ys: seq<Transition>, a: int)
    ensures |Only(xs, a)| <= |Only(xs + ys, a)|
    ensures Only(xs + ys, a)[..|Only(xs, a)|] == Only(xs, a)
    decreases |ys|
  {
    if ys == [] {
      assert xs + ys == xs;
    } else {
      var front := ys[..|ys| - 1];
      assert (xs + ys)[..|xs + ys| - 1] == xs + front;
      OnlyGrows(xs, front, a);
    }
  }

  /** Later arrivals change nothing. */
  lemma LaterArrivalsShowToo(
      r: Prepared, actors: seq<int>, length: nat, arrivals: seq<Transition>, later: seq<Transition>,
      gamma: real, gaeLambda: real)
    requires ShowsArrivals(r, actors, length, arrivals, gamma, gaeLambda)
    ensures ShowsArrivals(r, actors, length, arrivals + later, gamma, gaeLambda)
  {
    forall i | 0 <= i < |r.actors|
      ensures length <= |Only(arrivals + later, r.actors[i])|
      ensures ShowsColumn(r, length, i, Only(arrivals + later, r.actors[i]), gamma, gaeLambda)
    {
      OnlyGrows(arrivals, later, r.actors[i]);
      var xs, ys := Only(arrivals, r.actors[i]), Only(arrivals + later, r.actors[i]);
      assert ys[..length] == ys[..|xs|][..length];
      SameBeginning(r, length, i, xs, ys, gamma, gaeLambda);
    }
  }
}
