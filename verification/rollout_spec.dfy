/** Rollout storage on values: what each add does, and the tables a full collector prepares. */
module RolloutSpec {
  import opened Common
  import opened Transitions
  import opened Gae

  datatype RolloutError =
    | BadActors | BadSettings | UnknownActor | MixedVersions | Incomplete | BadGaeSettings

  datatype Collector = Collector(
    actors: seq<int>, version: int, length: int, columns: map<int, seq<Transition>>, discarded: nat)

  datatype Added = Accepted | Overflow | Rejected(error: RolloutError)

  datatype Prepared = Prepared(
    version: int,
    actors: seq<int>,
    observations: seq<seq<Features>>,
    actions: seq<seq<seq<int>>>,
    rewards: seq<seq<real>>,
    episodeStarts: seq<seq<bool>>,
    values: seq<seq<real>>,
    logProbabilities: seq<seq<real>>,
    advantages: seq<seq<real>>,
    valueTargets: seq<seq<real>>)

  // ---------------------------------------------------------------- sorted actor indices

  predicate Ascending(s: seq<int>) {
    |s| < 2 || (s[0] <= s[1] && Ascending(s[1..]))
  }

  function Insert(x: int, s: seq<int>): (r: seq<int>)
    ensures |r| == |s| + 1 && (r[0] == x || (s != [] && r[0] == s[0]))
  {
    if s == [] || x <= s[0] then [x] + s else [s[0]] + Insert(x, s[1..])
  }

  function Sorted(s: seq<int>): seq<int> {
    if s == [] then [] else Insert(s[0], Sorted(s[1..]))
  }

  // ---------------------------------------------------------------- adding

  function Opened(actors: seq<int>, version: int, length: int): Collector {
    Collector(Sorted(actors), version, length, map a | a in actors :: [], 0)
  }

  function AddResult(c: Collector, x: Transition): Added {
    if x.actor !in c.columns then Rejected(UnknownActor)
    else if x.version != c.version then Rejected(MixedVersions)
    else if |c.columns[x.actor]| >= c.length then Overflow
    else Accepted
  }

  function Add(c: Collector, x: Transition): Collector {
    match AddResult(c, x)
    case Accepted => c.(columns := c.columns[x.actor := c.columns[x.actor] + [x]])
    case Overflow => c.(discarded := c.discarded + 1)
    case Rejected(_) => c
  }

  predicate Complete(c: Collector) {
    forall a :: a in c.columns ==> |c.columns[a]| == c.length
  }

  /** Every collector reachable by adding: one bounded column per sorted actor index. */
  predicate Valid(c: Collector) {
    && 0 < c.length && 0 <= c.version && c.actors != [] && Ascending(c.actors)
    && Distinct(c.actors)
    && (forall a :: a in c.actors ==> a in c.columns)
    && (forall a :: a in c.columns ==> a in c.actors)
    && (forall a :: a in c.columns ==> |c.columns[a]| <= c.length)
    && (forall a, i :: a in c.columns && 0 <= i < |c.columns[a]| ==>
          c.columns[a][i].actor == a && c.columns[a][i].version == c.version)
  }

  // ---------------------------------------------------------------- preparing

  /** The complete columns in the order of the actor indices. */
  function Columns(c: Collector): (columns: seq<seq<Transition>>)
    requires Valid(c)
    ensures |columns| == |c.actors|
  {
    seq(|c.actors|, i requires 0 <= i < |c.actors| =>
      assert c.actors[i] in c.actors; c.columns[c.actors[i]])
  }

  predicate Rectangular(columns: seq<seq<Transition>>, length: int) {
    forall i :: 0 <= i < |columns| ==> |columns[i]| == length
  }

  /** A table with one row per step and one entry per client. */
  function Table<T>(columns: seq<seq<Transition>>, length: nat, f: Transition -> T): seq<seq<T>>
    requires Rectangular(columns, length)
  {
    seq(length, t requires 0 <= t < length =>
      seq(|columns|, i requires 0 <= i < |columns| => f(columns[i][t])))
  }

  function AdvantageTable(columns: seq<seq<Transition>>, length: nat, gamma: real, gaeLambda: real)
    : seq<seq<real>>
    requires Rectangular(columns, length)
  {
    seq(length, t requires 0 <= t < length =>
      seq(|columns|, i requires 0 <= i < |columns| => Advantage(columns[i][t..], gamma, gaeLambda)))
  }

  function ReturnTable(columns: seq<seq<Transition>>, length: nat, gamma: real, gaeLambda: real)
    : seq<seq<real>>
    requires Rectangular(columns, length)
  {
    seq(length, t requires 0 <= t < length =>
      seq(|columns|, i requires 0 <= i < |columns| =>
        Advantage(columns[i][t..], gamma, gaeLambda) + columns[i][t].value))
  }

  predicate GoodSettings(gamma: real, gaeLambda: real) {
    0.0 < gamma <= 1.0 && 0.0 <= gaeLambda <= 1.0
  }

  function Assemble(c: Collector, advantages: seq<seq<real>>, targets: seq<seq<real>>): Prepared
    requires Valid(c) && Complete(c)
  {
    var columns := Columns(c);
    Prepared(
      c.version, c.actors,
      Table(columns, c.length, (x: Transition) => x.observation),
      Table(columns, c.length, (x: Transition) => x.action),
      Table(columns, c.length, (x: Transition) => x.reward),
      Table(columns, c.length, (x: Transition) => x.episodeStart),
      Table(columns, c.length, (x: Transition) => x.value),
      Table(columns, c.length, (x: Transition) => x.logProbability),
      advantages, targets)
  }

  function Tables(c: Collector, gamma: real, gaeLambda: real): Prepared
    requires Valid(c) && Complete(c)
  {
    Assemble(c, AdvantageTable(Columns(c), c.length, gamma, gaeLambda),
             ReturnTable(Columns(c), c.length, gamma, gaeLambda))
  }

  function Prepare(c: Collector, gamma: real, gaeLambda: real): Result<Prepared>
    requires Valid(c)
  {
    if !Complete(c) then Failed(Incomplete)
    else if !GoodSettings(gamma, gaeLambda) then Failed(BadGaeSettings)
    else Success(Tables(c, gamma, gaeLambda))
  }

  datatype Result<+T> = Success(value: T) | Failed(error: RolloutError)
}
