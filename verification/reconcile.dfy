/** One record of a shared round from what every client of the fixed pool reported about it. */
module Reconcile {
  import opened Common
  import opened Packets

  /** What one client's last exchange says. An outcome of None is none the trainer knows. */
  datatype Report = Report(
    round: int,
    version: int,
    uuid: string,
    name: string,
    outcome: Option<Outcome>,
    winner: Option<string>,
    participants: int,
    completionTime: real,
    bestDistance: real,
    direction: Direction,
    activePlayers: int)

  datatype Disagreement =
    | IncompletePool | DifferentRounds | DifferentVersions | DifferentCounts | TooFewParticipants
    | DifferentDirections | InvalidOutcome | SpuriousWinner | ConflictingOutcomes
    | DifferentWinners | ImpossibleExternalWinner | OutsidersUnaccounted

  datatype GlobalRound = GlobalRound(
    round: int,
    version: int,
    completed: bool,
    controlledCompletion: bool,
    stopped: bool,
    terminalObserved: bool,
    winner: Option<string>,
    participants: int,
    completionTime: Option<real>,
    bestDistance: real,
    eliminations: nat,
    players: seq<Report>)

  datatype Reconciled = Reconciled(record: GlobalRound) | Disagree(error: Disagreement)

  datatype RoundOutcome =
    | CompletedRound | ExternalWinRound | StoppedRound | DrawRound | ControlledPoolEliminated

  function OutcomeOf(g: GlobalRound): RoundOutcome {
    if g.controlledCompletion then CompletedRound
    else if g.completed then ExternalWinRound
    else if g.stopped then StoppedRound
    else if g.terminalObserved then DrawRound
    else ControlledPoolEliminated
  }

  // ---------------------------------------------------------------- over lists of reports

  function With(players: seq<Report>, outcome: Outcome): seq<Report> {
    if players == [] then []
    else (if players[0].outcome == Some(outcome) then [players[0]] else [])
         + With(players[1..], outcome)
  }

  /** The selection keeps every report as often as it occurs. */
  lemma {:induction false} WithKeepsMultiplicity(players: seq<Report>, outcome: Outcome, p: Report)
    ensures multiset(With(players, outcome))[p]
            == if p.outcome == Some(outcome) then multiset(players)[p] else 0
  {
    if players != [] {
      WithKeepsMultiplicity(players[1..], outcome, p);
      assert players == [players[0]] + players[1..];
      assert multiset(players) == multiset{players[0]} + multiset(players[1..]);
    }
  }

  predicate AllWithin(players: seq<Report>, outcomes: set<Outcome>) {
    forall i :: 0 <= i < |players| ==>
      players[i].outcome.Some? && players[i].outcome.value in outcomes
  }

  function Least(s: seq<real>): (r: real)
    requires s != []
    ensures r in s && forall x :: x in s ==> r <= x
  {
    assert s == [s[0]] + s[1..];
    if |s| == 1 then s[0]
    else var r := Least(s[1..]); if s[0] <= r then s[0] else r
  }

  function Times(players: seq<Report>): (r: seq<real>)
    ensures |r| == |players| && forall i :: 0 <= i < |r| ==> r[i] == players[i].completionTime
  {
    seq(|players|, i requires 0 <= i < |players| => players[i].completionTime)
  }

  function Distances(players: seq<Report>): (r: seq<real>)
    ensures |r| == |players| && forall i :: 0 <= i < |r| ==> r[i] == players[i].bestDistance
  {
    seq(|players|, i requires 0 <= i < |players| => players[i].bestDistance)
  }

  function ActiveCounts(players: seq<Report>): (r: seq<real>)
    ensures |r| == |players| && forall i :: 0 <= i < |r| ==> r[i] == players[i].activePlayers as real
  {
    seq(|players|, i requires 0 <= i < |players| => players[i].activePlayers as real)
  }

  predicate Controlled(players: seq<Report>, uuid: string) {
    exists i :: 0 <= i < |players| && players[i].uuid == uuid
  }

  // ---------------------------------------------------------------- reconciliation

  /** A player that neither won nor lost names a winner. */
  predicate NamesWinner(p: Report) {
    p.winner.Some? && p.outcome.Some? && p.outcome.value in {Eliminated, Draw, Stopped}
  }

  /** Reports in the order of the actor indices, checked against each other. */
  function CheckReports(round: int, version: int, players: seq<Report>): Option<Disagreement>
    requires players != []
  {
    if exists i :: 0 <= i < |players| && players[i].round != round then Some(DifferentRounds)
    else if exists i :: 0 <= i < |players| && players[i].version != version then
      Some(DifferentVersions)
    else if exists i :: 0 <= i < |players| && players[i].participants != players[0].participants then
      Some(DifferentCounts)
    else if players[0].participants < |players| then Some(TooFewParticipants)
    else if exists i :: 0 <= i < |players| && players[i].direction != players[0].direction then
      Some(DifferentDirections)
    else if exists i :: 0 <= i < |players| && players[i].outcome.None? then Some(InvalidOutcome)
    else if exists i :: 0 <= i < |players| && NamesWinner(players[i]) then Some(SpuriousWinner)
    else None
  }

  /** How the round ended. */
  datatype Conclusion = Conclusion(
    winner: Option<string>, completionTime: Option<real>, terminalObserved: bool)

  datatype Concluded = Concluded(conclusion: Conclusion) | Conflict(error: Disagreement)

  function Conclude(players: seq<Report>): Concluded
    requires players != []
  {
    var winners, losses := With(players, Won), With(players, Lost);
    if winners != [] then
      var winner := winners[0];
      if |winners| != 1 || !AllWithin(players, {Won, Lost, Eliminated}) then
        Conflict(ConflictingOutcomes)
      else if exists i :: 0 <= i < |players| && players[i].outcome != Some(Eliminated)
                          && players[i].winner != Some(winner.uuid) then Conflict(DifferentWinners)
      else Concluded(Conclusion(Some(winner.uuid), Some(winner.completionTime), true))
    else if losses != [] then
      if !AllWithin(players, {Lost, Eliminated}) then Conflict(ConflictingOutcomes)
      else if losses[0].winner.None?
              || exists i :: 0 <= i < |losses| && losses[i].winner != losses[0].winner then
        Conflict(DifferentWinners)
      else if players[0].participants == |players|
              || Controlled(players, losses[0].winner.value) then
        Conflict(ImpossibleExternalWinner)
      else Concluded(Conclusion(losses[0].winner, Some(Least(Times(losses))), true))
    else if With(players, Stopped) != [] then
      if !AllWithin(players, {Stopped, Eliminated}) then Conflict(ConflictingOutcomes)
      else Concluded(Conclusion(None, None, true))
    else if With(players, Draw) != [] then
      if !AllWithin(players, {Draw, Eliminated}) then Conflict(ConflictingOutcomes)
      else Concluded(Conclusion(None, None, true))
    else
      var observed := Least(ActiveCounts(players)) == 0.0;
      if !observed && players[0].participants == |players| then Conflict(OutsidersUnaccounted)
      else Concluded(Conclusion(None, None, observed))
  }

  function Record(round: int, version: int, players: seq<Report>, c: Conclusion): GlobalRound
    requires players != []
  {
    GlobalRound(
      round, version, c.winner.Some?,
      c.winner.Some? && Controlled(players, c.winner.value),
      With(players, Stopped) != [], c.terminalObserved, c.winner, players[0].participants,
      c.completionTime, Least(Distances(players)), |With(players, Eliminated)|, players)
  }

  function ReconcilePlayers(round: int, version: int, players: seq<Report>): Reconciled
    requires players != []
  {
    match CheckReports(round, version, players)
    case Some(error) => Disagree(error)
    case None =>
      match Conclude(players)
      case Conflict(error) => Disagree(error)
      case Concluded(c) => Reconciled(Record(round, version, players, c))
  }

  /** The reports in ascending order of actor. */
  function InOrder(results: map<int, Report>, order: seq<int>): (players: seq<Report>)
    requires forall i :: 0 <= i < |order| ==> order[i] in results
    ensures |players| == |order|
    ensures forall i :: 0 <= i < |order| ==> players[i] == results[order[i]]
  {
    seq(|order|, i requires 0 <= i < |order| => results[order[i]])
  }

  predicate CompletePool(results: map<int, Report>, order: seq<int>) {
    && (forall a :: a in results ==> a in order)
    && (forall i :: 0 <= i < |order| ==> order[i] in results)
  }

  /** order lists the pool's actors in ascending order, each once. */
  function ReconcileRound(round: int, version: int, results: map<int, Report>, order: seq<int>)
    : Reconciled
  {
    if order == [] || !CompletePool(results, order) then Disagree(IncompletePool)
    else ReconcilePlayers(round, version, InOrder(results, order))
  }
}
