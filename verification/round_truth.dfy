/** Reconciliation against what really happened: a round has one ending, every client of the pool
    sees its own side of it, and the record must be that ending. */
module RoundTruth {
  import opened Common
  import opened Packets
  import opened Reconcile

  datatype Ending =
    | PoolWin(winner: nat)
    | OutsideWin(uuid: string)
    | ServerStop
    | NoWinner
    | PoolEliminated(left: real)

  /** eliminated tells, position by position, whose players were out before the ending. */
  datatype Truth = Truth(
    round: int, version: int, participants: int, direction: Direction, ending: Ending,
    eliminated: seq<bool>)

  predicate AllOut(flags: seq<bool>) {
    forall i :: 0 <= i < |flags| ==> flags[i]
  }

  /** The histories a round can have, for a pool of the given identities. */
  predicate Possible(t: Truth, players: seq<Report>) {
    && |t.eliminated| == |players| <= t.participants
    && (t.ending.PoolEliminated? <==> AllOut(t.eliminated))
    && match t.ending
       case PoolWin(winner) => winner < |players| && !t.eliminated[winner]
       case OutsideWin(uuid) => |players| < t.participants && !Controlled(players, uuid)
       case PoolEliminated(left) => t.participants == |players| ==> left == 0.0
       case _ => true
  }

  function TrueOutcome(t: Truth, i: nat): Outcome
    requires i < |t.eliminated|
  {
    if t.eliminated[i] then Eliminated
    else match t.ending
      case PoolWin(winner) => if winner == i then Won else Lost
      case OutsideWin(_) => Lost
      case ServerStop => Stopped
      case NoWinner => Draw
      case PoolEliminated(_) => Eliminated
  }

  function TrueWinner(t: Truth, players: seq<Report>, i: nat): Option<string>
    requires i < |t.eliminated| && (t.ending.PoolWin? ==> t.ending.winner < |players|)
  {
    if t.eliminated[i] then None
    else match t.ending
      case PoolWin(winner) => Some(players[winner].uuid)
      case OutsideWin(uuid) => Some(uuid)
      case _ => None
  }

  /** Position i's side of the story. Times, distances and counts of the living are its own. */
  predicate Tells(t: Truth, players: seq<Report>, i: nat)
    requires Possible(t, players) && i < |players|
  {
    var p := players[i];
    && p.round == t.round && p.version == t.version
    && p.participants == t.participants && p.direction == t.direction
    && p.outcome == Some(TrueOutcome(t, i)) && p.winner == TrueWinner(t, players, i)
  }

  predicate Explains(t: Truth, players: seq<Report>) {
    && players != [] && Possible(t, players)
    && (forall i :: 0 <= i < |players| ==> Tells(t, players, i))
    && (t.ending.PoolEliminated? ==> Least(ActiveCounts(players)) == t.ending.left)
  }

  function Flags(flags: seq<bool>): nat {
    if flags == [] then 0 else (if flags[0] then 1 else 0) + Flags(flags[1..])
  }

  /** Some player came this close to the target, and none closer. */
  predicate Nearest(distance: real, players: seq<Report>) {
    && (exists i :: 0 <= i < |players| && players[i].bestDistance == distance)
    && forall i :: 0 <= i < |players| ==> distance <= players[i].bestDistance
  }

  /** The record is the ending that took place. */
  predicate Recovers(g: GlobalRound, t: Truth, players: seq<Report>)
    requires Explains(t, players)
  {
    && g.round == t.round && g.version == t.version && g.participants == t.participants
    && g.players == players && g.eliminations == Flags(t.eliminated)
    && Nearest(g.bestDistance, players)
    && match t.ending
       case PoolWin(winner) =>
         && OutcomeOf(g) == CompletedRound && g.winner == Some(players[winner].uuid)
         && g.completionTime == Some(players[winner].completionTime)
       case OutsideWin(uuid) =>
         && OutcomeOf(g) == ExternalWinRound && g.winner == Some(uuid)
         && g.completionTime.Some?
         && (exists i :: 0 <= i < |players| && !t.eliminated[i]
                         && g.completionTime.value == players[i].completionTime)
         && forall i :: 0 <= i < |players| && !t.eliminated[i] ==>
              g.completionTime.value <= players[i].completionTime
       case ServerStop =>
         OutcomeOf(g) == StoppedRound && g.winner == None && g.completionTime == None
       case NoWinner =>
         OutcomeOf(g) == DrawRound && g.winner == None && g.completionTime == None
       case PoolEliminated(left) =>
         && OutcomeOf(g) == (if left == 0.0 then DrawRound else ControlledPoolEliminated)
         && g.winner == None && g.completionTime == None
  }

  // ---------------------------------------------------------------- counting

  lemma {:induction false} CountEliminated(players: seq<Report>, flags: seq<bool>)
    requires |players| == |flags|
    requires forall i :: 0 <= i < |players| ==>
               (players[i].outcome == Some(Eliminated) <==> flags[i])
    ensures |With(players, Eliminated)| == Flags(flags)
  {
    if players != [] {
      CountEliminated(players[1..], flags[1..]);
    }
  }

  /** Exactly one report has the outcome, at position w. */
  predicate OnlyAt(players: seq<Report>, outcome: Outcome, w: nat) {
    && w < |players| && players[w].outcome == Some(outcome)
    && forall i :: 0 <= i < |players| && i != w ==> players[i].outcome != Some(outcome)
  }

  lemma {:induction false} NoneWith(players: seq<Report>, outcome: Outcome)
    ensures With(players, outcome) == []
            <==> forall i :: 0 <= i < |players| ==> players[i].outcome != Some(outcome)
  {
    if players != [] {
      NoneWith(players[1..], outcome);
      assert forall i :: 0 < i < |players| ==> players[i] == players[1..][i - 1];
    }
  }

  lemma {:induction false} OneWith(players: seq<Report>, outcome: Outcome, w: nat)
    requires OnlyAt(players, outcome, w)
    ensures With(players, outcome) == [players[w]]
  {
    if w == 0 {
      NoneWith(players[1..], outcome);
    } else {
      OneWith(players[1..], outcome, w - 1);
    }
  }

  lemma {:induction false} OneIsSomewhere(players: seq<Report>, outcome: Outcome) returns (w: nat)
    requires |With(players, outcome)| == 1
    ensures OnlyAt(players, outcome, w)
  {
    if players[0].outcome == Some(outcome) {
      w := 0;
      NoneWith(players[1..], outcome);
      assert forall i :: 0 < i < |players| ==> players[i] == players[1..][i - 1];
    } else {
      w := OneIsSomewhere(players[1..], outcome);
      w := w + 1;
    }
  }

  /** Where a selected report came from. */
  lemma {:induction false} SelectedFrom(players: seq<Report>, outcome: Outcome, k: nat)
    returns (i: nat)
    requires k < |With(players, outcome)|
    ensures i < |players| && players[i] == With(players, outcome)[k]
    ensures players[i].outcome == Some(outcome)
  {
    if players[0].outcome == Some(outcome) && k == 0 {
      i := 0;
    } else {
      i := SelectedFrom(
        players[1..], outcome, if players[0].outcome == Some(outcome) then k - 1 else k);
      i := i + 1;
    }
  }

  /** Where a report with the outcome is selected. */
  lemma {:induction false} SelectedTo(players: seq<Report>, outcome: Outcome, i: nat) returns (k: nat)
    requires i < |players| && players[i].outcome == Some(outcome)
    ensures k < |With(players, outcome)| && With(players, outcome)[k] == players[i]
  {
    if i == 0 {
      k := 0;
    } else {
      k := SelectedTo(players[1..], outcome, i - 1);
      k := if players[0].outcome == Some(outcome) then k + 1 else k;
    }
  }

  // ---------------------------------------------------------------- reports that agree

  /** What the checks on reports establish. */
  predicate Agreed(round: int, version: int, players: seq<Report>) {
    && players != [] && |players| <= players[0].participants
    && forall i :: 0 <= i < |players| ==>
         && players[i].round == round && players[i].version == version
         && players[i].participants == players[0].participants
         && players[i].direction == players[0].direction
         && players[i].outcome.Some? && !NamesWinner(players[i])
  }

  lemma CheckedMeansAgreed(round: int, version: int, players: seq<Report>)
    requires players != []
    ensures CheckReports(round, version, players).None? <==> Agreed(round, version, players)
  {
  }

  // ---------------------------------------------------------------- endings, read off the reports

  predicate Beaten(p: Report, uuid: string) {
    p.outcome == Some(Eliminated) || (p.outcome == Some(Lost) && p.winner == Some(uuid))
  }

  predicate WonBy(players: seq<Report>, w: nat) {
    && w < |players| && players[w].outcome == Some(Won)
    && players[w].winner == Some(players[w].uuid)
    && forall i :: 0 <= i < |players| && i != w ==> Beaten(players[i], players[w].uuid)
  }

  predicate LostTo(players: seq<Report>, uuid: string) {
    && (exists i :: 0 <= i < |players| && players[i].outcome == Some(Lost))
    && forall i :: 0 <= i < |players| ==> Beaten(players[i], uuid)
  }

  /** The same for everyone still playing. */
  predicate Even(players: seq<Report>, shared: Outcome) {
    && (exists i :: 0 <= i < |players| && players[i].outcome == Some(shared))
    && forall i :: 0 <= i < |players| ==>
         players[i].outcome == Some(shared) || players[i].outcome == Some(Eliminated)
  }

  predicate AllEliminated(players: seq<Report>) {
    forall i :: 0 <= i < |players| ==> players[i].outcome == Some(Eliminated)
  }

  predicate Ended(players: seq<Report>, e: Ending)
    requires players != []
  {
    match e
    case PoolWin(w) => WonBy(players, w)
    case OutsideWin(uuid) =>
      && LostTo(players, uuid) && players[0].participants != |players|
      && !Controlled(players, uuid)
    case ServerStop => Even(players, Stopped)
    case NoWinner => Even(players, Draw)
    case PoolEliminated(left) =>
      && AllEliminated(players) && Least(ActiveCounts(players)) == left
      && (players[0].participants == |players| ==> left == 0.0)
  }

  function ConclusionOf(players: seq<Report>, e: Ending): Conclusion
    requires players != [] && Ended(players, e)
  {
    match e
    case PoolWin(w) => Conclusion(Some(players[w].uuid), Some(players[w].completionTime), true)
    case OutsideWin(uuid) =>
      NoneWith(players, Lost);
      Conclusion(Some(uuid), Some(Least(Times(With(players, Lost)))), true)
    case ServerStop => Conclusion(None, None, true)
    case NoWinner => Conclusion(None, None, true)
    case PoolEliminated(left) => Conclusion(None, None, left == 0.0)
  }

  // ---------------------------------------------------------------- endings are concluded

  lemma WinConcluded(players: seq<Report>, w: nat)
    requires players != [] && WonBy(players, w)
    ensures Conclude(players) == Concluded(ConclusionOf(players, PoolWin(w)))
  {
    OneWith(players, Won, w);
  }

  lemma LossConcluded(players: seq<Report>, uuid: string)
    requires players != [] && Ended(players, OutsideWin(uuid))
    ensures Conclude(players) == Concluded(ConclusionOf(players, OutsideWin(uuid)))
  {
    NoneWith(players, Won);
    NoneWith(players, Lost);
    var losses := With(players, Lost);
    forall k | 0 <= k < |losses| ensures losses[k].winner == Some(uuid) {
      var i := SelectedFrom(players, Lost, k);
    }
  }

  lemma EvenConcluded(players: seq<Report>, shared: Outcome)
    requires players != [] && Even(players, shared) && (shared.Stopped? || shared.Draw?)
    ensures Conclude(players) == Concluded(Conclusion(None, None, true))
  {
    NoneWith(players, Won);
    NoneWith(players, Lost);
    NoneWith(players, Stopped);
    NoneWith(players, Draw);
  }

  lemma EliminationConcluded(players: seq<Report>, left: real)
    requires players != [] && Ended(players, PoolEliminated(left))
    ensures Conclude(players) == Concluded(ConclusionOf(players, PoolEliminated(left)))
  {
    NoneWith(players, Won);
    NoneWith(players, Lost);
    NoneWith(players, Stopped);
    NoneWith(players, Draw);
  }

  lemma EndingIsConcluded(players: seq<Report>, e: Ending)
    requires players != [] && Ended(players, e)
    ensures Conclude(players) == Concluded(ConclusionOf(players, e))
  {
    match e
    case PoolWin(w) => WinConcluded(players, w);
    case OutsideWin(uuid) => LossConcluded(players, uuid);
    case ServerStop => EvenConcluded(players, Stopped);
    case NoWinner => EvenConcluded(players, Draw);
    case PoolEliminated(left) => EliminationConcluded(players, left);
  }

  // ---------------------------------------------------------------- conclusions come from endings

  lemma ConcludedWin(players: seq<Report>) returns (w: nat)
    requires players != [] && Conclude(players).Concluded? && With(players, Won) != []
    ensures WonBy(players, w)
  {
    w := OneIsSomewhere(players, Won);
    OneWith(players, Won, w);
  }

  lemma ConcludedLoss(players: seq<Report>) returns (uuid: string)
    requires players != [] && Conclude(players).Concluded?
    requires With(players, Won) == [] && With(players, Lost) != []
    ensures Ended(players, OutsideWin(uuid))
  {
    uuid := With(players, Lost)[0].winner.value;
    NoneWith(players, Lost);
    forall i | 0 <= i < |players| ensures Beaten(players[i], uuid) {
      if players[i].outcome == Some(Lost) {
        var k := SelectedTo(players, Lost, i);
      }
    }
  }

  lemma ConcludedEven(players: seq<Report>, shared: Outcome)
    requires players != [] && Conclude(players).Concluded?
    requires With(players, Won) == [] && With(players, Lost) == []
    requires shared.Stopped? || (shared.Draw? && With(players, Stopped) == [])
    requires With(players, shared) != []
    ensures Even(players, shared)
  {
    NoneWith(players, shared);
  }

  lemma ConcludedElimination(players: seq<Report>)
    requires players != [] && Conclude(players).Concluded?
    requires forall i :: 0 <= i < |players| ==> players[i].outcome.Some?
    requires With(players, Won) == [] && With(players, Lost) == []
    requires With(players, Stopped) == [] && With(players, Draw) == []
    ensures Ended(players, PoolEliminated(Least(ActiveCounts(players))))
  {
    NoneWith(players, Won);
    NoneWith(players, Lost);
    NoneWith(players, Stopped);
    NoneWith(players, Draw);
    forall i | 0 <= i < |players| ensures players[i].outcome == Some(Eliminated) {
      OnlyEliminated(players[i].outcome.value);
    }
  }

  lemma OnlyEliminated(o: Outcome)
    ensures o.Won? || o.Lost? || o.Stopped? || o.Draw? || o == Eliminated
  {
  }

  lemma ConclusionHasEnding(players: seq<Report>) returns (e: Ending)
    requires players != [] && Conclude(players).Concluded?
    requires forall i :: 0 <= i < |players| ==> players[i].outcome.Some?
    ensures Ended(players, e)
  {
    if With(players, Won) != [] {
      var w := ConcludedWin(players);
      e := PoolWin(w);
    } else if With(players, Lost) != [] {
      var uuid := ConcludedLoss(players);
      e := OutsideWin(uuid);
    } else if With(players, Stopped) != [] {
      ConcludedEven(players, Stopped);
      e := ServerStop;
    } else if With(players, Draw) != [] {
      ConcludedEven(players, Draw);
      e := NoWinner;
    } else {
      ConcludedElimination(players);
      e := PoolEliminated(Least(ActiveCounts(players)));
    }
  }

  // ---------------------------------------------------------------- endings and histories

  function EliminatedFlags(players: seq<Report>): (flags: seq<bool>)
    ensures |flags| == |players|
    ensures forall i :: 0 <= i < |flags| ==>
              (flags[i] <==> players[i].outcome == Some(Eliminated))
  {
    seq(|players|, i requires 0 <= i < |players| => players[i].outcome == Some(Eliminated))
  }

  /** The history that agreeing reports and their ending tell. */
  function TruthOf(players: seq<Report>, e: Ending): Truth
    requires players != []
  {
    Truth(players[0].round, players[0].version, players[0].participants, players[0].direction, e,
          EliminatedFlags(players))
  }

  lemma EndingIsPossible(round: int, version: int, players: seq<Report>, e: Ending)
    requires Agreed(round, version, players) && Ended(players, e)
    ensures Possible(TruthOf(players, e), players)
  {
    var flags := EliminatedFlags(players);
    if e.OutsideWin? {
      var i :| 0 <= i < |players| && players[i].outcome == Some(Lost);
      assert !flags[i];
    } else if e.ServerStop? {
      var i :| 0 <= i < |players| && players[i].outcome == Some(Stopped);
      assert !flags[i];
    } else if e.NoWinner? {
      var i :| 0 <= i < |players| && players[i].outcome == Some(Draw);
      assert !flags[i];
    }
  }

  lemma EndingIsTold(round: int, version: int, players: seq<Report>, e: Ending, i: nat)
    requires Agreed(round, version, players) && Ended(players, e) && i < |players|
    requires Possible(TruthOf(players, e), players)
    ensures Tells(TruthOf(players, e), players, i)
  {
  }

  /** Agreeing reports with an ending are explained by it. */
  lemma EndingExplains(round: int, version: int, players: seq<Report>, e: Ending)
    requires Agreed(round, version, players) && Ended(players, e)
    ensures Explains(TruthOf(players, e), players)
  {
    EndingIsPossible(round, version, players, e);
    forall i | 0 <= i < |players| ensures Tells(TruthOf(players, e), players, i) {
      EndingIsTold(round, version, players, e, i);
    }
  }

  /** Reports that a history explains agree, and have its ending. */
  lemma ExplainedAgree(t: Truth, players: seq<Report>)
    requires Explains(t, players)
    ensures Agreed(t.round, t.version, players)
    ensures players[0].participants == t.participants && players[0].direction == t.direction
    ensures forall i :: 0 <= i < |players| ==>
              (players[i].outcome == Some(Eliminated) <==> t.eliminated[i])
  {
    assert Tells(t, players, 0);
    forall i | 0 <= i < |players|
      ensures players[i].round == t.round && players[i].version == t.version
      ensures players[i].participants == t.participants && players[i].direction == t.direction
      ensures players[i].outcome.Some? && !NamesWinner(players[i])
      ensures players[i].outcome == Some(Eliminated) <==> t.eliminated[i]
    {
      assert Tells(t, players, i);
    }
  }

  lemma ExplainedLiving(t: Truth, players: seq<Report>, living: Outcome)
    requires Explains(t, players) && !t.ending.PoolEliminated? && !t.ending.PoolWin?
    requires living == if t.ending.OutsideWin? then Lost
                       else if t.ending.ServerStop? then Stopped else Draw
    ensures exists i :: 0 <= i < |players| && players[i].outcome == Some(living)
    ensures forall i :: 0 <= i < |players| ==>
              if t.eliminated[i] then players[i].outcome == Some(Eliminated)
              else players[i].outcome == Some(living)
                   && (t.ending.OutsideWin? ==> players[i].winner == Some(t.ending.uuid))
  {
    forall i | 0 <= i < |players|
      ensures if t.eliminated[i] then players[i].outcome == Some(Eliminated)
              else players[i].outcome == Some(living)
                   && (t.ending.OutsideWin? ==> players[i].winner == Some(t.ending.uuid))
    {
      assert Tells(t, players, i);
    }
    var i :| 0 <= i < |players| && !t.eliminated[i];
    assert players[i].outcome == Some(living);
  }

  lemma ExplainedWin(t: Truth, players: seq<Report>)
    requires Explains(t, players) && t.ending.PoolWin?
    ensures WonBy(players, t.ending.winner)
  {
    assert Tells(t, players, t.ending.winner);
    forall i | 0 <= i < |players| && i != t.ending.winner
      ensures Beaten(players[i], players[t.ending.winner].uuid)
    {
      assert Tells(t, players, i);
    }
  }

  lemma ExplainedEnded(t: Truth, players: seq<Report>)
    requires Explains(t, players)
    ensures Ended(players, t.ending)
  {
    ExplainedAgree(t, players);
    match t.ending
    case PoolWin(w) => ExplainedWin(t, players);
    case OutsideWin(uuid) => ExplainedLiving(t, players, Lost);
    case ServerStop => ExplainedLiving(t, players, Stopped);
    case NoWinner => ExplainedLiving(t, players, Draw);
    case PoolEliminated(left) =>
  }

  // ---------------------------------------------------------------- records recover endings

  /** The least completion time is a loser's and no loser's is less. */
  lemma LossTimes(players: seq<Report>) returns (i: nat)
    requires With(players, Lost) != []
    ensures i < |players| && players[i].outcome == Some(Lost)
    ensures Least(Times(With(players, Lost))) == players[i].completionTime
    ensures forall k :: 0 <= k < |players| && players[k].outcome == Some(Lost) ==>
              players[i].completionTime <= players[k].completionTime
  {
    var losses := With(players, Lost);
    var times := Times(losses);
    var j :| 0 <= j < |losses| && times[j] == Least(times);
    i := SelectedFrom(players, Lost, j);
    forall k | 0 <= k < |players| && players[k].outcome == Some(Lost)
      ensures Least(times) <= players[k].completionTime
    {
      var m := SelectedTo(players, Lost, k);
      assert times[m] in times;
    }
  }

  lemma LeastIsNearest(players: seq<Report>)
    requires players != []
    ensures Nearest(Least(Distances(players)), players)
  {
    var distances := Distances(players);
    var i :| 0 <= i < |distances| && distances[i] == Least(distances);
    assert players[i].bestDistance == Least(distances);
    forall k | 0 <= k < |players| ensures Least(distances) <= players[k].bestDistance {
      assert distances[k] in distances;
    }
  }

  lemma OutsideWinRecovered(t: Truth, players: seq<Report>, g: GlobalRound)
    requires Explains(t, players) && t.ending.OutsideWin? && Ended(players, t.ending)
    requires g == Record(t.round, t.version, players, ConclusionOf(players, t.ending))
    ensures Recovers(g, t, players)
  {
    ExplainedAgree(t, players);
    ExplainedLiving(t, players, Lost);
    CountEliminated(players, t.eliminated);
    NoneWith(players, Lost);
    LeastIsNearest(players);
    var i := LossTimes(players);
    assert !t.eliminated[i] && g.completionTime.value == players[i].completionTime;
  }

  lemma OthersRecovered(t: Truth, players: seq<Report>, g: GlobalRound)
    requires Explains(t, players) && !t.ending.OutsideWin? && Ended(players, t.ending)
    requires g == Record(t.round, t.version, players, ConclusionOf(players, t.ending))
    ensures Recovers(g, t, players)
  {
    ExplainedAgree(t, players);
    CountEliminated(players, t.eliminated);
    LeastIsNearest(players);
    NoneWith(players, Stopped);
  }

  /** Every history's reports are accepted and the record is its ending. */
  lemma CompleteReports(t: Truth, players: seq<Report>)
    requires Explains(t, players)
    ensures ReconcilePlayers(t.round, t.version, players).Reconciled?
    ensures Recovers(ReconcilePlayers(t.round, t.version, players).record, t, players)
  {
    ExplainedAgree(t, players);
    CheckedMeansAgreed(t.round, t.version, players);
    ExplainedEnded(t, players);
    EndingIsConcluded(players, t.ending);
    var g := Record(t.round, t.version, players, ConclusionOf(players, t.ending));
    if t.ending.OutsideWin? {
      OutsideWinRecovered(t, players, g);
    } else {
      OthersRecovered(t, players, g);
    }
  }

  /** Accepted reports come from a possible history, and the record is its ending. */
  lemma Sound(round: int, version: int, players: seq<Report>) returns (t: Truth)
    requires players != [] && ReconcilePlayers(round, version, players).Reconciled?
    ensures t.round == round && t.version == version && Explains(t, players)
    ensures Recovers(ReconcilePlayers(round, version, players).record, t, players)
  {
    CheckedMeansAgreed(round, version, players);
    var e := ConclusionHasEnding(players);
    t := TruthOf(players, e);
    EndingExplains(round, version, players, e);
    CompleteReports(t, players);
  }

  /** Accepted exactly when some possible history explains the reports; the record is then the
      ending of every history that explains them. */
  lemma ReconciliationIsExact(round: int, version: int, players: seq<Report>)
    requires players != []
    ensures ReconcilePlayers(round, version, players).Reconciled? <==>
              exists t: Truth :: t.round == round && t.version == version && Explains(t, players)
    ensures forall t: Truth :: t.round == round && t.version == version && Explains(t, players) ==>
              ReconcilePlayers(round, version, players).Reconciled?
              && Recovers(ReconcilePlayers(round, version, players).record, t, players)
  {
    if ReconcilePlayers(round, version, players).Reconciled? {
      var t := Sound(round, version, players);
    }
    forall t: Truth | t.round == round && t.version == version && Explains(t, players)
      ensures ReconcilePlayers(round, version, players).Reconciled?
              && Recovers(ReconcilePlayers(round, version, players).record, t, players)
    {
      CompleteReports(t, players);
    }
  }

  // ---------------------------------------------------------------- the scheduler's part

  predicate SchedulersFault(error: Disagreement) {
    error.IncompletePool? || error.DifferentRounds? || error.DifferentVersions?
  }

  lemma ChecksBlamePlayers(round: int, version: int, players: seq<Report>)
    requires players != []
    requires forall i :: 0 <= i < |players| ==>
               players[i].round == round && players[i].version == version
    ensures var error := CheckReports(round, version, players);
            error.None? || !SchedulersFault(error.value)
  {
  }

  lemma ConclusionsBlamePlayers(players: seq<Report>)
    requires players != []
    ensures Conclude(players).Concluded? || !SchedulersFault(Conclude(players).error)
  {
  }

  lemma PlayersAreBlamed(round: int, version: int, players: seq<Report>)
    requires players != []
    requires forall i :: 0 <= i < |players| ==>
               players[i].round == round && players[i].version == version
    ensures var r := ReconcilePlayers(round, version, players);
            r.Disagree? ==> !SchedulersFault(r.error)
  {
    ChecksBlamePlayers(round, version, players);
    ConclusionsBlamePlayers(players);
  }

  /** A complete pool reporting on the right round and version is refused only for what the
      players themselves report. */
  lemma OnlyPlayersCanDisagree(
      round: int, version: int, results: map<int, Report>, order: seq<int>)
    requires order != [] && CompletePool(results, order)
    requires forall a :: a in results ==> results[a].round == round && results[a].version == version
    ensures var r := ReconcileRound(round, version, results, order);
            r.Disagree? ==> r.error !in {IncompletePool, DifferentRounds, DifferentVersions}
  {
    var players := InOrder(results, order);
    forall i | 0 <= i < |players|
      ensures players[i].round == round && players[i].version == version
    {
      var a := order[i];
      assert a in results;
    }
    PlayersAreBlamed(round, version, players);
  }
}
