/** Every error of reconciliation names something that is wrong with the reports. */
module RoundDisagreement {
  import opened Common
  import opened Packets
  import opened Reconcile
  import opened RoundTruth

  /** Two players' endings that no round has: two winners, or two different endings other than a win
      and a loss. */
  predicate Clash(players: seq<Report>, i: nat, j: nat)
    requires i < |players| && j < |players|
  {
    var p, q := players[i].outcome, players[j].outcome;
    && p.Some? && q.Some? && i != j && !p.value.Eliminated? && !q.value.Eliminated?
    && !(p.value.Won? && q.value.Lost?) && !(p.value.Lost? && q.value.Won?)
    && (p != q || p.value.Won?)
  }

  predicate Clashing(players: seq<Report>) {
    exists i, j :: 0 <= i < |players| && 0 <= j < |players| && Clash(players, i, j)
  }

  /** Player i names another winner than player j knows of, or none. */
  predicate NamesAnother(players: seq<Report>, i: nat, j: nat)
    requires i < |players| && j < |players|
  {
    && players[i].outcome in {Some(Won), Some(Lost)}
    && (|| players[i].winner.None?
        || (players[j].outcome == Some(Won) && players[i].winner != Some(players[j].uuid))
        || (players[j].outcome == Some(Lost) && players[i].winner != players[j].winner))
  }

  predicate NamingDifferently(players: seq<Report>) {
    exists i, j :: 0 <= i < |players| && 0 <= j < |players| && NamesAnother(players, i, j)
  }

  /** Everybody alive lost to an outsider, but there is none, or the named one is a player. */
  predicate NoSuchOutsider(players: seq<Report>) {
    && AllWithin(players, {Lost, Eliminated})
    && exists i :: 0 <= i < |players| && players[i].outcome == Some(Lost)
                   && players[i].winner.Some?
                   && (players[i].participants == |players|
                       || Controlled(players, players[i].winner.value))
  }

  /** Everybody who took part is eliminated, but nobody saw the last one go, or somebody counts fewer
      than none. */
  predicate LastOneMissing(players: seq<Report>) {
    && (forall i :: 0 <= i < |players| ==>
          players[i].outcome == Some(Eliminated) && players[i].participants == |players|)
    && (|| (forall i :: 0 <= i < |players| ==> players[i].activePlayers != 0)
        || exists i :: 0 <= i < |players| && players[i].activePlayers < 0)
  }

  /** What the error means. */
  predicate Holds(error: Disagreement, round: int, version: int, players: seq<Report>)
    requires players != []
  {
    match error
    case IncompletePool => false
    case DifferentRounds => exists i :: 0 <= i < |players| && players[i].round != round
    case DifferentVersions => exists i :: 0 <= i < |players| && players[i].version != version
    case DifferentCounts =>
      exists i :: 0 <= i < |players| && players[i].participants != players[0].participants
    case TooFewParticipants => players[0].participants < |players|
    case DifferentDirections =>
      exists i :: 0 <= i < |players| && players[i].direction != players[0].direction
    case InvalidOutcome => exists i :: 0 <= i < |players| && players[i].outcome.None?
    case SpuriousWinner =>
      exists i :: 0 <= i < |players| && players[i].winner.Some?
                  && players[i].outcome !in {None, Some(Won), Some(Lost)}
    case ConflictingOutcomes => Clashing(players)
    case DifferentWinners => NamingDifferently(players)
    case ImpossibleExternalWinner => NoSuchOutsider(players)
    case OutsidersUnaccounted => LastOneMissing(players)
  }

  lemma ChecksAreTrue(round: int, version: int, players: seq<Report>)
    requires players != []
    ensures var error := CheckReports(round, version, players);
            error.Some? ==> Holds(error.value, round, version, players)
  {
  }

  lemma TwoWinnersClash(players: seq<Report>)
    requires |With(players, Won)| > 1
    ensures Clashing(players)
  {
    var w := SelectedFrom(players, Won, 0);
    if OnlyAt(players, Won, w) {
      OneWith(players, Won, w);
    }
    var i :| 0 <= i < |players| && i != w && players[i].outcome == Some(Won);
    assert Clash(players, i, w);
  }

  lemma StrangersClash(players: seq<Report>, ending: Outcome, allowed: set<Outcome>)
    requires With(players, ending) != [] && !AllWithin(players, allowed)
    requires forall i :: 0 <= i < |players| ==> players[i].outcome.Some?
    requires Eliminated in allowed && ending in allowed && !ending.Eliminated?
    requires ending.Won? ==> Lost in allowed
    requires ending.Lost? ==> forall i :: 0 <= i < |players| ==> players[i].outcome != Some(Won)
    ensures Clashing(players)
  {
    var w := SelectedFrom(players, ending, 0);
    var i :| 0 <= i < |players| && players[i].outcome.value !in allowed;
    assert Clash(players, i, w);
  }

  lemma WinnersDiffer(players: seq<Report>)
    requires |With(players, Won)| == 1 && AllWithin(players, {Won, Lost, Eliminated})
    requires exists i :: 0 <= i < |players| && players[i].outcome != Some(Eliminated)
                         && players[i].winner != Some(With(players, Won)[0].uuid)
    ensures NamingDifferently(players)
  {
    var w := SelectedFrom(players, Won, 0);
    var i :| 0 <= i < |players| && players[i].outcome != Some(Eliminated)
             && players[i].winner != Some(players[w].uuid);
    assert NamesAnother(players, i, w);
  }

  lemma LosersDiffer(players: seq<Report>)
    requires With(players, Lost) != []
    requires var losses := With(players, Lost);
             losses[0].winner.None?
             || exists i :: 0 <= i < |losses| && losses[i].winner != losses[0].winner
    ensures NamingDifferently(players)
  {
    var losses := With(players, Lost);
    var w := SelectedFrom(players, Lost, 0);
    if losses[0].winner.None? {
      assert NamesAnother(players, w, w);
    } else {
      var k :| 0 <= k < |losses| && losses[k].winner != losses[0].winner;
      var i := SelectedFrom(players, Lost, k);
      assert NamesAnother(players, i, w);
    }
  }

  lemma OutsiderIsMissing(players: seq<Report>)
    requires With(players, Lost) != [] && AllWithin(players, {Lost, Eliminated})
    requires With(players, Lost)[0].winner.Some?
    requires forall i :: 0 <= i < |players| ==> players[i].participants == players[0].participants
    requires players[0].participants == |players|
             || Controlled(players, With(players, Lost)[0].winner.value)
    ensures NoSuchOutsider(players)
  {
    var w := SelectedFrom(players, Lost, 0);
    assert players[w].outcome == Some(Lost);
  }

  lemma LastOneIsMissing(players: seq<Report>)
    requires players != [] && Least(ActiveCounts(players)) != 0.0
    requires forall i :: 0 <= i < |players| ==>
               players[i].outcome == Some(Eliminated) && players[i].participants == |players|
    ensures LastOneMissing(players)
  {
    var counts := ActiveCounts(players);
    var w :| 0 <= w < |counts| && counts[w] == Least(counts);
    if counts[w] < 0.0 {
      assert players[w].activePlayers < 0;
    } else {
      forall i | 0 <= i < |players| ensures players[i].activePlayers != 0 {
        assert counts[i] in counts;
      }
    }
  }

  /** What none of the four endings leaves. */
  lemma OnlyEliminatedLeft(players: seq<Report>)
    requires With(players, Won) == [] && With(players, Lost) == [] && With(players, Stopped) == []
    requires forall i :: 0 <= i < |players| ==> players[i].outcome.Some?
    ensures AllWithin(players, {Draw, Eliminated})
    ensures With(players, Draw) == [] ==> AllWithin(players, {Eliminated})
  {
    NoneWith(players, Won);
    NoneWith(players, Lost);
    NoneWith(players, Stopped);
    NoneWith(players, Draw);
    forall i | 0 <= i < |players|
      ensures players[i].outcome.value in {Draw, Eliminated}
      ensures With(players, Draw) == [] ==> players[i].outcome.value == Eliminated
    {
      OneOfFive(players[i].outcome.value);
    }
  }

  lemma OneOfFive(o: Outcome)
    ensures o == Won || o == Lost || o == Eliminated || o == Draw || o == Stopped
  {
  }

  lemma ConclusionsAreTrue(round: int, version: int, players: seq<Report>)
    requires Agreed(round, version, players) && Conclude(players).Conflict?
    ensures Holds(Conclude(players).error, round, version, players)
  {
    NoneWith(players, Won);
    if With(players, Won) != [] {
      if |With(players, Won)| != 1 {
        TwoWinnersClash(players);
      } else if !AllWithin(players, {Won, Lost, Eliminated}) {
        StrangersClash(players, Won, {Won, Lost, Eliminated});
      } else {
        WinnersDiffer(players);
      }
    } else if With(players, Lost) != [] {
      LossesAreTrue(players);
    } else if With(players, Stopped) != [] {
      StrangersClash(players, Stopped, {Stopped, Eliminated});
    } else {
      OnlyEliminatedLeft(players);
      LastOneIsMissing(players);
    }
  }

  lemma LossesAreTrue(players: seq<Report>)
    requires With(players, Won) == [] && With(players, Lost) != [] && Conclude(players).Conflict?
    requires forall i :: 0 <= i < |players| ==>
               players[i].outcome.Some? && players[i].participants == players[0].participants
    ensures match Conclude(players).error
            case ConflictingOutcomes => Clashing(players)
            case DifferentWinners => NamingDifferently(players)
            case ImpossibleExternalWinner => NoSuchOutsider(players)
            case _ => false
  {
    var losses := With(players, Lost);
    NoneWith(players, Won);
    if !AllWithin(players, {Lost, Eliminated}) {
      StrangersClash(players, Lost, {Lost, Eliminated});
    } else if losses[0].winner.None?
              || exists i :: 0 <= i < |losses| && losses[i].winner != losses[0].winner {
      LosersDiffer(players);
    } else {
      OutsiderIsMissing(players);
    }
  }

  /** Reports are refused only for what is wrong with them: every error means what it says. */
  lemma DisagreementsAreTrue(round: int, version: int, players: seq<Report>)
    requires players != [] && ReconcilePlayers(round, version, players).Disagree?
    ensures Holds(ReconcilePlayers(round, version, players).error, round, version, players)
  {
    ChecksAreTrue(round, version, players);
    CheckedMeansAgreed(round, version, players);
    if CheckReports(round, version, players).None? {
      ConclusionsAreTrue(round, version, players);
    }
  }
}
