/** Rounds in which the whole pool is eliminated, told from the order in which participants went
    out. Participants are numbered; the pool's players are 0, 1, ... and outsiders follow. */
module RoundElimination {
  import opened Common
  import opened Packets
  import opened Reconcile
  import opened RoundTruth

  /** order lists the participants as they went out; told[i] says how many were out when the pool's
      player i, already among them, was told so. */
  predicate Elimination(order: seq<int>, told: seq<int>, participants: int) {
    && Distinct(order) && |told| <= participants
    && (forall k :: 0 <= k < |order| ==> 0 <= order[k] < participants)
    && forall i :: 0 <= i < |told| ==> told[i] <= |order| && OutBy(order, told[i], i)
  }

  predicate OutBy(order: seq<int>, count: int, participant: int) {
    exists k :: 0 <= k < |order| && k < count && order[k] == participant
  }

  function Everyone(participants: int): (all: set<int>)
    ensures forall p :: p in all <==> 0 <= p < participants
  {
    if participants <= 0 then {} else Everyone(participants - 1) + {participants - 1}
  }

  /** Who still plays after the first `count` have gone. */
  function Playing(order: seq<int>, count: int, participants: int): set<int>
    requires 0 <= count <= |order|
  {
    Everyone(participants) - (set k | 0 <= k < count :: order[k])
  }

  function Latest(told: seq<int>): (m: int)
    requires told != []
    ensures m in told && forall i :: 0 <= i < |told| ==> told[i] <= m
  {
    if |told| == 1 then told[0]
    else
      var m := Latest(told[1..]);
      assert told == [told[0]] + told[1..];
      if m < told[0] then told[0] else m
  }

  /** Every player was eliminated and reports how many were still active. */
  predicate AllReportElimination(
      players: seq<Report>, round: int, version: int, direction: Direction, told: seq<int>,
      participants: int)
  {
    && |players| == |told|
    && forall i :: 0 <= i < |players| ==>
         && players[i].round == round && players[i].version == version
         && players[i].direction == direction && players[i].participants == participants
         && players[i].outcome == Some(Eliminated) && players[i].winner == None
         && players[i].activePlayers == participants - told[i]
  }

  /** How many were out when each player was told so, by the count it reports. */
  function ToldOf(players: seq<Report>, participants: int): (told: seq<int>)
    ensures |told| == |players|
    ensures forall i :: 0 <= i < |told| ==> told[i] == participants - players[i].activePlayers
  {
    seq(|players|, i requires 0 <= i < |players| => participants - players[i].activePlayers)
  }

  /** Every player was eliminated, whatever counts they report. */
  predicate AllReportedOut(
      players: seq<Report>, round: int, version: int, direction: Direction, participants: int)
  {
    players != []
    && AllReportElimination(
         players, round, version, direction, ToldOf(players, participants), participants)
  }

  lemma ReportedOutAgrees(
      players: seq<Report>, round: int, version: int, direction: Direction, participants: int)
    requires AllReportedOut(players, round, version, direction, participants)
    ensures Agreed(round, version, players) <==> |players| <= participants
    ensures players[0].participants == participants && AllEliminated(players)
  {
  }

  lemma OneMore(s: set<int>, x: int)
    requires x !in s
    ensures |s + {x}| == |s| + 1
  {
  }

  lemma {:induction false} EveryoneCounted(participants: nat)
    ensures |Everyone(participants)| == participants
  {
    if participants > 0 {
      EveryoneCounted(participants - 1);
      OneMore(Everyone(participants - 1), participants - 1);
    }
  }

  lemma {:induction false} FirstOut(order: seq<int>, count: int)
    requires 0 <= count <= |order| && Distinct(order)
    ensures |set k | 0 <= k < count :: order[k]| == count
    decreases count
  {
    if count > 0 {
      FirstOut(order, count - 1);
      var earlier := set k | 0 <= k < count - 1 :: order[k];
      assert (set k | 0 <= k < count :: order[k]) == earlier + {order[count - 1]};
      assert order[count - 1] !in earlier;
    }
  }

  lemma PlayingSize(order: seq<int>, count: int, participants: nat)
    requires 0 <= count <= |order| && Distinct(order)
    requires forall k :: 0 <= k < |order| ==> 0 <= order[k] < participants
    ensures |Playing(order, count, participants)| == participants - count
  {
    EveryoneCounted(participants);
    FirstOut(order, count);
    var all, out := Everyone(participants), set k | 0 <= k < count :: order[k];
    assert out <= all;
    assert |all - out| == |all| - |out|;
  }

  lemma LeastOf(s: seq<real>, x: real)
    requires s != [] && x in s && forall i :: 0 <= i < |s| ==> x <= s[i]
    ensures Least(s) == x
  {
  }

  /** The least count the players report is the number of participants still playing at the last
      report, and they are outsiders all. */
  lemma LeastCountIsPlaying(
      players: seq<Report>, round: int, version: int, direction: Direction, order: seq<int>,
      told: seq<int>, participants: int)
    requires players != [] && Elimination(order, told, participants)
    requires AllReportElimination(players, round, version, direction, told, participants)
    ensures 0 <= Latest(told) <= |order|
    ensures var playing := Playing(order, Latest(told), participants);
            && Least(ActiveCounts(players)) == |playing| as real
            && forall p :: p in playing ==> |players| <= p < participants
  {
    var m := Latest(told);
    var w :| 0 <= w < |told| && told[w] == m;
    assert OutBy(order, told[w], w);
    PlayingSize(order, m, participants);
    var counts := ActiveCounts(players);
    assert counts[w] == (participants - m) as real;
    LeastOf(counts, (participants - m) as real);
    var playing := Playing(order, m, participants);
    forall p | 0 <= p < |told| ensures p !in playing {
      assert OutBy(order, told[p], p);
      var k :| 0 <= k < |order| && k < told[p] && order[k] == p;
      assert order[k] in set j | 0 <= j < m :: order[j];
    }
  }

  /** A pool that is wholly eliminated is accepted whatever the order of eliminations, and the record
      is a draw exactly when nobody was left playing. */
  lemma EveryEliminationIsRecovered(
      players: seq<Report>, round: int, version: int, direction: Direction, order: seq<int>,
      told: seq<int>, participants: int)
    requires players != [] && Elimination(order, told, participants)
    requires AllReportElimination(players, round, version, direction, told, participants)
    ensures 0 <= Latest(told) <= |order|
    ensures var reconciled := ReconcilePlayers(round, version, players);
            && reconciled.Reconciled? && reconciled.record.winner == None
            && reconciled.record.eliminations == |players|
            && OutcomeOf(reconciled.record)
               == if Playing(order, Latest(told), participants) == {} then DrawRound
                  else ControlledPoolEliminated
  {
    LeastCountIsPlaying(players, round, version, direction, order, told, participants);
    var playing := Playing(order, Latest(told), participants);
    if participants == |players| {
      assert forall p :: p !in playing;
      assert playing == {};
    }
    OutPoolIsRecovered(players, round, version, direction, participants, |playing|);
  }

  /** By the least count alone. */
  lemma OutPoolIsRecovered(
      players: seq<Report>, round: int, version: int, direction: Direction, participants: int,
      left: nat)
    requires AllReportedOut(players, round, version, direction, participants)
    requires |players| <= participants && Least(ActiveCounts(players)) == left as real
    requires participants == |players| ==> left == 0
    ensures var reconciled := ReconcilePlayers(round, version, players);
            && reconciled.Reconciled? && reconciled.record.winner == None
            && reconciled.record.eliminations == |players|
            && OutcomeOf(reconciled.record)
               == if left == 0 then DrawRound else ControlledPoolEliminated
  {
    ReportedOutAgrees(players, round, version, direction, participants);
    var e := PoolEliminated(left as real);
    var t := TruthOf(players, e);
    EndingExplains(round, version, players, e);
    CompleteReports(t, players);
    AllFlags(t.eliminated);
  }

  lemma {:induction false} AllFlags(flags: seq<bool>)
    requires AllOut(flags)
    ensures Flags(flags) == |flags|
  {
    if flags != [] {
      AllFlags(flags[1..]);
    }
  }

  // ---------------------------------------------------------------- counts that fit some order

  /** The players told that at most c were out. */
  function ToldBy(told: seq<int>, c: int): set<int> {
    set i | 0 <= i < |told| && told[i] <= c
  }

  /** Of the players told that at most c were out there are at most c, themselves included. */
  predicate CountsFit(told: seq<int>, participants: int) {
    && |told| <= participants
    && (forall i :: 0 <= i < |told| ==> 1 <= told[i] <= participants)
    && forall c :: 0 <= c <= participants ==> |ToldBy(told, c)| <= c
  }

  lemma SubsetSize(part: set<int>, whole: set<int>)
    requires part <= whole
    ensures |part| <= |whole|
  {
    assert |whole - part| == |whole| - |part|;
  }

  lemma OrderFits(order: seq<int>, told: seq<int>, participants: int)
    requires Elimination(order, told, participants)
    ensures CountsFit(told, participants)
  {
    PlayingSize(order, |order|, participants);
    forall i | 0 <= i < |told| ensures 1 <= told[i] <= participants {
      assert OutBy(order, told[i], i);
    }
    forall c | 0 <= c <= participants ensures |ToldBy(told, c)| <= c {
      ToldAreOut(order, told, participants, c);
    }
  }

  /** The players told that at most c were out are among the first c to go. */
  lemma ToldAreOut(order: seq<int>, told: seq<int>, participants: int, c: nat)
    requires Elimination(order, told, participants)
    ensures |ToldBy(told, c)| <= c
  {
    var m := if c <= |order| then c else |order|;
    var out := set k | 0 <= k < m :: order[k];
    forall i | i in ToldBy(told, c) ensures i in out {
      assert OutBy(order, told[i], i);
      var k :| 0 <= k < |order| && k < told[i] && order[k] == i;
      assert k < m;
    }
    FirstOut(order, m);
    SubsetSize(ToldBy(told, c), out);
  }

  /** The players below n told exactly c, in ascending order. */
  function Wave(told: seq<int>, c: int, n: nat): (wave: seq<int>)
    requires n <= |told|
    ensures forall i :: i in wave <==> 0 <= i < n && told[i] == c
  {
    if n == 0 then []
    else Wave(told, c, n - 1) + if told[n - 1] == c then [n - 1] else []
  }

  lemma {:induction false} WaveIsDistinct(told: seq<int>, c: int, n: nat)
    requires n <= |told|
    ensures Distinct(Wave(told, c, n))
  {
    if n > 0 {
      WaveIsDistinct(told, c, n - 1);
      JoinedDistinct(Wave(told, c, n - 1), if told[n - 1] == c then [n - 1] else []);
    }
  }

  lemma JoinedDistinct(s: seq<int>, t: seq<int>)
    requires Distinct(s) && Distinct(t) && forall x :: x in s ==> x !in t
    ensures Distinct(s + t)
  {
    var u := s + t;
    forall i, j | 0 <= i < j < |u| ensures u[i] != u[j] {
      if i < |s| <= j {
        assert u[i] in s && u[j] == t[j - |s|] && u[j] in t;
      }
    }
  }

  /** The pool's players by ascending count, up to c. */
  function Waves(told: seq<int>, c: nat): (order: seq<int>)
    ensures forall i :: i in order <==> 0 <= i < |told| && 1 <= told[i] <= c
  {
    if c == 0 then [] else Waves(told, c - 1) + Wave(told, c, |told|)
  }

  lemma {:induction false} WavesAreDistinct(told: seq<int>, c: nat)
    ensures Distinct(Waves(told, c))
  {
    if c > 0 {
      WavesAreDistinct(told, c - 1);
      WaveIsDistinct(told, c, |told|);
      JoinedDistinct(Waves(told, c - 1), Wave(told, c, |told|));
    }
  }

  lemma WavesSize(told: seq<int>, c: nat)
    requires forall i :: 0 <= i < |told| ==> 1 <= told[i]
    ensures |Waves(told, c)| == |ToldBy(told, c)|
  {
    WavesAreDistinct(told, c);
    var order := Waves(told, c);
    FirstOut(order, |order|);
    var out := set k | 0 <= k < |order| :: order[k];
    forall i ensures i in out <==> i in ToldBy(told, c) {
      assert i in out <==> i in order;
    }
    assert out == ToldBy(told, c);
  }

  lemma FrontOfSum(s: seq<int>, t: seq<int>, n: nat)
    requires n <= |s|
    ensures (s + t)[..n] == s[..n]
  {
  }

  lemma {:induction false} WavesGrow(told: seq<int>, c: nat, d: nat)
    requires c <= d
    ensures |Waves(told, c)| <= |Waves(told, d)|
    ensures Waves(told, d)[..|Waves(told, c)|] == Waves(told, c)
    decreases d
  {
    if c < d {
      WavesGrow(told, c, d - 1);
      FrontOfSum(Waves(told, d - 1), Wave(told, d, |told|), |Waves(told, c)|);
    }
  }

  /** The outsiders, who go last. */
  function Outsiders(pool: nat, participants: int): (order: seq<int>)
    requires pool <= participants
    ensures |order| == participants - pool
    ensures forall k :: 0 <= k < |order| ==> order[k] == pool + k
  {
    seq(participants - pool, k requires 0 <= k < participants - pool => pool + k)
  }

  function Whole(told: seq<int>, participants: int): seq<int>
    requires |told| <= participants
  {
    Waves(told, participants) + Outsiders(|told|, participants)
  }

  lemma WholeSize(told: seq<int>, participants: int)
    requires CountsFit(told, participants)
    ensures |Whole(told, participants)| == participants
  {
    WavesSize(told, participants);
    assert ToldBy(told, participants) == Everyone(|told|);
    EveryoneCounted(|told|);
  }

  lemma WholeIsDistinct(told: seq<int>, participants: int)
    requires CountsFit(told, participants)
    ensures Distinct(Whole(told, participants))
  {
    WavesAreDistinct(told, participants);
    JoinedDistinct(Waves(told, participants), Outsiders(|told|, participants));
  }

  /** Everybody told c is out among the first c. */
  lemma WholeIsInTime(told: seq<int>, participants: int, i: nat)
    requires CountsFit(told, participants) && i < |told|
    ensures OutBy(Whole(told, participants), told[i], i)
  {
    var c := told[i];
    var early := Waves(told, c);
    WavesSize(told, c);
    WavesGrow(told, c, participants);
    var k :| 0 <= k < |early| && early[k] == i;
    assert Waves(told, participants)[..|early|][k] == i;
    assert Whole(told, participants)[k] == i;
  }

  /** Counts that fit come from an order: the players by ascending count, then the outsiders. */
  lemma FitHasOrder(told: seq<int>, participants: int)
    requires CountsFit(told, participants)
    ensures Elimination(Whole(told, participants), told, participants)
  {
    var order := Whole(told, participants);
    WholeSize(told, participants);
    WholeIsDistinct(told, participants);
    forall k | 0 <= k < |order| ensures 0 <= order[k] < participants {
      assert order[k] in Waves(told, participants) || order[k] in Outsiders(|told|, participants);
    }
    forall i | 0 <= i < |told| ensures OutBy(order, told[i], i) {
      WholeIsInTime(told, participants, i);
    }
  }

  /** Some order of eliminations explains the counts exactly when they fit. */
  lemma CountsFitExactly(told: seq<int>, participants: int)
    ensures CountsFit(told, participants) <==>
              exists order: seq<int> :: Elimination(order, told, participants)
  {
    if CountsFit(told, participants) {
      FitHasOrder(told, participants);
    }
    forall order: seq<int> | Elimination(order, told, participants)
      ensures CountsFit(told, participants)
    {
      OrderFits(order, told, participants);
    }
  }

  // ---------------------------------------------------------------- what reconciliation asks for

  /** A wholly eliminated pool is accepted exactly when it is no larger than the round and, with no
      outsiders, somebody reports that nobody was left. */
  lemma EliminatedPoolAccepted(
      players: seq<Report>, round: int, version: int, direction: Direction, participants: int)
    requires AllReportedOut(players, round, version, direction, participants)
    ensures ReconcilePlayers(round, version, players).Reconciled? <==>
              |players| < participants
              || (|players| == participants && Least(ActiveCounts(players)) == 0.0)
  {
    ReportedOutAgrees(players, round, version, direction, participants);
    CheckedMeansAgreed(round, version, players);
    var left := Least(ActiveCounts(players));
    if |players| <= participants {
      if Ended(players, PoolEliminated(left)) {
        EliminationConcluded(players, left);
      } else if Conclude(players).Concluded? {
        var e := ConclusionHasEnding(players);
      }
    }
  }

  /** A wholly eliminated pool is explained by some order of eliminations exactly when its counts fit,
      which can be computed from the reports; explained pools are accepted. */
  lemma EliminatedPoolExplained(
      players: seq<Report>, round: int, version: int, direction: Direction, participants: int)
    requires AllReportedOut(players, round, version, direction, participants)
    ensures CountsFit(ToldOf(players, participants), participants) <==>
              exists order: seq<int> ::
                Elimination(order, ToldOf(players, participants), participants)
    ensures CountsFit(ToldOf(players, participants), participants) ==>
              ReconcilePlayers(round, version, players).Reconciled?
  {
    var told := ToldOf(players, participants);
    CountsFitExactly(told, participants);
    if CountsFit(told, participants) {
      FitHasOrder(told, participants);
      EveryEliminationIsRecovered(
        players, round, version, direction, Whole(told, participants), told, participants);
    }
  }

  /** Only the least count is read: a player eliminated from a round of two that reports both still
      active is accepted, though no order of eliminations leaves both active. */
  lemma CountsAreNotChecked()
    ensures var p := Report(1, 0, "u", "n", Some(Eliminated), None, 2, 0.0, 0.0, Up, 2);
            && AllReportedOut([p], 1, 0, Up, 2)
            && ReconcilePlayers(1, 0, [p]).Reconciled?
            && !exists order: seq<int> :: Elimination(order, ToldOf([p], 2), 2)
  {
    var p := Report(1, 0, "u", "n", Some(Eliminated), None, 2, 0.0, 0.0, Up, 2);
    assert ToldOf([p], 2)[0] == 0;
    EliminatedPoolAccepted([p], 1, 0, Up, 2);
    EliminatedPoolExplained([p], 1, 0, Up, 2);
  }
}
