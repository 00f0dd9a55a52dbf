/** What the order of arrivals, and the order actor indices are supplied in, cannot change. */
module RolloutOrder {
  import opened Common
  import opened Transitions
  import opened RolloutSpec

  // ---------------------------------------------------------------- sorting

  lemma {:induction false} InsertSorts(x: int, s: seq<int>)
    ensures multiset(Insert(x, s)) == multiset(s) + multiset{x}
    ensures Ascending(s) ==> Ascending(Insert(x, s))
  {
    if s != [] && s[0] < x {
      InsertSorts(x, s[1..]);
      assert s == [s[0]] + s[1..];
      var r := Insert(x, s[1..]);
      assert ([s[0]] + r)[1..] == r;
    } else {
      assert ([x] + s)[1..] == s;
    }
  }

  lemma {:induction false} SortedSorts(s: seq<int>)
    ensures multiset(Sorted(s)) == multiset(s) && Ascending(Sorted(s))
  {
    if s != [] {
      SortedSorts(s[1..]);
      InsertSorts(s[0], Sorted(s[1..]));
      assert s == [s[0]] + s[1..];
    }
  }

  lemma {:induction false} FirstIsLeast(s: seq<int>, x: int)
    requires Ascending(s) && x in s
    ensures s[0] <= x
  {
    if x != s[0] {
      assert s == [s[0]] + s[1..];
      FirstIsLeast(s[1..], x);
    }
  }

  lemma TailMultiset(s: seq<int>)
    requires s != []
    ensures multiset(s[1..]) == multiset(s) - multiset{s[0]}
    ensures s == [s[0]] + s[1..]
  {
    assert s == [s[0]] + s[1..];
  }

  lemma {:induction false} AscendingIsUnique(s: seq<int>, t: seq<int>)
    requires Ascending(s) && Ascending(t) && multiset(s) == multiset(t)
    ensures s == t
  {
    assert |multiset(s)| == |s| && |multiset(t)| == |t|;
    if s != [] {
      assert s[0] in multiset(t) && t[0] in multiset(s);
      FirstIsLeast(s, t[0]);
      FirstIsLeast(t, s[0]);
      TailMultiset(s);
      TailMultiset(t);
      AscendingIsUnique(s[1..], t[1..]);
    }
  }

  /** A collector does not depend on the order its actor indices were supplied in. */
  lemma SupplyOrderIsForgotten(actors: seq<int>, others: seq<int>, version: int, length: int)
    requires multiset(actors) == multiset(others)
    ensures Opened(actors, version, length) == Opened(others, version, length)
  {
    SortedSorts(actors);
    SortedSorts(others);
    AscendingIsUnique(Sorted(actors), Sorted(others));
    forall a ensures a in actors <==> a in others {
      assert a in actors <==> a in multiset(actors);
      assert a in others <==> a in multiset(others);
    }
  }

  // ---------------------------------------------------------------- arrivals

  function AddAll(c: Collector, history: seq<Transition>): Collector {
    if history == [] then c else Add(AddAll(c, history[..|history| - 1]), history[|history| - 1])
  }

  /** One actor's arrivals, in order. */
  function Only(history: seq<Transition>, actor: int): seq<Transition> {
    if history == [] then []
    else
      var rest, x := Only(history[..|history| - 1], actor), history[|history| - 1];
      if x.actor == actor then rest + [x] else rest
  }

  function First(xs: seq<Transition>, length: nat): seq<Transition> {
    if |xs| <= length then xs else xs[..length]
  }

  /** Arrivals the collector's caller is entitled to: known actors, one policy version. */
  predicate Fits(c: Collector, history: seq<Transition>) {
    forall k :: 0 <= k < |history| ==>
      history[k].actor in c.columns && history[k].version == c.version
  }

  /** Arrivals of an actor beyond its share. */
  function Excess(xs: seq<Transition>, length: nat): nat {
    if |xs| <= length then 0 else |xs| - length
  }

  function TotalExcess(history: seq<Transition>, actors: seq<int>, length: nat): nat {
    if actors == [] then 0
    else Excess(Only(history, actors[0]), length) + TotalExcess(history, actors[1..], length)
  }

  /** A column is exactly the actor's first `length` arrivals, whatever came between them. */
  lemma {:induction false} ColumnsAreFirstArrivals(
      actors: seq<int>, version: int, length: nat, history: seq<Transition>)
    requires Fits(Opened(actors, version, length), history)
    ensures var c := AddAll(Opened(actors, version, length), history);
            && c.columns.Keys == Opened(actors, version, length).columns.Keys
            && c.version == version && c.length == length && c.actors == Sorted(actors)
            && forall a :: a in c.columns ==> c.columns[a] == First(Only(history, a), length)
    decreases |history|
  {
    if history != [] {
      ColumnsAreFirstArrivals(actors, version, length, history[..|history| - 1]);
    }
  }

  /** An arrival overflows exactly when its actor's share is full, and changes only the count. */
  lemma {:induction false} ExcessGrows(
      earlier: seq<Transition>, x: Transition, actors: seq<int>, length: nat)
    requires Distinct(actors)
    ensures TotalExcess(earlier + [x], actors, length)
            == TotalExcess(earlier, actors, length)
               + if x.actor in actors && |Only(earlier, x.actor)| >= length then 1 else 0
  {
    assert (earlier + [x])[..|earlier|] == earlier;
    if actors != [] {
      ExcessGrows(earlier, x, actors[1..], length);
      assert actors == [actors[0]] + actors[1..];
      if x.actor == actors[0] {
        assert x.actor !in actors[1..];
      }
    }
  }

  /** Nothing is lost silently: the overflow count is the actors' arrivals beyond their shares. */
  lemma {:induction false} OverflowIsCounted(
      actors: seq<int>, version: int, length: nat, history: seq<Transition>)
    requires Distinct(actors) && Fits(Opened(actors, version, length), history)
    ensures AddAll(Opened(actors, version, length), history).discarded
            == TotalExcess(history, actors, length)
    decreases |history|
  {
    if history == [] {
      NoExcess(actors, length);
    } else {
      var earlier, x := history[..|history| - 1], history[|history| - 1];
      assert earlier + [x] == history;
      OverflowIsCounted(actors, version, length, earlier);
      ColumnsAreFirstArrivals(actors, version, length, earlier);
      ExcessGrows(earlier, x, actors, length);
    }
  }

  lemma {:induction false} NoExcess(actors: seq<int>, length: nat)
    ensures TotalExcess([], actors, length) == 0
  {
    if actors != [] {
      NoExcess(actors[1..], length);
    }
  }

  lemma OpenedIsValid(actors: seq<int>, version: int, length: int)
    requires actors != [] && Distinct(actors) && 0 <= version && 0 < length
    ensures Valid(Opened(actors, version, length))
  {
    SortedSorts(actors);
    var s := Sorted(actors);
    forall a ensures a in s <==> a in actors {
      assert a in s <==> a in multiset(s);
      assert a in actors <==> a in multiset(actors);
    }
    DistinctFromMultiset(actors, s);
    assert |multiset(s)| == |s| && |multiset(actors)| == |actors|;
  }

  lemma DistinctFromMultiset(s: seq<int>, t: seq<int>)
    requires Distinct(s) && multiset(s) == multiset(t)
    ensures Distinct(t)
  {
    forall i, j | 0 <= i < j < |t| ensures t[i] != t[j] {
      if t[i] == t[j] {
        Twice(t, i, j);
        assert multiset(s)[t[i]] >= 2;
        OnceEach(s, t[i]);
      }
    }
  }

  lemma Twice(t: seq<int>, i: int, j: int)
    requires 0 <= i < j < |t| && t[i] == t[j]
    ensures multiset(t)[t[i]] >= 2
  {
    assert t == t[..i] + [t[i]] + t[i + 1..j] + [t[j]] + t[j + 1..];
  }

  lemma {:induction false} OnceEach(s: seq<int>, x: int)
    requires Distinct(s)
    ensures multiset(s)[x] <= 1
  {
    if s != [] {
      OnceEach(s[1..], x);
      assert s == [s[0]] + s[1..];
      if x == s[0] {
        assert x !in s[1..];
        assert x !in multiset(s[1..]);
      }
    }
  }

  lemma AddKeepsValid(c: Collector, x: Transition)
    requires Valid(c)
    ensures Valid(Add(c, x))
  {
  }

  lemma {:induction false} AddAllKeepsValid(c: Collector, history: seq<Transition>)
    requires Valid(c)
    ensures Valid(AddAll(c, history))
    decreases |history|
  {
    if history != [] {
      AddAllKeepsValid(c, history[..|history| - 1]);
      AddKeepsValid(AddAll(c, history[..|history| - 1]), history[|history| - 1]);
    }
  }

  predicate SameShares(history: seq<Transition>, other: seq<Transition>, actors: seq<int>, length: nat) {
    forall a :: a in actors ==> First(Only(history, a), length) == First(Only(other, a), length)
  }

  /** Interleaving independence: arrivals whose per-actor beginnings agree prepare the same
      rollout, or fail alike, whatever their order across actors, whatever overflowed, and in
      whatever order the actor indices were supplied. */
  lemma InterleavingIsForgotten(
      actors: seq<int>, others: seq<int>, version: int, length: int,
      history: seq<Transition>, other: seq<Transition>, gamma: real, gaeLambda: real)
    requires actors != [] && Distinct(actors) && multiset(actors) == multiset(others)
    requires 0 <= version && 0 < length
    requires Fits(Opened(actors, version, length), history)
    requires Fits(Opened(others, version, length), other)
    requires SameShares(history, other, actors, length)
    ensures Valid(AddAll(Opened(actors, version, length), history))
    ensures Valid(AddAll(Opened(others, version, length), other))
    ensures Prepare(AddAll(Opened(actors, version, length), history), gamma, gaeLambda)
            == Prepare(AddAll(Opened(others, version, length), other), gamma, gaeLambda)
  {
    SupplyOrderIsForgotten(actors, others, version, length);
    var empty := Opened(actors, version, length);
    OpenedIsValid(actors, version, length);
    AddAllKeepsValid(empty, history);
    AddAllKeepsValid(empty, other);
    ColumnsAreFirstArrivals(actors, version, length, history);
    ColumnsAreFirstArrivals(actors, version, length, other);
    var c, d := AddAll(empty, history), AddAll(empty, other);
    SameColumnsPrepareAlike(c, d, gamma, gaeLambda);
  }

  lemma SameColumnsPrepareAlike(c: Collector, d: Collector, gamma: real, gaeLambda: real)
    requires Valid(c) && Valid(d) && c.actors == d.actors && c.version == d.version
    requires c.length == d.length && c.columns.Keys == d.columns.Keys
    requires forall a :: a in c.columns ==> c.columns[a] == d.columns[a]
    ensures Prepare(c, gamma, gaeLambda) == Prepare(d, gamma, gaeLambda)
  {
    forall a ensures a in c.columns <==> a in d.columns {
      assert a in c.columns <==> a in c.columns.Keys;
      assert a in d.columns <==> a in d.columns.Keys;
    }
    assert Columns(c) == Columns(d);
  }
}
