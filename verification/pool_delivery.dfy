/** What reaches the transition sink and the round records, against a notebook an onlooker keeps of the
    actors' answers and the actions they were given. */
module PoolDelivery {
  import opened Common
  import opened Transitions
  import opened Reconcile
  import opened PoolSpec
  import opened PoolInvariant
  import opened PoolSafety

  /** What an actor saw last, whether that was its first sight of the episode, the action it was last
      given, and its last report of this round. */
  datatype Note = Note(seen: Features, start: bool, choices: seq<int>, report: Option<Report>)

  datatype Experience = Experience(
    actor: int, round: int, version: int, observation: Features, action: seq<int>, reward: real,
    nextObservation: Features, terminated: bool, truncated: bool, episodeStart: bool)

  /** The notes, and every valid step answered so far, in order. */
  datatype Notebook = Notebook(notes: map<int, Note>, answered: seq<Experience>)

  const EMPTY := Notebook(map[], [])

  function NoteOf(notes: map<int, Note>, a: int): Note {
    if a in notes then notes[a] else Note([], false, [], None)
  }

  function AnswerNoted(b: Notebook, a: int, response: Response): Notebook {
    var note := NoteOf(b.notes, a);
    match response
    case ArmReturned(sight) =>
      b.(notes := b.notes[a := Note(sight.features, true, [], None)])
    case StepReturned(step) =>
      Notebook(
        b.notes[a := Note(step.sight.features, false, [],
                          if step.terminated || step.truncated then Some(step.report) else None)],
        if step.valid then
          b.answered + [Experience(
            a, step.sight.round, step.sight.version, note.seen, note.choices, step.reward,
            step.sight.features, step.terminated, step.truncated, note.start)]
        else b.answered)
    case CallFailed => b
  }

  /** The turn put an action into the actor's empty queue. */
  predicate GivenAction(p: Pool, q: Pool, a: int) {
    && a in p.actors && a in q.actors && p.actors[a].slot.None?
    && q.actors[a].slot.Some? && q.actors[a].slot.value.ActCommand?
  }

  function ActionsNoted(b: Notebook, p: Pool, q: Pool, picks: int -> seq<int>): Notebook {
    b.(notes := map a | a in p.actors ::
         if GivenAction(p, q, a) then NoteOf(b.notes, a).(choices := picks(a)) else NoteOf(b.notes, a))
  }

  ghost function Noted(b: Notebook, p: Pool, act: Act): Notebook
    requires Enabled(p, act)
  {
    match act
    case ActorAnswers(a, response) => AnswerNoted(b, a, response)
    case DriveTurns(n, picks, boundary) => ActionsNoted(b, p, Next(p, act), picks)
    case _ => b
  }

  // ---------------------------------------------------------------- the sink against the notebook

  /** The transition is that answer. */
  predicate Tells(t: Transition, x: Experience) {
    && t.actor == x.actor && t.round == x.round && t.version == x.version
    && t.observation == x.observation && t.action == x.action && t.reward == x.reward
    && t.nextObservation == x.nextObservation && t.terminated == x.terminated
    && t.truncated == x.truncated && t.episodeStart == x.episodeStart
  }

  /** A prefix of the answers, in order, each once. */
  predicate Delivers(sunk: seq<Transition>, answered: seq<Experience>) {
    && |sunk| <= |answered|
    && forall k :: 0 <= k < |sunk| ==> Tells(sunk[k], answered[k])
  }

  function ExperienceOf(e: Event): Experience
    requires e.Stepped?
  {
    Experience(
      e.actor, e.step.sight.round, e.step.sight.version, e.previous.features, e.decision.choices,
      e.step.reward, e.step.sight.features, e.step.terminated, e.step.truncated,
      e.decision.episodeStart)
  }

  /** The valid steps still in the queue. */
  function Waiting(events: seq<Event>): seq<Experience> {
    if events == [] then [] else WaitingAt(events[0]) + Waiting(events[1..])
  }

  function WaitingAt(e: Event): seq<Experience> {
    if NeedsValue(e) then [ExperienceOf(e)] else []
  }

  /** Every answer is delivered or waits in the queue. */
  predicate Accounted(p: Pool, answered: seq<Experience>) {
    Delivers(p.sunk, answered) && answered[|p.sunk|..] == Waiting(p.events)
  }

  /** A command the actor holds is the action noted, in reply to the sight noted. */
  predicate Commanded(a: Actor, command: Option<Command>, note: Note) {
    command.Some? && command.value.ActCommand? ==>
      && command.value.decision.choices == note.choices
      && command.value.decision.episodeStart == note.start
      && a.seen.Some? && a.seen.value.features == note.seen
  }

  predicate Commanding(actors: map<int, Actor>, notes: map<int, Note>) {
    forall a :: a in actors ==>
      && Commanded(actors[a], actors[a].slot, NoteOf(notes, a))
      && Commanded(actors[a], actors[a].running, NoteOf(notes, a))
  }

  predicate Offering(available: map<int, Offer>, notes: map<int, Note>) {
    forall a :: a in available ==>
      available[a].features == NoteOf(notes, a).seen
      && available[a].episodeStart == NoteOf(notes, a).start
  }

  predicate Concluding(results: map<int, Report>, notes: map<int, Note>) {
    forall a :: a in results ==> NoteOf(notes, a).report == Some(results[a])
  }

  predicate Minded(p: Pool, notes: map<int, Note>) {
    && Commanding(p.actors, notes) && Offering(p.available, notes) && Concluding(p.results, notes)
    && Posting(p.events, notes)
  }

  /** A posted event is its actor's last answer. */
  predicate Posts(e: Event, note: Note) {
    match e
    case Armed(_, sight) => note.seen == sight.features && note.start
    case Stepped(_, _, _, step) =>
      && note.seen == step.sight.features && !note.start
      && (Finished(step) ==> note.report == Some(step.report))
    case Failed(_) => true
  }

  predicate Posting(events: seq<Event>, notes: map<int, Note>) {
    forall i :: 0 <= i < |events| ==> Posts(events[i], NoteOf(notes, events[i].actor))
  }

  predicate Booked(p: Pool, b: Notebook) {
    if p.status.Raised? then Delivers(p.sunk, b.answered)
    else Minded(p, b.notes) && Accounted(p, b.answered)
  }

  // ---------------------------------------------------------------- answers

  lemma Regrouped(xs: seq<Experience>, ys: seq<Experience>, zs: seq<Experience>)
    ensures xs + (ys + zs) == xs + ys + zs
  {
  }

  lemma {:induction false} WaitingGrows(events: seq<Event>, e: Event)
    ensures Waiting(events + [e]) == Waiting(events) + WaitingAt(e)
  {
    var more := events + [e];
    if events == [] {
      assert more[1..] == [];
    } else {
      assert more[0] == events[0] && more[1..] == events[1..] + [e];
      WaitingGrows(events[1..], e);
      Regrouped(WaitingAt(events[0]), Waiting(events[1..]), WaitingAt(e));
    }
  }

  lemma AnswerMinds(p: Pool, b: Notebook, a: int, response: Response)
    requires Within(p) && a in p.actors && PoolSpec.Faithful(p.actors[a], response)
    requires Minded(p, b.notes)
    ensures var q, c := ActorFinishes(p, a, response), AnswerNoted(b, a, response);
            Minded(q, c.notes)
  {
    assert !Free(p.actors[a]);
    assert p.actors[a].slot.None?;
    var q, c := ActorFinishes(p, a, response), AnswerNoted(b, a, response);
    forall i | 0 <= i < |q.events| ensures Posts(q.events[i], NoteOf(c.notes, q.events[i].actor)) {
      if i < |p.events| {
        assert q.events[i] == p.events[i] && p.events[i].actor != a;
      }
    }
  }

  lemma AnswerAccounted(p: Pool, b: Notebook, a: int, response: Response)
    requires a in p.actors && PoolSpec.Faithful(p.actors[a], response)
    requires Minded(p, b.notes) && Accounted(p, b.answered)
    ensures Accounted(ActorFinishes(p, a, response), AnswerNoted(b, a, response).answered)
  {
    var e := PoolSpec.Outcome(a, p.actors[a], response);
    WaitingGrows(p.events, e);
    if NeedsValue(e) {
      assert Commanded(p.actors[a], p.actors[a].running, NoteOf(b.notes, a));
    }
  }

  lemma AnswerBooked(p: Pool, b: Notebook, a: int, response: Response)
    requires Within(p) && p.status.Driving? && a in p.actors && Booked(p, b)
    requires PoolSpec.Faithful(p.actors[a], response)
    ensures Booked(ActorFinishes(p, a, response), AnswerNoted(b, a, response))
  {
    AnswerMinds(p, b, a, response);
    AnswerAccounted(p, b, a, response);
  }

  lemma TakingBooked(p: Pool, b: Notebook, a: int)
    requires p.status.Driving? && a in p.actors && Booked(p, b)
    ensures Booked(ActorTakes(p, a), b)
  {
  }

  // ---------------------------------------------------------------- events

  lemma OfferNoted(available: map<int, Offer>, notes: map<int, Note>, a: int, offer: Offer)
    requires Offering(available, notes)
    requires offer.features == NoteOf(notes, a).seen && offer.episodeStart == NoteOf(notes, a).start
    ensures Offering(available[a := offer], notes)
  {
  }

  lemma ResultNoted(results: map<int, Report>, notes: map<int, Note>, a: int, report: Report)
    requires Concluding(results, notes) && NoteOf(notes, a).report == Some(report)
    ensures Concluding(results[a := report], notes)
  {
  }

  lemma RestPosting(events: seq<Event>, notes: map<int, Note>)
    requires events != [] && Posting(events, notes)
    ensures Posts(events[0], NoteOf(notes, events[0].actor)) && Posting(events[1..], notes)
  {
  }

  lemma ArmedMinds(p: Pool, notes: map<int, Note>, e: Event)
    requires e.Armed? && Posts(e, NoteOf(notes, e.actor)) && Minded(p, notes)
    ensures Minded(Process(p, e, map[]), notes)
  {
    OfferNoted(p.available, notes, e.actor, Offer(e.sight.features, true));
  }

  lemma SteppedMinds(p: Pool, notes: map<int, Note>, e: Event, values: map<int, real>)
    requires e.Stepped? && Posts(e, NoteOf(notes, e.actor)) && Minded(p, notes)
    requires NeedsValue(e) ==> e.actor in values
    ensures Minded(Process(p, e, values), notes)
  {
    if Finished(e.step) {
      ResultNoted(p.results, notes, e.actor, e.step.report);
    } else {
      OfferNoted(p.available, notes, e.actor, Offer(e.step.sight.features, false));
    }
  }

  /** The first event moves what it holds where the notebook expects it. */
  lemma FirstMinds(p: Pool, notes: map<int, Note>, values: map<int, real>)
    requires p.events != [] && HaveValues(p.events, 1, values) && Minded(p, notes)
    ensures Minded(TakeFirst(p, values), notes)
  {
    var e, q := p.events[0], p.(events := p.events[1..]);
    RestPosting(p.events, notes);
    match e
    case Failed(_) =>
    case Armed(_, _) => ArmedMinds(q, notes, e);
    case Stepped(_, _, _, _) => SteppedMinds(q, notes, e, values);
  }

  /** The queued steps belong to the current round and policy. */
  predicate CurrentSteps(p: Pool, n: nat)
    requires n <= |p.events|
  {
    forall i :: 0 <= i < n && p.events[i].Stepped? ==> InRound(p, p.events[i].step.sight)
  }

  lemma OneMoreDelivered(
      sunk: seq<Transition>, answered: seq<Experience>, t: Transition, x: Experience,
      rest: seq<Experience>)
    requires Delivers(sunk, answered) && answered[|sunk|..] == [x] + rest && Tells(t, x)
    ensures Delivers(sunk + [t], answered) && answered[|sunk + [t]|..] == rest
  {
    assert answered[|sunk|] == answered[|sunk|..][0] == x;
    assert answered[|sunk| + 1..] == answered[|sunk|..][1..];
  }

  lemma FirstWaits(events: seq<Event>)
    requires events != [] && NeedsValue(events[0])
    ensures Waiting(events) == [ExperienceOf(events[0])] + Waiting(events[1..])
  {
  }

  /** What no event of a turn changes. */
  ghost predicate SameTurn(p: Pool, q: Pool) {
    && q.actors == p.actors && q.order == p.order && q.completed == p.completed
    && q.round == p.round && q.policy == p.policy && q.limit == p.limit
  }

  lemma CountedLeaves(p: Pool, e: Event, values: map<int, real>)
    requires e.Stepped? && (NeedsValue(e) ==> e.actor in values)
    ensures var q := Counted(p, e, values);
            && q.events == p.events && SameTurn(p, q) && q.status == p.status
            && q.sunk == p.sunk + if NeedsValue(e) then [TransitionOf(p, e, values[e.actor])] else []
  {
  }

  lemma ProcessLeaves(p: Pool, e: Event, values: map<int, real>)
    requires NeedsValue(e) ==> e.actor in values
    ensures var q := Process(p, e, values);
            && q.events == p.events
            && SameTurn(p, q) && (q.status == p.status || q.status.Raised?)
            && q.sunk == p.sunk + if NeedsValue(e) then [TransitionOf(p, e, values[e.actor])] else []
  {
    if e.Stepped? {
      CountedLeaves(p, e, values);
    }
  }

  /** A valid step goes from the front of the queue to the end of the sink. */
  lemma FirstAccounted(p: Pool, answered: seq<Experience>, values: map<int, real>)
    requires p.events != [] && HaveValues(p.events, 1, values) && CurrentSteps(p, 1)
    requires Accounted(p, answered)
    ensures Delivers(TakeFirst(p, values).sunk, answered)
    ensures !TakeFirst(p, values).status.Raised? ==> Accounted(TakeFirst(p, values), answered)
  {
    var e := p.events[0];
    ProcessLeaves(p.(events := p.events[1..]), e, values);
    if NeedsValue(e) {
      FirstWaits(p.events);
      OneMoreDelivered(p.sunk, answered, TransitionOf(p, e, values[e.actor]), ExperienceOf(e),
                       Waiting(p.events[1..]));
    }
  }

  lemma FirstLeaves(p: Pool, n: nat, values: map<int, real>)
    requires 0 < n <= |p.events| && HaveValues(p.events, n, values) && CurrentSteps(p, n)
    ensures var m := TakeFirst(p, values);
            && |m.events| == |p.events| - 1 && (m.status == p.status || m.status.Raised?)
            && SameTurn(p, m)
            && HaveValues(m.events, n - 1, values) && CurrentSteps(m, n - 1)
  {
    ProcessLeaves(p.(events := p.events[1..]), p.events[0], values);
    assert forall i :: 0 <= i < n - 1 ==> p.events[1..][i] == p.events[i + 1];
  }

  lemma {:induction false} EventsBooked(p: Pool, n: nat, b: Notebook, values: map<int, real>)
    requires p.status.Driving? && n <= |p.events| && Booked(p, b)
    requires HaveValues(p.events, n, values) && CurrentSteps(p, n)
    ensures Booked(ProcessAll(p, n, values), b)
    ensures SameTurn(p, ProcessAll(p, n, values))
    decreases n
  {
    if n > 0 {
      var m := TakeFirst(p, values);
      FirstMinds(p, b.notes, values);
      FirstAccounted(p, b.answered, values);
      FirstLeaves(p, n, values);
      if m.status.Driving? {
        EventsBooked(m, n - 1, b, values);
      }
    }
  }

  // ---------------------------------------------------------------- the end of a turn

  lemma SubmitMinds(p: Pool, b: Notebook, picks: int -> seq<int>)
    requires Homogeneous(p) && Disjoint(p) && AllFree(p, p.available.Keys)
    requires Minded(p, b.notes)
    ensures var q := SubmitAll(p, picks);
            var notes := ActionsNoted(b, p, q, picks).notes;
            Commanding(q.actors, notes) && Concluding(q.results, notes)
  {
    var q := SubmitAll(p, picks);
    var c := ActionsNoted(b, p, q, picks);
    forall a | a in q.actors
      ensures Commanded(q.actors[a], q.actors[a].slot, NoteOf(c.notes, a))
      ensures Commanded(q.actors[a], q.actors[a].running, NoteOf(c.notes, a))
    {
      assert Commanded(p.actors[a], p.actors[a].slot, NoteOf(b.notes, a));
      assert Commanded(p.actors[a], p.actors[a].running, NoteOf(b.notes, a));
      if a in p.available { assert GoodOffer(p, a) && Free(p.actors[a]); }
    }
  }

  lemma NotesKeepPosting(p: Pool, q: Pool, b: Notebook, picks: int -> seq<int>)
    requires Posting(p.events, b.notes)
    requires forall i :: 0 <= i < |p.events| ==> p.events[i].actor in p.actors
    ensures Posting(p.events, ActionsNoted(b, p, q, picks).notes)
  {
    forall i | 0 <= i < |p.events|
      ensures Posts(p.events[i], NoteOf(ActionsNoted(b, p, q, picks).notes, p.events[i].actor))
    {
      assert Posts(p.events[i], NoteOf(b.notes, p.events[i].actor));
    }
  }

  /** The actions given are noted as they were picked. */
  lemma SubmitBooked(p: Pool, b: Notebook, picks: int -> seq<int>)
    requires Within(p) && p.status.Driving? && Booked(p, b)
    ensures Booked(SubmitAll(p, picks), ActionsNoted(b, p, SubmitAll(p, picks), picks))
  {
    assert AllFree(p, p.available.Keys);
    SubmitMinds(p, b, picks);
    NotesKeepPosting(p, SubmitAll(p, picks), b, picks);
  }

  /** Entering a round gives no actions and forgets the results. */
  lemma EnterRoundBooked(p: Pool, b: Notebook)
    requires AtRest(p) && Booked(p, b) && !p.status.Raised?
    ensures Booked(EnterRound(p), b)
  {
  }

  lemma BarrierBooked(p: Pool, b: Notebook, boundary: Boundary)
    requires Within(p) && p.status.Driving? && |p.results| == |p.order| && Booked(p, b)
    ensures Booked(Barrier(p, boundary), b)
  {
    FullMeansIdle(p);
    var r := ReconcileRound(p.round, p.policy.version, p.results, p.order);
    if r.Reconciled? && boundary.Continue? {
      EnterRoundBooked(p.(completed := p.completed + [r.record], policy := boundary.next), b);
    }
  }

  /** Giving nobody an action changes no note of an actor. */
  lemma NoGiftNoChange(p: Pool, q: Pool, b: Notebook, picks: int -> seq<int>, a: int)
    requires a in p.actors && !GivenAction(p, q, a)
    ensures NoteOf(ActionsNoted(b, p, q, picks).notes, a) == NoteOf(b.notes, a)
  {
  }

  /** After the barrier nobody has an action: everybody is armed anew, or idle. */
  lemma NoGiftsBooked(p: Pool, q: Pool, b: Notebook, picks: int -> seq<int>)
    requires Booked(q, b) && !q.status.Raised? && q.actors.Keys == p.actors.Keys
    requires |q.available| == 0 && q.events == [] && forall a :: a in q.results ==> a in q.actors
    requires forall a :: a in q.actors ==> q.actors[a].slot.None? || q.actors[a].slot.value.ArmCommand?
    ensures Booked(q, ActionsNoted(b, p, q, picks))
  {
    assert forall a :: a in q.available.Keys ==> |q.available.Keys| > 0;
    forall a | a in q.actors
      ensures NoteOf(ActionsNoted(b, p, q, picks).notes, a) == NoteOf(b.notes, a)
    {
      assert a in q.actors.Keys;
      NoGiftNoChange(p, q, b, picks, a);
    }
  }

  lemma SubmitNothing(p: Pool, picks: int -> seq<int>)
    requires |p.available| == 0
    ensures SubmitAll(p, picks) == p.(available := map[])
  {
    assert p.available.Keys == {};
    assert AllFree(p, p.available.Keys);
    var q := SubmitAll(p, picks);
    assert q.actors == p.actors;
  }

  /** What the barrier leaves: a closed pool, an idle one, or one with everybody armed. */
  lemma BarrierLeaves(p: Pool, boundary: Boundary)
    requires Within(p) && p.status.Driving? && |p.results| == |p.order|
    ensures var q := Barrier(p, boundary);
            q.status.Raised? ||
            (&& q.actors.Keys == p.actors.Keys && |q.available| == 0 && q.events == []
             && (forall a :: a in q.results ==> a in q.actors)
             && forall a :: a in q.actors ==>
                  q.actors[a].slot.None? || q.actors[a].slot.value.ArmCommand?)
  {
    FullMeansIdle(p);
  }

  lemma FullTurnBooked(p: Pool, m: Pool, b: Notebook, picks: int -> seq<int>, boundary: Boundary)
    requires Within(m) && m.status.Driving? && |m.results| == |m.order| && Booked(m, b)
    requires m.actors == p.actors
    ensures var q := FinishTurn(m, picks, boundary);
            Booked(q, ActionsNoted(b, p, q, picks))
  {
    var r := Barrier(m, boundary);
    BarrierBooked(m, b, boundary);
    BarrierLeaves(m, boundary);
    if r.status.Driving? {
      SubmitNothing(r, picks);
      NoGiftsBooked(p, r.(available := map[]), b, picks);
    } else if r.status.NotDriving? {
      NoGiftsBooked(p, r, b, picks);
    }
  }

  lemma SameNotes(b: Notebook, p: Pool, m: Pool, q: Pool, picks: int -> seq<int>)
    requires m.actors == p.actors
    ensures ActionsNoted(b, p, q, picks) == ActionsNoted(b, m, q, picks)
  {
  }

  lemma OpenTurnBooked(p: Pool, m: Pool, b: Notebook, picks: int -> seq<int>, boundary: Boundary)
    requires Within(m) && m.status.Driving? && |m.results| != |m.order| && Booked(m, b)
    requires m.actors == p.actors
    ensures var q := FinishTurn(m, picks, boundary);
            Booked(q, ActionsNoted(b, p, q, picks))
  {
    SubmitBooked(m, b, picks);
    SameNotes(b, p, m, SubmitAll(m, picks), picks);
  }

  lemma TurnBooked(p: Pool, n: nat, b: Notebook, picks: int -> seq<int>, boundary: Boundary)
    requires Within(p) && p.status.Driving? && n <= |p.events| && Booked(p, b)
    ensures var q := Iterate(p, n, picks, boundary);
            Booked(q, ActionsNoted(b, p, q, picks))
  {
    var values := NextValues(p.policy, p.events[..n]);
    NextValuesAreRight(p.policy, p.events, n);
    EventsAreCurrent(p, n);
    EventsBooked(p, n, b, values);
    ProcessAllKeeps(p, n, values);
    var m := Processed(p, n);
    if m.status.Driving? {
      if |m.results| == |m.order| {
        FullTurnBooked(p, m, b, picks, boundary);
      } else {
        OpenTurnBooked(p, m, b, picks, boundary);
      }
    }
  }

  /** The record is made of the results, in the order of the actors. */
  lemma BarrierRecords(p: Pool, notes: map<int, Note>, boundary: Boundary)
    requires Concluding(p.results, notes)
    ensures Recorded(p, notes, Barrier(p, boundary))
  {
  }

  /** q has p's records, or one more: the actors' last reports about p's round. */
  predicate Recorded(p: Pool, notes: map<int, Note>, q: Pool) {
    q.completed == p.completed ||
    (&& |q.completed| == |p.completed| + 1 && q.completed[..|p.completed|] == p.completed
     && var record := q.completed[|p.completed|];
        && record.round == p.round && record.version == p.policy.version
        && |record.players| == |p.order|
        && forall i :: 0 <= i < |p.order| ==>
             NoteOf(notes, p.order[i]).report == Some(record.players[i]))
  }

  lemma EndingRecords(p: Pool, notes: map<int, Note>, picks: int -> seq<int>, boundary: Boundary)
    requires Concluding(p.results, notes)
    ensures Recorded(p, notes, FinishTurn(p, picks, boundary))
  {
    BarrierRecords(p, notes, boundary);
  }

  lemma TurnRecords(p: Pool, n: nat, b: Notebook, picks: int -> seq<int>, boundary: Boundary)
    requires Within(p) && p.status.Driving? && n <= |p.events| && Booked(p, b)
    ensures Recorded(p, b.notes, Iterate(p, n, picks, boundary))
  {
    var values := NextValues(p.policy, p.events[..n]);
    NextValuesAreRight(p.policy, p.events, n);
    EventsAreCurrent(p, n);
    EventsBooked(p, n, b, values);
    var m := Processed(p, n);
    if !m.status.Raised? {
      EndingRecords(m, b.notes, picks, boundary);
    }
  }

  lemma EventsAreCurrent(p: Pool, n: nat)
    requires Homogeneous(p) && n <= |p.events|
    ensures CurrentSteps(p, n)
  {
    forall i | 0 <= i < n && p.events[i].Stepped? ensures InRound(p, p.events[i].step.sight) {
      assert GoodEvent(p, p.events[i]);
    }
  }

  lemma CallBooked(p: Pool, b: Notebook, policy: Policy, limit: Option<int>)
    requires Holds(p) && p.status.NotDriving? && Booked(p, b)
    ensures Booked(StartDrive(p, policy, limit), b)
  {
    if limit.None? || limit.value > 0 {
      EnterRoundBooked(Called(p, policy, limit), b);
    }
  }

  /** Every step keeps the books. */
  lemma NextBooked(p: Pool, b: Notebook, act: Act)
    requires Holds(p) && Enabled(p, act) && Booked(p, b)
    ensures Booked(Next(p, act), Noted(b, p, act))
  {
    match act
    case DriveIsCalled(policy, limit) => CallBooked(p, b, policy, limit);
    case ActorPicksUp(a) =>
      BusyMeansDriving(p, a);
      TakingBooked(p, b, a);
    case ActorAnswers(a, response) =>
      BusyMeansDriving(p, a);
      AnswerBooked(p, b, a, response);
    case DriveTurns(n, picks, boundary) => TurnBooked(p, n, b, picks, boundary);
  }

  // ---------------------------------------------------------------- whole runs

  ghost function NotedAll(b: Notebook, p: Pool, acts: seq<Act>): Notebook
    requires Possible(p, acts)
    decreases |acts|
  {
    if acts == [] then b else NotedAll(Noted(b, p, acts[0]), Next(p, acts[0]), acts[1..])
  }

  lemma {:induction false} BookedForever(p: Pool, b: Notebook, acts: seq<Act>)
    requires Holds(p) && Possible(p, acts) && Booked(p, b)
    ensures Booked(After(p, acts), NotedAll(b, p, acts))
    decreases |acts|
  {
    if acts != [] {
      NextKeeps(p, acts[0]);
      NextBooked(p, b, acts[0]);
      BookedForever(Next(p, acts[0]), Noted(b, p, acts[0]), acts[1..]);
    }
  }

  /** The sink receives the valid steps the actors answered, in the order they were answered, each
      once and with the sight, the action, the reward and the flags they had; between calls of drive
      it has received them all. */
  lemma AnswersAreDelivered(order: seq<int>, policy: Policy, acts: seq<Act>)
    requires order != [] && Distinct(order) && Possible(Started(order, policy), acts)
    ensures var p := After(Started(order, policy), acts);
            var answered := NotedAll(EMPTY, Started(order, policy), acts).answered;
            && |p.sunk| <= |answered|
            && (forall k :: 0 <= k < |p.sunk| ==> Tells(p.sunk[k], answered[k]))
            && (p.status.NotDriving? ==> |p.sunk| == |answered|)
  {
    var start := Started(order, policy);
    HoldsForever(start, acts);
    BookedForever(start, EMPTY, acts);
  }

  /** The record a turn adds holds, actor by actor, the last report of that actor's last answer. */
  lemma RecordsTellLastReports(
      order: seq<int>, policy: Policy, acts: seq<Act>, n: nat, picks: int -> seq<int>,
      boundary: Boundary)
    requires order != [] && Distinct(order) && Possible(Started(order, policy), acts)
    requires Enabled(After(Started(order, policy), acts), DriveTurns(n, picks, boundary))
    ensures var p := After(Started(order, policy), acts);
            var notes := NotedAll(EMPTY, Started(order, policy), acts).notes;
            var q := Iterate(p, n, picks, boundary);
            p.order == order && Recorded(p, notes, q)
  {
    var start := Started(order, policy);
    HoldsForever(start, acts);
    BookedForever(start, EMPTY, acts);
    var p, b := After(start, acts), NotedAll(EMPTY, start, acts);
    TurnRecords(p, n, b, picks, boundary);
  }
}
