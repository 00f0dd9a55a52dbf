/** Progress of the composed protocol: what has to happen for a waiting call to return, and that it
    does return then. */
module SharedRoundProgress {
  import opened Common
  import opened Packets
  import opened WireMessages
  import opened SequencerSpec
  import opened ClientSpec
  import opened ClientInvariants
  import opened ClientArms
  import opened ConnectionSpec
  import opened ClientEffects
  import opened SharedRound
  import opened SharedRoundSafety

  // ---------------------------------------------------------------- runs, step by step

  ghost predicate Leads(y: System, acts: seq<Act>, z: System)
    decreases |acts|
  {
    if acts == [] then y == z
    else Enabled(y, acts[0]) && Leads(Next(y, acts[0]), acts[1..], z)
  }

  /** Leading somewhere is a possible run that ends there. */
  lemma {:induction false} LeadsIsRun(y: System, acts: seq<Act>, z: System)
    requires Leads(y, acts, z)
    ensures Possible(y, acts) && After(y, acts) == z
    decreases |acts|
  {
    if acts != [] {
      LeadsIsRun(Next(y, acts[0]), acts[1..], z);
    }
  }

  lemma LeadsFirst(y: System, act: Act, acts: seq<Act>, z: System)
    requires Enabled(y, act) && Leads(Next(y, act), acts, z)
    ensures Leads(y, [act] + acts, z)
  {
    assert ([act] + acts)[1..] == acts;
  }

  lemma Regrouped(acts: seq<Act>, more: seq<Act>)
    requires acts != []
    ensures [acts[0]] + (acts[1..] + more) == acts + more
  {
  }

  lemma {:induction false} LeadsOn(y: System, acts: seq<Act>, m: System, more: seq<Act>, z: System)
    requires Leads(y, acts, m) && Leads(m, more, z)
    ensures Leads(y, acts + more, z)
    decreases |acts|
  {
    if acts == [] {
      assert acts + more == more;
    } else {
      var next, rest := Next(y, acts[0]), acts[1..];
      LeadsOn(next, rest, m, more, z);
      LeadsFirst(y, acts[0], rest + more, z);
      Regrouped(acts, more);
    }
  }

  // ---------------------------------------------------------------- deliveries

  predicate InCall(k: Connection) {
    k.call.ArmCall? || k.call.StepCall?
  }

  /** The next message ends the call, or is not the last one coming. */
  lemma MessageAdvances(status: Status, session: string, k: Connection, requests: seq<Request>,
                        messages: seq<Message>, acknowledged: int, balance: int)
    requires InCall(k) && messages != []
    requires Shape(status, session, k, None, requests, messages, acknowledged, balance)
    ensures var d := Deliver(k, messages[0]);
            if k.call.ArmCall? then d.call.ArmDone? || (d.call.ArmCall? && |messages| > 1)
            else d.call.StepDone? || (d.call.StepCall? && |messages| > 1)
  {
    if k.call.ArmCall? {
      assert ArmAnswered(
        status, session, k.call.request, k.call.ready.Some?, requests, messages, balance);
    } else {
      var StepCall(a, applied, terminal, result) := k.call;
      var arm := ArmOf(status).value;
      if terminal.None? && !ActionAnswered(status, session, arm, a, applied, requests, messages, balance) {
        assert Finale(arm, a.observation, session, messages);
      }
    }
  }

  lemma ReceiveAdvances(y: System)
    requires Invariant(y) && InCall(y.connection) && y.toTrainer != []
    ensures Enabled(y, TrainerReceives)
    ensures var z := Next(y, TrainerReceives);
            && |z.toTrainer| == |y.toTrainer| - 1 && z.client == y.client
            && (z.connection.call.NoCall? || (InCall(z.connection) && z.toTrainer != []))
            && (z.connection.call.NoCall? && y.connection.call.ArmCall? ==> z.previous.Some?)
            && (InCall(z.connection) ==> (z.connection.call.ArmCall? <==> y.connection.call.ArmCall?))
  {
    MessageAdvances(
      StatusOf(y.client.sequencer), y.client.sequencer.session, y.connection, y.toClient,
      y.toTrainer, y.episodeActions, FinishedExchanges(y.exchanges) - y.dropped);
  }

  /** Once anything is on its way to a waiting trainer, receiving what is on its way ends the call. */
  lemma {:induction false} DeliveriesEndTheCall(y: System) returns (acts: seq<Act>, z: System)
    requires Invariant(y) && InCall(y.connection) && y.toTrainer != []
    ensures Leads(y, acts, z) && Invariant(z) && z.connection.call.NoCall? && z.client == y.client
    ensures |acts| <= |y.toTrainer| && forall k :: 0 <= k < |acts| ==> acts[k] == TrainerReceives
    ensures y.connection.call.ArmCall? ==> z.previous.Some?
    decreases |y.toTrainer|
  {
    ReceiveAdvances(y);
    NextKeeps(y, TrainerReceives);
    var m := Next(y, TrainerReceives);
    var rest: seq<Act> := [];
    z := m;
    if !m.connection.call.NoCall? {
      rest, z := DeliveriesEndTheCall(m);
    }
    acts := [TrainerReceives] + rest;
    LeadsFirst(y, TrainerReceives, rest, z);
  }

  /** The trainer's side and its incoming messages are as they were. */
  predicate TrainerUntouched(y: System, z: System) {
    z.connection == y.connection && z.toTrainer == y.toTrainer
  }

  lemma UntouchedTogether(y: System, m: System, z: System)
    requires TrainerUntouched(y, m) && TrainerUntouched(m, z)
    ensures TrainerUntouched(y, z)
  {
  }

  lemma RequestRead(y: System)
    requires Invariant(y) && y.toClient != []
    ensures var m := Next(y, ClientReceives);
            Invariant(m) && |m.toClient| == |y.toClient| - 1 && TrainerUntouched(y, m)
  {
    NextKeeps(y, ClientReceives);
    RequestIsWelcome(
      StatusOf(y.client.sequencer), y.client.sequencer.session, y.connection, y.previous, y.toClient,
      y.toTrainer, y.episodeActions, FinishedExchanges(y.exchanges) - y.dropped);
    RequestEffect(y.client, y.toClient[0]);
  }

  function Reads(n: nat): seq<Act> {
    if n == 0 then [] else [ClientReceives] + Reads(n - 1)
  }

  /** The client reads every request on its way, whatever the trainer is doing. */
  lemma {:induction false} RequestsDrain(y: System) returns (z: System)
    requires Invariant(y)
    ensures Leads(y, Reads(|y.toClient|), z)
    ensures Invariant(z) && z.toClient == [] && TrainerUntouched(y, z)
    decreases |y.toClient|
  {
    z := y;
    if y.toClient != [] {
      var m := Next(y, ClientReceives);
      RequestRead(y);
      z := RequestsDrain(m);
      LeadsFirst(y, ClientReceives, Reads(|m.toClient|), z);
      UntouchedTogether(y, m, z);
    }
  }

  // ---------------------------------------------------------------- a pending arm

  /** The trainer waits for `arm`, which its client has pending in a round it does not skip. */
  predicate ReadyToServe(y: System, arm: Arm, phase: ServerPhase) {
    var s := y.client.sequencer;
    && Invariant(y) && y.connection.call == ArmCall(arm, None)
    && y.toClient == [] && y.toTrainer == []
    && s.pending == Some(arm) && s.active.None? && !s.skipUntilInactive
    && LatestPhase(s) == Some(phase) && (phase.LockedCountdown? ==> s.countdownSeen)
  }

  predicate GoodPacket(p: Packet, phase: ServerPhase) {
    Parsed(p) && DirectionIsComplete(p) && p.phase == phase
  }

  lemma InactiveServed(y: System, arm: Arm, p: Packet, feetY: real)
    requires Invariant(y) && y.connection.call == ArmCall(arm, None)
    requires y.toClient == [] && y.toTrainer == []
    requires GoodPacket(p, Inactive) && Lifecycle(y.client.sequencer.latest, p)
    ensures ReadyToServe(Next(y, ServerSends(p, feetY)), arm, Inactive)
  {
    WaitingHasAReason(y);
    NextKeeps(y, ServerSends(p, feetY));
    InactiveReadies(y.client, p, feetY);
  }

  lemma CountdownServed(y: System, arm: Arm, p: Packet, feetY: real)
    requires ReadyToServe(y, arm, Inactive) || ReadyToServe(y, arm, LockedCountdown)
    requires GoodPacket(p, LockedCountdown)
    ensures Enabled(y, ServerSends(p, feetY))
    ensures ReadyToServe(Next(y, ServerSends(p, feetY)), arm, LockedCountdown)
  {
    NextKeeps(y, ServerSends(p, feetY));
    CountdownSeen(y.client, p, feetY);
  }

  lemma ActiveServed(y: System, arm: Arm, p: Packet, feetY: real)
    requires ReadyToServe(y, arm, LockedCountdown) && GoodPacket(p, Active) && p.playerActive
    ensures Enabled(y, ServerSends(p, feetY))
    ensures var z := Next(y, ServerSends(p, feetY));
            Invariant(z) && z.connection == y.connection && z.toTrainer != []
  {
    NextKeeps(y, ServerSends(p, feetY));
    ActiveStarts(y.client, p, feetY);
  }

  function Serving(packets: seq<Packet>, feetY: real): seq<Act> {
    seq(|packets|, k requires 0 <= k < |packets| => ServerSends(packets[k], feetY))
  }

  lemma ServingFirst(packets: seq<Packet>, feetY: real)
    requires packets != []
    ensures [ServerSends(packets[0], feetY)] + Serving(packets[1..], feetY) == Serving(packets, feetY)
  {
  }

  lemma {:induction false} CountdownsServed(
      y: System, arm: Arm, countdowns: seq<Packet>, feetY: real) returns (z: System)
    requires ReadyToServe(y, arm, Inactive) || ReadyToServe(y, arm, LockedCountdown)
    requires countdowns == [] ==> ReadyToServe(y, arm, LockedCountdown)
    requires forall k :: 0 <= k < |countdowns| ==> GoodPacket(countdowns[k], LockedCountdown)
    ensures Leads(y, Serving(countdowns, feetY), z) && ReadyToServe(z, arm, LockedCountdown)
    decreases |countdowns|
  {
    z := y;
    if countdowns != [] {
      var act := ServerSends(countdowns[0], feetY);
      CountdownServed(y, arm, countdowns[0], feetY);
      z := CountdownsServed(Next(y, act), arm, countdowns[1..], feetY);
      LeadsFirst(y, act, Serving(countdowns[1..], feetY), z);
      ServingFirst(countdowns, feetY);
    }
  }

  /** From an idle server on. */
  lemma RoundReturns(y: System, arm: Arm, countdowns: seq<Packet>, active: Packet, feetY: real)
    returns (receipts: seq<Act>, z: System)
    requires ReadyToServe(y, arm, Inactive) && countdowns != []
    requires forall k :: 0 <= k < |countdowns| ==> GoodPacket(countdowns[k], LockedCountdown)
    requires GoodPacket(active, Active) && active.playerActive
    ensures Leads(y, Serving(countdowns, feetY) + ([ServerSends(active, feetY)] + receipts), z)
    ensures forall k :: 0 <= k < |receipts| ==> receipts[k] == TrainerReceives
    ensures Invariant(z) && z.connection.call.NoCall? && z.previous.Some?
  {
    var counted := CountdownsServed(y, arm, countdowns, feetY);
    ActiveServed(counted, arm, active, feetY);
    receipts, z := DeliveriesEndTheCall(Next(counted, ServerSends(active, feetY)));
    LeadsFirst(counted, ServerSends(active, feetY), receipts, z);
    LeadsOn(y, Serving(countdowns, feetY), counted, [ServerSends(active, feetY)] + receipts, z);
  }

  lemma ServingAll(inactive: Packet, countdowns: seq<Packet>, active: Packet, feetY: real,
                   receipts: seq<Act>)
    ensures Serving([inactive] + countdowns + [active], feetY) + receipts
            == [ServerSends(inactive, feetY)]
               + (Serving(countdowns, feetY) + ([ServerSends(active, feetY)] + receipts))
  {
  }

  /** A trainer that waits for a round returns with its first observation once the server sends
      INACTIVE, one or more LOCKED_COUNTDOWN and ACTIVE with the player alive, and the messages
      those cause are received. */
  lemma ArmReturns(y: System, inactive: Packet, countdowns: seq<Packet>, active: Packet, feetY: real)
    returns (receipts: seq<Act>, z: System)
    requires Invariant(y) && y.connection.call.ArmCall? && y.connection.call.ready.None?
    requires y.toClient == [] && y.toTrainer == []
    requires GoodPacket(inactive, Inactive) && Lifecycle(y.client.sequencer.latest, inactive)
    requires countdowns != []
    requires forall k :: 0 <= k < |countdowns| ==> GoodPacket(countdowns[k], LockedCountdown)
    requires GoodPacket(active, Active) && active.playerActive
    ensures Possible(y, Serving([inactive] + countdowns + [active], feetY) + receipts)
    ensures After(y, Serving([inactive] + countdowns + [active], feetY) + receipts) == z
    ensures forall k :: 0 <= k < |receipts| ==> receipts[k] == TrainerReceives
    ensures Invariant(z) && z.connection.call.NoCall? && z.previous.Some?
  {
    var arm, act := y.connection.call.request, ServerSends(inactive, feetY);
    InactiveServed(y, arm, inactive, feetY);
    receipts, z := RoundReturns(Next(y, act), arm, countdowns, active, feetY);
    LeadsFirst(y, act, Serving(countdowns, feetY) + ([ServerSends(active, feetY)] + receipts), z);
    ServingAll(inactive, countdowns, active, feetY, receipts);
    LeadsIsRun(y, Serving([inactive] + countdowns + [active], feetY) + receipts, z);
  }

  // ---------------------------------------------------------------- a held action

  /** Ticks an action still has to be held. */
  function TicksLeft(c: Client): int {
    if c.sequencer.running.Some? then c.holdTicks else ACTION_HOLD_TICKS
  }

  /** The trainer waits for an action its client holds. */
  predicate Holding(y: System) {
    && Invariant(y) && y.connection.call.StepCall? && y.toClient == [] && y.toTrainer == []
    && Held(y.client.sequencer).Some?
  }

  /** The episode goes on with one more acknowledged action. */
  predicate Answered(y: System, z: System) {
    Live(z.client.sequencer)
    && z.client.sequencer.actionSequence == y.client.sequencer.actionSequence + 1
  }

  lemma TickStarted(y: System)
    requires Holding(y)
    ensures 1 <= TicksLeft(y.client) <= ACTION_HOLD_TICKS && Enabled(y, TickBegins)
    ensures var m := Next(y, TickBegins);
            && Holding(m) && m.connection == y.connection && m.client.sequencer.running.Some?
            && TicksLeft(m.client) == TicksLeft(y.client)
            && m.client.sequencer.actionSequence == y.client.sequencer.actionSequence
  {
    NextKeeps(y, TickBegins);
  }

  lemma TickEnded(y: System, feetY: real)
    requires Holding(y) && y.client.sequencer.running.Some?
    ensures var z := Next(y, TickFinishes(feetY));
            && Invariant(z) && z.connection == y.connection && z.toClient == []
            && if TicksLeft(y.client) == 1 then z.toTrainer != [] && Answered(y, z)
               else z.client.sequencer.actionSequence == y.client.sequencer.actionSequence
                    && Holding(z) && TicksLeft(z.client) == TicksLeft(y.client) - 1
  {
    NextKeeps(y, TickFinishes(feetY));
  }

  /** One tick of a holding client. */
  lemma TickHeld(y: System, feetY: real)
    requires Holding(y)
    ensures 1 <= TicksLeft(y.client) <= ACTION_HOLD_TICKS && Enabled(y, TickBegins)
    ensures var z := Next(Next(y, TickBegins), TickFinishes(feetY));
            && Invariant(z) && z.connection == y.connection
            && if TicksLeft(y.client) == 1 then z.toTrainer != [] && Answered(y, z)
               else z.client.sequencer.actionSequence == y.client.sequencer.actionSequence
                    && Holding(z) && TicksLeft(z.client) == TicksLeft(y.client) - 1
  {
    TickStarted(y);
    TickEnded(Next(y, TickBegins), feetY);
  }

  function Ticks(n: nat, feetY: real): seq<Act> {
    if n == 0 then [] else [TickBegins, TickFinishes(feetY)] + Ticks(n - 1, feetY)
  }

  lemma LeadsTick(y: System, feetY: real, acts: seq<Act>, z: System)
    requires Enabled(y, TickBegins)
    requires Leads(Next(Next(y, TickBegins), TickFinishes(feetY)), acts, z)
    ensures Leads(y, [TickBegins, TickFinishes(feetY)] + acts, z)
  {
    LeadsFirst(Next(y, TickBegins), TickFinishes(feetY), acts, z);
    LeadsFirst(y, TickBegins, [TickFinishes(feetY)] + acts, z);
    assert [TickBegins] + ([TickFinishes(feetY)] + acts) == [TickBegins, TickFinishes(feetY)] + acts;
  }

  lemma {:induction false} HeldToTheEnd(y: System, feetY: real) returns (z: System)
    requires Holding(y)
    ensures 1 <= TicksLeft(y.client) <= ACTION_HOLD_TICKS
    ensures Leads(y, Ticks(TicksLeft(y.client), feetY), z)
    ensures Invariant(z) && z.connection == y.connection && z.toTrainer != [] && Answered(y, z)
    decreases TicksLeft(y.client)
  {
    TickHeld(y, feetY);
    var m := Next(Next(y, TickBegins), TickFinishes(feetY));
    z := m;
    if TicksLeft(y.client) > 1 {
      z := HeldToTheEnd(m, feetY);
    }
    LeadsTick(y, feetY, Ticks(TicksLeft(y.client) - 1, feetY), z);
  }

  /** A trainer whose action the client holds returns with the observation after it, once the client
      has ticked as often as the action has ticks left, four at most, and the messages that causes
      are received. */
  lemma StepReturns(y: System, feetY: real) returns (receipts: seq<Act>, z: System)
    requires Holding(y)
    ensures 1 <= TicksLeft(y.client) <= ACTION_HOLD_TICKS
    ensures Possible(y, Ticks(TicksLeft(y.client), feetY) + receipts)
    ensures After(y, Ticks(TicksLeft(y.client), feetY) + receipts) == z
    ensures forall k :: 0 <= k < |receipts| ==> receipts[k] == TrainerReceives
    ensures Invariant(z) && z.connection.call.NoCall? && z.previous.Some?
    ensures z.previous.value.number == y.client.sequencer.actionSequence + 1
  {
    var held := HeldToTheEnd(y, feetY);
    receipts, z := DeliveriesEndTheCall(held);
    LeadsOn(y, Ticks(TicksLeft(y.client), feetY), held, receipts, z);
    LeadsIsRun(y, Ticks(TicksLeft(y.client), feetY) + receipts, z);
  }
}
