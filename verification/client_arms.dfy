/** An accepted arm is never lost, and never starts late. */
module ClientArms {
  import opened Common
  import opened Packets
  import opened WireMessages
  import opened SequencerSpec
  import opened ClientSpec
  import opened ClientInvariants
  import opened ClientTraces

  /** The entry that starts exactly this arm, on its round's first ACTIVE packet. */
  predicate StartsArm(e: Entry, arm: Arm) {
    && MarkOf(e) == Started(arm.round)
    && e.sent[0].payload.EpisodeReadyMessage? && e.sent[0].payload.ready.requestId == arm.requestId
    && e.sent[0].payload.ready.policy == arm.policy
    && e.input.FromServer? && e.input.packet.phase.Active?
  }

  /** The pending arm is kept, or what was sent is an error. */
  predicate KeptOrRefused(c: Client, h: Handled) {
    if h.sent == [] then
      c.sequencer.pending.Some? ==> h.client.sequencer.pending == c.sequencer.pending
    else h.sent[0].payload.ErrorMessage?
  }

  lemma PendingArming(c: Client, arm: Arm, m: Envelope<ToClient>)
    requires ClientInvariant(c) && m.payload == ArmEpisode(arm)
    ensures KeptOrRefused(c, Settle(Release(c), ArmNext(c.sequencer, arm)))
  {
    ArmKeeps(c.sequencer, arm);
  }

  lemma PendingAction(c: Client, a: Action, m: Envelope<ToClient>)
    requires ClientInvariant(c) && m.payload == ActionRequest(a)
    ensures KeptOrRefused(c, Settle(c, QueueAction(c.sequencer, a)))
  {
    QueueKeeps(c.sequencer, a);
  }

  lemma PendingTrainer(c: Client, m: Envelope<ToClient>)
    requires ClientInvariant(c) && !c.crashed && c.connected
    ensures var h := ReceiveTrainer(c, m);
            && (!Resets(Entry(FromTrainer(m), h.sent)) && c.sequencer.pending.Some? ==>
                  h.client.sequencer.pending == c.sequencer.pending)
            && (h.sent == [] || h.sent[0].payload.ErrorMessage?)
  {
    if m.version != PROTOCOL_VERSION {
      FailureFollows(c, FromTrainer(m), VersionMismatch);
    } else if m.payload.ArmEpisode? {
      PendingArming(c, m.payload.arm, m);
    } else if m.payload.ActionRequest? {
      PendingAction(c, m.payload.action, m);
    } else if m.payload.NotForClient? {
      FailureFollows(c, FromTrainer(m), InvalidMessage);
    }
  }

  /** The pending arm is kept or started, and only it is, straight after a countdown. */
  predicate KeptOrStarted(c: Client, e: Entry, next: Sequencer) {
    && (c.sequencer.pending.Some? ==>
          next.pending == c.sequencer.pending || StartsArm(e, c.sequencer.pending.value))
    && (MarkOf(e).Started? ==>
          && c.sequencer.pending.Some? && StartsArm(e, c.sequencer.pending.value)
          && LatestPhase(c.sequencer) == Some(LockedCountdown))
  }

  lemma PendingPacket(c: Client, p: Packet, feetY: real)
    requires ClientInvariant(c) && !c.crashed && !Poison(FromServer(p, feetY))
    ensures var h := ReceiveYRush(c, p, feetY);
            var e := Entry(FromServer(p, feetY), h.sent);
            Resets(e) || KeptOrStarted(c, e, h.client.sequencer)
  {
    var i := FromServer(p, feetY);
    if !Parsed(p) {
      FailureFollows(c, i, ParseError(p).value);
    } else {
      var step := Receive(c.sequencer, p, c.tick);
      ReceiveKeeps(c.sequencer, p, c.tick);
      if step.reply.Violation? {
        FailureFollows(c.(sequencer := step.next), i, step.reply.code);
      } else {
        PendingEvent(c, p, feetY, step);
      }
    }
  }

  lemma PendingEvent(c: Client, p: Packet, feetY: real, step: Step<Event>)
    requires ClientInvariant(c) && GoodReceive(c.sequencer, p, c.tick, step) && step.reply.Ok?
    ensures var h := AfterPacket(c, p, feetY, step);
            KeptOrStarted(c, Entry(FromServer(p, feetY), h.sent), h.client.sequencer)
  {
    match step.reply.value
    case EpisodeStarted => PendingStarts(c, p, feetY, step.next);
    case PlayerEliminated => PendingOutlivesEnd(c, p, feetY, step.next);
    case RoundCompleted => PendingOutlivesEnd(c, p, feetY, step.next);
    case Cleaned => PendingRests(c, p, feetY, step.next);
    case NoEvent => PendingRests(c, p, feetY, step.next);
  }

  lemma PendingStarts(c: Client, p: Packet, feetY: real, next: Sequencer)
    requires ClientInvariant(c) && SequencerInvariant(next)
    requires StartsEpisode(c.sequencer, next, p, c.tick)
    ensures var h := BeginEpisode(c.(sequencer := next), feetY);
            KeptOrStarted(c, Entry(FromServer(p, feetY), h.sent), h.client.sequencer)
  {
    BeginEpisodeEffect(c.(sequencer := next), feetY);
  }

  lemma PendingOutlivesEnd(c: Client, p: Packet, feetY: real, next: Sequencer)
    requires ClientInvariant(c) && SequencerInvariant(next) && EndsEpisode(c.sequencer, next)
    ensures var h := FinishEpisode(c.(sequencer := next), feetY);
            KeptOrStarted(c, Entry(FromServer(p, feetY), h.sent), h.client.sequencer)
  {
    FinishEpisodeEffect(c.(sequencer := next), feetY);
  }

  lemma PendingRests(c: Client, p: Packet, feetY: real, next: Sequencer)
    requires ClientInvariant(c) && next.pending == c.sequencer.pending
    ensures KeptOrStarted(c, Entry(FromServer(p, feetY), []), next)
  {
  }

  lemma PendingTick(c: Client, i: Input)
    requires ClientInvariant(c) && !c.crashed && (i.TickStarts? || i.TickEnds?)
    ensures !Resets(Entry(i, Handle(c, i).sent)) ==>
              Handle(c, i).client.sequencer.pending == c.sequencer.pending
    ensures !MarkOf(Entry(i, Handle(c, i).sent)).Started?
  {
  }

  /** One input keeps the pending arm or starts exactly it, and an episode starts only when the
      packet before its ACTIVE packet was a LOCKED_COUNTDOWN. */
  lemma PendingStep(c: Client, i: Input)
    requires ClientInvariant(c) && !c.crashed && !Poison(i)
    ensures var e := Entry(i, Handle(c, i).sent);
            var next := Handle(c, i).client.sequencer;
            && (!Resets(e) && c.sequencer.pending.Some? ==>
                  next.pending == c.sequencer.pending || StartsArm(e, c.sequencer.pending.value))
            && (MarkOf(e).Started? ==>
                  && c.sequencer.pending.Some? && StartsArm(e, c.sequencer.pending.value)
                  && LatestPhase(c.sequencer) == Some(LockedCountdown))
  {
    match i
    case FromTrainer(m) => if c.connected { PendingTrainer(c, m); }
    case FromServer(p, feetY) => PendingPacket(c, p, feetY);
    case TickStarts => PendingTick(c, i);
    case TickEnds(feetY) => PendingTick(c, i);
    case TrainerConnected(session, nonce, uuid, name) =>
    case TrainerConnectedEarly =>
    case PaperJoined(session, nonce, uuid, name) =>
    case TrainerDisconnected =>
    case FromServerGarbled => FailureFollows(c, i, InvalidMessage);
    case PaperDisconnected => assert Handle(c, i).sent[0].payload.ErrorMessage?;
  }

  predicate Starts(trace: seq<Entry>, arm: Arm) {
    exists k :: 0 <= k < |trace| && StartsArm(trace[k], arm)
  }

  lemma StartsSomewhere(e: Entry, rest: seq<Entry>, arm: Arm)
    requires StartsArm(e, arm) || Starts(rest, arm)
    ensures Starts([e] + rest, arm)
  {
    if StartsArm(e, arm) {
      assert ([e] + rest)[0] == e;
    } else {
      var k :| 0 <= k < |rest| && StartsArm(rest[k], arm);
      assert ([e] + rest)[k + 1] == rest[k];
    }
  }

  /** The first step of a run without resets, and what is left of it. */
  lemma FirstPendingStep(c: Client, inputs: seq<Input>) returns (e: Entry, next: Client)
    requires ClientInvariant(c) && !c.crashed && NoPoison(inputs) && c.sequencer.pending.Some?
    requires inputs != [] && NoResets(Trace(c, inputs))
    ensures Trace(c, inputs) == [e] + Trace(next, inputs[1..])
    ensures Run(c, inputs) == Run(next, inputs[1..])
    ensures ClientInvariant(next) && !next.crashed
    ensures NoPoison(inputs[1..]) && NoResets(Trace(next, inputs[1..]))
    ensures next.sequencer.pending == c.sequencer.pending || StartsArm(e, c.sequencer.pending.value)
  {
    e, next := Entry(inputs[0], Handle(c, inputs[0]).sent), Handle(c, inputs[0]).client;
    var t := Trace(c, inputs);
    assert t[0] == e && t[1..] == Trace(next, inputs[1..]);
    HandleKeeps(c, inputs[0]);
    PendingStep(c, inputs[0]);
    assert NoResets(t[1..]);
  }

  /** Through any number of active, cancelled or skipped rounds a pending arm stays pending until
      the entry that starts exactly it. */
  lemma {:induction false} ArmNeverLost(c: Client, inputs: seq<Input>)
    requires ClientInvariant(c) && !c.crashed && NoPoison(inputs) && c.sequencer.pending.Some?
    requires NoResets(Trace(c, inputs))
    ensures || Run(c, inputs).sequencer.pending == c.sequencer.pending
            || Starts(Trace(c, inputs), c.sequencer.pending.value)
    decreases |inputs|
  {
    if inputs != [] {
      var e, next := FirstPendingStep(c, inputs);
      var rest := Trace(next, inputs[1..]);
      if StartsArm(e, c.sequencer.pending.value) {
        StartsSomewhere(e, rest, c.sequencer.pending.value);
      } else {
        ArmNeverLost(next, inputs[1..]);
        if Starts(rest, c.sequencer.pending.value) {
          StartsSomewhere(e, rest, c.sequencer.pending.value);
        }
      }
    }
  }

  predicate PlainPacket(p: Packet, phase: ServerPhase) {
    Parsed(p) && p.phase == phase && !MissingCounts(p)
  }

  lemma InactiveReadies(c: Client, p: Packet, feetY: real)
    requires ClientInvariant(c) && c.sequencer.pending.Some? && PlainPacket(p, Inactive)
    ensures var h := ReceiveYRush(c, p, feetY);
            var s := h.client.sequencer;
            && h.sent == [] && h.client.crashed == c.crashed
            && s.pending == c.sequencer.pending && s.active.None? && !s.skipUntilInactive
            && !s.countdownSeen && LatestPhase(s) == Some(Inactive)
  {
  }

  lemma CountdownSeen(c: Client, p: Packet, feetY: real)
    requires c.sequencer.pending.Some? && c.sequencer.active.None? && PlainPacket(p, LockedCountdown)
    requires !c.sequencer.skipUntilInactive
    requires LatestPhase(c.sequencer) == Some(Inactive) || LatestPhase(c.sequencer) == Some(LockedCountdown)
    ensures var h := ReceiveYRush(c, p, feetY);
            var s := h.client.sequencer;
            && h.sent == [] && h.client.crashed == c.crashed
            && s.pending == c.sequencer.pending && s.active.None? && !s.skipUntilInactive
            && s.countdownSeen && LatestPhase(s) == Some(LockedCountdown)
  {
  }

  lemma ActiveStarts(c: Client, p: Packet, feetY: real)
    requires c.sequencer.pending.Some? && c.sequencer.active.None? && PlainPacket(p, Active)
    requires !c.sequencer.skipUntilInactive && c.sequencer.countdownSeen && p.playerActive
    requires LatestPhase(c.sequencer) == Some(LockedCountdown)
    ensures StartsArm(Entry(FromServer(p, feetY), ReceiveYRush(c, p, feetY).sent),
                      c.sequencer.pending.value)
  {
  }

  lemma {:induction false} CountdownsStart(c: Client, countdowns: seq<Packet>, active: Packet, feetY: real)
    requires c.sequencer.pending.Some? && c.sequencer.active.None? && !c.crashed
    requires !c.sequencer.skipUntilInactive
    requires forall k :: 0 <= k < |countdowns| ==> PlainPacket(countdowns[k], LockedCountdown)
    requires PlainPacket(active, Active) && active.playerActive
    requires if countdowns == [] then
               c.sequencer.countdownSeen && LatestPhase(c.sequencer) == Some(LockedCountdown)
             else LatestPhase(c.sequencer) == Some(Inactive)
                  || LatestPhase(c.sequencer) == Some(LockedCountdown)
    ensures var inputs := AsInputs(countdowns + [active], feetY);
            StartsArm(Trace(c, inputs)[|countdowns|], c.sequencer.pending.value)
    decreases |countdowns|
  {
    var inputs := AsInputs(countdowns + [active], feetY);
    if countdowns == [] {
      ActiveStarts(c, active, feetY);
    } else {
      CountdownSeen(c, countdowns[0], feetY);
      var d := ReceiveYRush(c, countdowns[0], feetY).client;
      CountdownsStart(d, countdowns[1..], active, feetY);
      assert inputs[1..] == AsInputs(countdowns[1..] + [active], feetY);
    }
  }

  function AsInputs(packets: seq<Packet>, feetY: real): (inputs: seq<Input>)
    ensures |inputs| == |packets|
  {
    seq(|packets|, k requires 0 <= k < |packets| => FromServer(packets[k], feetY))
  }

  /** From every reachable state with a pending arm, INACTIVE, then any number of LOCKED_COUNTDOWN
      packets but at least one, then ACTIVE with the player alive start exactly that arm. */
  lemma ArmStartsWithTheNextRound(
      c: Client, inactive: Packet, countdowns: seq<Packet>, active: Packet, feetY: real)
    requires ClientInvariant(c) && !c.crashed && c.sequencer.pending.Some?
    requires PlainPacket(inactive, Inactive) && countdowns != []
    requires forall k :: 0 <= k < |countdowns| ==> PlainPacket(countdowns[k], LockedCountdown)
    requires PlainPacket(active, Active) && active.playerActive
    ensures var inputs := AsInputs([inactive] + countdowns + [active], feetY);
            StartsArm(Trace(c, inputs)[|countdowns| + 1], c.sequencer.pending.value)
  {
    var inputs := AsInputs([inactive] + countdowns + [active], feetY);
    InactiveReadies(c, inactive, feetY);
    var d := ReceiveYRush(c, inactive, feetY).client;
    CountdownsStart(d, countdowns, active, feetY);
    assert inputs[1..] == AsInputs(countdowns + [active], feetY);
  }

  /** A skipping client starts nothing before the next INACTIVE. */
  lemma SkippingWaits(c: Client, p: Packet, feetY: real)
    requires c.sequencer.pending.Some? && c.sequencer.active.None? && c.sequencer.skipUntilInactive
    requires PlainPacket(p, LockedCountdown) || PlainPacket(p, Active)
    requires LatestPhase(c.sequencer) == Some(LockedCountdown)
    ensures var h := ReceiveYRush(c, p, feetY);
            && h.sent == [] && h.client.crashed == c.crashed
            && h.client.sequencer.pending == c.sequencer.pending
            && h.client.sequencer.active.None? && h.client.sequencer.skipUntilInactive
            && LatestPhase(h.client.sequencer) == Some(p.phase)
  {
  }

  lemma {:induction false} CountdownsSkipped(
      c: Client, countdowns: seq<Packet>, active: Packet, feetY: real)
    requires c.sequencer.pending.Some? && c.sequencer.active.None? && !c.crashed
    requires c.sequencer.skipUntilInactive && LatestPhase(c.sequencer) == Some(LockedCountdown)
    requires forall k :: 0 <= k < |countdowns| ==> PlainPacket(countdowns[k], LockedCountdown)
    requires PlainPacket(active, Active)
    ensures var inputs := AsInputs(countdowns + [active], feetY);
            Trace(c, inputs)[|countdowns|].sent == []
    decreases |countdowns|
  {
    var inputs := AsInputs(countdowns + [active], feetY);
    if countdowns == [] {
      SkippingWaits(c, active, feetY);
    } else {
      SkippingWaits(c, countdowns[0], feetY);
      var d := ReceiveYRush(c, countdowns[0], feetY).client;
      CountdownsSkipped(d, countdowns[1..], active, feetY);
      assert inputs[1..] == AsInputs(countdowns[1..] + [active], feetY);
    }
  }

  lemma ArmedInCountdown(c: Client, arm: Arm)
    requires ClientInvariant(c) && c.sequencer.pending.None?
    requires LatestPhase(c.sequencer) == Some(LockedCountdown)
    requires arm.version == PROTOCOL_VERSION && arm.session == c.sequencer.session
    requires arm.requestId != 0 && PreviousRound(c.sequencer) < arm.round
    ensures var h := ReceiveTrainer(c, Envelope(PROTOCOL_VERSION, ArmEpisode(arm)));
            var s := h.client.sequencer;
            && h.sent == [] && h.client.crashed == c.crashed
            && s.pending == Some(arm) && s.active.None? && s.countdownSeen
            && s.skipUntilInactive == c.sequencer.skipUntilInactive
            && s.latest == c.sequencer.latest
  {
  }

  /** An arm that comes in the middle of a round, or after its end, waits for the next INACTIVE. */
  lemma ArmedInRound(c: Client, arm: Arm)
    requires ClientInvariant(c) && c.sequencer.pending.None? && !Live(c.sequencer)
    requires LatestPhase(c.sequencer) == Some(Active) || LatestPhase(c.sequencer) == Some(RoundComplete)
    requires arm.version == PROTOCOL_VERSION && arm.session == c.sequencer.session
    requires arm.requestId != 0 && arm.round != 0 && PreviousRound(c.sequencer) < arm.round
    ensures var h := ReceiveTrainer(c, Envelope(PROTOCOL_VERSION, ArmEpisode(arm)));
            && h.sent == [] && h.client.sequencer.pending == Some(arm)
            && h.client.sequencer.skipUntilInactive && h.client.sequencer.phase == Skipping
            && h.client.inputs == NEUTRAL
  {
  }

  /** An arm that comes in the middle of a countdown starts with that very round's first ACTIVE packet,
      however many countdown packets follow, unless the client is still skipping an earlier round. */
  lemma ArmStartsInItsCountdown(
      c: Client, arm: Arm, countdowns: seq<Packet>, active: Packet, feetY: real)
    requires ClientInvariant(c) && !c.crashed && c.connected && c.sequencer.pending.None?
    requires LatestPhase(c.sequencer) == Some(LockedCountdown)
    requires arm.version == PROTOCOL_VERSION && arm.session == c.sequencer.session
    requires arm.requestId != 0 && PreviousRound(c.sequencer) < arm.round
    requires forall k :: 0 <= k < |countdowns| ==> PlainPacket(countdowns[k], LockedCountdown)
    requires PlainPacket(active, Active) && active.playerActive
    ensures var request := FromTrainer(Envelope(PROTOCOL_VERSION, ArmEpisode(arm)));
            var inputs := [request] + AsInputs(countdowns + [active], feetY);
            StartsArm(Trace(c, inputs)[|countdowns| + 1], arm) <==> !c.sequencer.skipUntilInactive
  {
    var message := Envelope(PROTOCOL_VERSION, ArmEpisode(arm));
    var rest := AsInputs(countdowns + [active], feetY);
    var inputs := [FromTrainer(message)] + rest;
    ArmedInCountdown(c, arm);
    var d := ReceiveTrainer(c, message).client;
    assert inputs[1..] == rest;
    if c.sequencer.skipUntilInactive {
      CountdownsSkipped(d, countdowns, active, feetY);
    } else {
      CountdownsStart(d, countdowns, active, feetY);
    }
  }
}
