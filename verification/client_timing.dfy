/** How long an action is held, when client ticks start and end in turn. */
module ClientTiming {
  import opened Common
  import opened Packets
  import opened WireMessages
  import opened SequencerSpec
  import opened ClientSpec
  import opened ClientInvariants

  /** An onlooker's clock: are we inside a tick, at which tick were the controls last pressed, and
      how many ticks have ended since with an action running. */
  datatype Clock = Clock(inTick: bool, begunTick: int, heldTicks: int)

  function Advance(k: Clock, c: Client, i: Input, next: Client): Clock {
    if i.TickStarts? then
      if c.sequencer.running.None? && next.sequencer.running.Some? then Clock(true, next.tick, 0)
      else k.(inTick := true)
    else if i.TickEnds? then
      Clock(false, k.begunTick, k.heldTicks + if c.sequencer.running.Some? then 1 else 0)
    else k
  }

  predicate InTurn(k: Clock, i: Input) {
    (i.TickStarts? ==> !k.inTick) && (i.TickEnds? ==> k.inTick)
  }

  /** The tick stamp of the last ACTIVE observation sent. */
  function LastObservedTick(sent: seq<Message>): Option<int>
    decreases |sent|
  {
    if sent == [] then None
    else
      var last := sent[|sent| - 1].payload;
      if last.ObservationMessage? && last.observed.phase.ObservedActive? then
        Some(last.observed.clientTick)
      else LastObservedTick(sent[..|sent| - 1])
  }

  predicate OnTime(c: Client, k: Clock, sent: seq<Message>) {
    && (Live(c.sequencer) ==>
          && c.sequencer.observationTick <= c.tick
          && LastObservedTick(sent) == Some(c.sequencer.observationTick))
    && (c.sequencer.running.Some? ==>
          && k.heldTicks + c.holdTicks == ACTION_HOLD_TICKS
          && c.tick - k.begunTick == k.heldTicks - (if k.inTick then 0 else 1)
          && c.sequencer.observationTick < k.begunTick)
  }

  /** An acknowledgement leaves at the end of the fourth held tick, with an observation at least
      four ticks after the one before. */
  predicate HeldFourTicks(k: Clock, before: seq<Message>, i: Input, sent: seq<Message>) {
    (exists j :: 0 <= j < |sent| && sent[j].payload.ActionAppliedMessage?) ==>
      && i.TickEnds? && k.heldTicks + 1 == ACTION_HOLD_TICKS
      && |sent| == 2 && sent[1].payload.ObservationMessage?
      && sent[1].payload.observed.clientTick == k.begunTick + ACTION_HOLD_TICKS - 1
      && LastObservedTick(before).Some?
      && sent[1].payload.observed.clientTick - LastObservedTick(before).value >= ACTION_HOLD_TICKS
  }

  /** Every acknowledgement of a run is held for four ticks, as long as ticks come in turn. */
  ghost predicate AlwaysHeldFourTicks(c: Client, k: Clock, before: seq<Message>, inputs: seq<Input>)
    decreases |inputs|
  {
    inputs != [] && InTurn(k, inputs[0]) ==>
      var h := Handle(c, inputs[0]);
      && HeldFourTicks(k, before, inputs[0], h.sent)
      && AlwaysHeldFourTicks(
           h.client, Advance(k, c, inputs[0], h.client), before + h.sent, inputs[1..])
  }

  lemma {:induction false} SilenceKeepsLast(before: seq<Message>, sent: seq<Message>)
    requires forall j :: 0 <= j < |sent| ==>
      !(sent[j].payload.ObservationMessage? && sent[j].payload.observed.phase.ObservedActive?)
    ensures LastObservedTick(before + sent) == LastObservedTick(before)
    decreases |sent|
  {
    if sent == [] {
      assert before + sent == before;
    } else {
      var shorter := sent[..|sent| - 1];
      assert (before + sent)[..|before + sent| - 1] == before + shorter;
      SilenceKeepsLast(before, shorter);
    }
  }

  lemma LastIsNew(before: seq<Message>, sent: seq<Message>)
    requires sent != [] && sent[|sent| - 1].payload.ObservationMessage?
    requires sent[|sent| - 1].payload.observed.phase.ObservedActive?
    ensures LastObservedTick(before + sent) == Some(sent[|sent| - 1].payload.observed.clientTick)
  {
  }

  lemma StartTickOnTime(c: Client, k: Clock, before: seq<Message>)
    requires ClientInvariant(c) && !c.crashed && OnTime(c, k, before) && !k.inTick
    ensures var h := StartTick(c);
            && OnTime(h.client, Advance(k, c, TickStarts, h.client), before + h.sent)
            && HeldFourTicks(k, before, TickStarts, h.sent)
  {
    var h := StartTick(c);
    SilenceKeepsLast(before, h.sent);
  }

  lemma EndTickOnTime(c: Client, k: Clock, before: seq<Message>, feetY: real)
    requires ClientInvariant(c) && !c.crashed && OnTime(c, k, before) && k.inTick
    ensures var h := EndTick(c, feetY);
            && OnTime(h.client, Advance(k, c, TickEnds(feetY), h.client), before + h.sent)
            && HeldFourTicks(k, before, TickEnds(feetY), h.sent)
  {
    var h := EndTick(c, feetY);
    if h.sent == [] {
      assert before + h.sent == before;
    } else {
      assert |h.sent| == 2 && h.sent[1].payload.ObservationMessage?;
      LastIsNew(before, h.sent);
    }
  }

  lemma EventOnTime(
      c: Client, k: Clock, before: seq<Message>, p: Packet, feetY: real, step: Step<Event>)
    requires ClientInvariant(c) && GoodReceive(c.sequencer, p, c.tick, step) && step.reply.Ok?
    requires OnTime(c, k, before)
    ensures var h := AfterPacket(c, p, feetY, step);
            && OnTime(h.client, k, before + h.sent)
            && HeldFourTicks(k, before, FromServer(p, feetY), h.sent)
  {
    var d := c.(sequencer := step.next);
    var h := AfterPacket(c, p, feetY, step);
    match step.reply.value
    case EpisodeStarted =>
      BeginEpisodeEffect(d, feetY);
      LastIsNew(before, h.sent);
    case PlayerEliminated => FinishEpisodeEffect(d, feetY);
    case RoundCompleted => FinishEpisodeEffect(d, feetY);
    case Cleaned =>
    case NoEvent => assert before + h.sent == before;
  }

  lemma PacketOnTime(c: Client, k: Clock, before: seq<Message>, p: Packet, feetY: real)
    requires ClientInvariant(c) && !c.crashed && !Poison(FromServer(p, feetY)) && OnTime(c, k, before)
    ensures var h := ReceiveYRush(c, p, feetY);
            && OnTime(h.client, k, before + h.sent)
            && HeldFourTicks(k, before, FromServer(p, feetY), h.sent)
  {
    if Parsed(p) {
      ReceiveKeeps(c.sequencer, p, c.tick);
      var step := Receive(c.sequencer, p, c.tick);
      if step.reply.Ok? { EventOnTime(c, k, before, p, feetY, step); }
    }
  }

  lemma TrainerOnTime(c: Client, k: Clock, before: seq<Message>, m: Envelope<ToClient>)
    requires ClientInvariant(c) && !c.crashed && c.connected && OnTime(c, k, before)
    ensures var h := ReceiveTrainer(c, m);
            && OnTime(h.client, k, before + h.sent)
            && HeldFourTicks(k, before, FromTrainer(m), h.sent)
  {
    var h := ReceiveTrainer(c, m);
    match m.payload
    case ArmEpisode(arm) => ArmKeeps(c.sequencer, arm);
    case ActionRequest(action) =>
      QueueKeeps(c.sequencer, action);
      if h.sent == [] { assert before + h.sent == before; }
    case Shutdown =>
    case NotForClient =>
  }

  lemma HandleOnTime(c: Client, k: Clock, before: seq<Message>, i: Input)
    requires ClientInvariant(c) && !c.crashed && !Poison(i) && OnTime(c, k, before) && InTurn(k, i)
    ensures var h := Handle(c, i);
            && OnTime(h.client, Advance(k, c, i, h.client), before + h.sent)
            && HeldFourTicks(k, before, i, h.sent)
  {
    match i
    case FromTrainer(m) =>
      if c.connected { TrainerOnTime(c, k, before, m); } else { assert before + [] == before; }
    case FromServer(p, feetY) => PacketOnTime(c, k, before, p, feetY);
    case TickStarts => StartTickOnTime(c, k, before);
    case TickEnds(feetY) => EndTickOnTime(c, k, before, feetY);
    case TrainerConnected(session, nonce, uuid, name) => assert before + [] == before;
    case TrainerConnectedEarly => assert before + [] == before;
    case PaperJoined(session, nonce, uuid, name) => assert before + [] == before;
    case TrainerDisconnected =>
    case PaperDisconnected =>
    case FromServerGarbled =>
  }

  lemma {:induction false} CrashedHoldsNothing(
      c: Client, k: Clock, before: seq<Message>, inputs: seq<Input>)
    requires c.crashed
    ensures AlwaysHeldFourTicks(c, k, before, inputs)
    decreases |inputs|
  {
    if inputs != [] && InTurn(k, inputs[0]) {
      CrashedHoldsNothing(c, Advance(k, c, inputs[0], c), before + [], inputs[1..]);
    }
  }

  /** From every state on time, every action acknowledged later was held for exactly four ticks, and
      the observations around it lie at least four ticks apart. */
  lemma {:induction false} ActionsHeldFourTicks(
      c: Client, k: Clock, before: seq<Message>, inputs: seq<Input>)
    requires ClientInvariant(c) && !c.crashed && OnTime(c, k, before)
    ensures AlwaysHeldFourTicks(c, k, before, inputs)
    decreases |inputs|
  {
    if inputs != [] && InTurn(k, inputs[0]) {
      var h := Handle(c, inputs[0]);
      HandleKeeps(c, inputs[0]);
      if h.client.crashed {
        assert h.sent == [];
        CrashedHoldsNothing(
          h.client, Advance(k, c, inputs[0], h.client), before + h.sent, inputs[1..]);
      } else {
        HandleOnTime(c, k, before, inputs[0]);
        ActionsHeldFourTicks(
          h.client, Advance(k, c, inputs[0], h.client), before + h.sent, inputs[1..]);
      }
    }
  }

  /** In every run of a newly launched client, however it ends, every acknowledged action was held
      for exactly four ticks. */
  lemma EveryActionIsHeldFourTicks(inputs: seq<Input>)
    ensures AlwaysHeldFourTicks(LAUNCHED, Clock(false, 0, 0), [], inputs)
  {
    ActionsHeldFourTicks(LAUNCHED, Clock(false, 0, 0), [], inputs);
  }

  // ---------------------------------------------------------------- controls

  /** What the controls do: sprinting goes with walking forward. */
  predicate Presses(
      inputs: Inputs, forward: bool, backward: bool, left: bool, right: bool, jump: bool, attack: bool)
  {
    && (GoesForward(inputs) <==> forward) && (GoesBackward(inputs) <==> backward)
    && (GoesLeft(inputs) <==> left) && (GoesRight(inputs) <==> right)
    && (inputs.jump <==> jump) && (inputs.attack <==> attack)
  }

  /** In every run that has not crashed the controls are those of the running action: its first choice
      walks back, stands or walks forward, its second steps left, stands or steps right, its third
      jumps and its fourth attacks; and without a running action nothing is pressed. */
  lemma ControlsFollowTheAction(inputs: seq<Input>)
    ensures var c := Run(LAUNCHED, inputs);
            !c.crashed ==>
              match c.sequencer.running
              case None => Presses(c.inputs, false, false, false, false, false, false)
              case Some(a) =>
                && |a.choices| == 6
                && Presses(c.inputs, a.choices[0] == 2, a.choices[0] == 0, a.choices[1] == 0,
                           a.choices[1] == 2, a.choices[2] == 1, a.choices[3] == 1)
  {
    RunCrashesOnlyOnPoison(LAUNCHED, inputs);
  }

  // ---------------------------------------------------------------- the action deadline

  /** Ticks in which nothing else happens. */
  function QuietTicks(n: nat, feetY: real): seq<Input> {
    if n == 0 then [] else [TickStarts, TickEnds(feetY)] + QuietTicks(n - 1, feetY)
  }

  /** The client waits for an action, n ticks after its last observation. */
  predicate WaitsSince(c: Client, n: int) {
    && ClientInvariant(c) && !c.crashed && c.sequencer.phase == WaitingAction
    && c.tick - c.sequencer.observationTick == n
  }

  lemma QuietTickWaits(c: Client, n: nat, feetY: real)
    requires WaitsSince(c, n) && n < 200
    ensures var d := StartTick(c).client;
            && StartTick(c).sent == [] && EndTick(d, feetY).sent == [] && !d.crashed
            && EndTick(d, feetY).client == c.(tick := c.tick + 1)
  {
  }

  /** A client that waits for its action does nothing for the 200 ticks after its observation. */
  lemma {:induction false} QuietUntilTheDeadline(c: Client, n: nat, k: nat, feetY: real)
    requires WaitsSince(c, n) && n + k <= 200
    ensures Run(c, QuietTicks(k, feetY)) == c.(tick := c.tick + k)
    ensures WaitsSince(Run(c, QuietTicks(k, feetY)), n + k)
    decreases k
  {
    if k > 0 {
      var rest := QuietTicks(k - 1, feetY);
      var inputs := QuietTicks(k, feetY);
      QuietTickWaits(c, n, feetY);
      assert inputs[0] == TickStarts && inputs[1..] == [TickEnds(feetY)] + rest;
      assert inputs[1..][0] == TickEnds(feetY) && inputs[1..][1..] == rest;
      var d := StartTick(c).client;
      assert Run(c, inputs) == Run(d, inputs[1..]) == Run(EndTick(d, feetY).client, rest);
      QuietUntilTheDeadline(c.(tick := c.tick + 1), n + 1, k - 1, feetY);
    }
  }

  /** Left without an action, a client fails at the start of exactly the 201st tick after its last
      observation, and tells the trainer which episode it gave up. */
  lemma DeadlineEndsTheWait(c: Client, n: nat, feetY: real)
    requires WaitsSince(c, n) && n <= 200
    ensures var d := Run(c, QuietTicks(200 - n, feetY));
            && d == c.(tick := c.sequencer.observationTick + 200)
            && StartTick(d).sent
               == [ToTheTrainer(ErrorMessage(ActionTimeout, false, c.sequencer.active))]
            && StartTick(d).client.sequencer.active.None?
  {
    QuietUntilTheDeadline(c, n, 200 - n, feetY);
  }
}
