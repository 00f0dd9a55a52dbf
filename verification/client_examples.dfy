/** Promises that fail on packets the parser lets through, each with the run that shows it. */
module ClientExamples {
  import opened Common
  import opened Packets
  import opened WireMessages
  import opened SequencerSpec
  import opened ClientSpec
  import opened ClientInvariants
  import opened ConnectionSpec
  import opened ClientEffects
  import opened ClientTraces
  import opened ClientArms

  function ExamplePacket(phase: ServerPhase, playerActive: bool): Packet {
    Packet(1, true, playerActive, phase, Some(Up), Some(100), Some(2), Some(2), Some(60), None, None,
           None)
  }

  /** A round the player of uuid "u" won. */
  const EXAMPLE_WIN := Packet(
    1, false, false, RoundComplete, None, None, None, None, None, Some(VerdictWin), Some(Won),
    Some("u"))

  /** The same ending with a draw for a verdict, which parsing lets through. */
  const EXAMPLE_MUDDLE := EXAMPLE_WIN.(result := Some(VerdictDraw), winnerUuid := None)

  /** A draw whose packet names a direction and counts `active` of `total` players. */
  function ExampleDraw(active: int, total: int): Packet {
    Packet(1, false, false, RoundComplete, Some(Up), Some(100), Some(active), Some(total), None,
           Some(VerdictDraw), Some(Draw), None)
  }

  const EXAMPLE_ARM := Arm(PROTOCOL_VERSION, 1, "s", 1, 0, 0)

  lemma ExampleParses()
    ensures Parsed(EXAMPLE_WIN) && Parsed(EXAMPLE_MUDDLE)
  {
    assert EXAMPLE_WIN.winnerUuid.value[0] == 'u';
  }

  const EXAMPLE_ARRIVAL := TrainerConnected("s", "n", "u", "player")
  const EXAMPLE_ARMING := FromTrainer(Envelope(PROTOCOL_VERSION, ArmEpisode(EXAMPLE_ARM)))
  const EXAMPLE_COUNT := FromServer(ExamplePacket(LockedCountdown, true), 64.0)
  const EXAMPLE_START := FromServer(ExamplePacket(Active, true), 64.0)

  lemma {:induction false} RunAppends(c: Client, inputs: seq<Input>, i: Input)
    ensures Run(c, inputs + [i]) == Handle(Run(c, inputs), i).client
    decreases |inputs|
  {
    if inputs == [] {
      assert (inputs + [i])[0] == i && (inputs + [i])[1..] == [];
    } else {
      RunAppends(Handle(c, inputs[0]).client, inputs[1..], i);
      assert (inputs + [i])[1..] == inputs[1..] + [i];
    }
  }

  lemma ExampleGreeted() returns (c: Client)
    ensures c == Run(LAUNCHED, [] + [EXAMPLE_ARRIVAL])
    ensures ClientInvariant(c) && !c.crashed && c.connected && c.sequencer.session == "s"
    ensures c.sequencer == StartSession(LAUNCHED.sequencer, "s")
  {
    RunAppends(LAUNCHED, [], EXAMPLE_ARRIVAL);
    c := Handle(LAUNCHED, EXAMPLE_ARRIVAL).client;
    HandleKeeps(LAUNCHED, EXAMPLE_ARRIVAL);
  }

  lemma ExampleArmed() returns (c: Client)
    ensures c == Run(LAUNCHED, [] + [EXAMPLE_ARRIVAL] + [EXAMPLE_ARMING])
    ensures ClientInvariant(c) && !c.crashed && c.connected
    ensures c.sequencer.session == "s" && c.sequencer.pending == Some(EXAMPLE_ARM)
    ensures c.sequencer.active.None? && c.sequencer.latest.None? && !c.sequencer.skipUntilInactive
  {
    var greeted := ExampleGreeted();
    RunAppends(LAUNCHED, [] + [EXAMPLE_ARRIVAL], EXAMPLE_ARMING);
    c := Handle(greeted, EXAMPLE_ARMING).client;
    HandleKeeps(greeted, EXAMPLE_ARMING);
  }

  lemma ExampleCountdown() returns (c: Client)
    ensures c == Run(LAUNCHED, [] + [EXAMPLE_ARRIVAL] + [EXAMPLE_ARMING] + [EXAMPLE_COUNT])
    ensures ClientInvariant(c) && !c.crashed && c.connected
    ensures c.sequencer.session == "s" && c.sequencer.pending == Some(EXAMPLE_ARM)
    ensures c.sequencer.active.None? && c.sequencer.countdownSeen && !c.sequencer.skipUntilInactive
    ensures LatestPhase(c.sequencer) == Some(LockedCountdown)
  {
    var armed := ExampleArmed();
    RunAppends(LAUNCHED, [] + [EXAMPLE_ARRIVAL] + [EXAMPLE_ARMING], EXAMPLE_COUNT);
    c := Handle(armed, EXAMPLE_COUNT).client;
    HandleKeeps(armed, EXAMPLE_COUNT);
  }

  /** A client in the middle of its first episode, reached from its launch. */
  lemma ExampleEpisode() returns (c: Client, inputs: seq<Input>)
    ensures c == Run(LAUNCHED, inputs) && ClientInvariant(c) && !c.crashed && c.connected
    ensures Live(c.sequencer) && c.sequencer.session == "s" && c.sequencer.totalPlayers == 2
    ensures LatestPhase(c.sequencer) == Some(Active)
  {
    var counting := ExampleCountdown();
    inputs := [] + [EXAMPLE_ARRIVAL] + [EXAMPLE_ARMING] + [EXAMPLE_COUNT] + [EXAMPLE_START];
    RunAppends(LAUNCHED, [] + [EXAMPLE_ARRIVAL] + [EXAMPLE_ARMING] + [EXAMPLE_COUNT], EXAMPLE_START);
    c := Handle(counting, EXAMPLE_START).client;
    HandleKeeps(counting, EXAMPLE_START);
  }

  /** Not every result a client builds is one the trainer accepts. */
  lemma ResultCanBeInvalid()
    ensures exists c, inputs ::
              c == Run(LAUNCHED, inputs) && Live(c.sequencer)
              && var sent := ReceiveYRush(c, EXAMPLE_MUDDLE, 64.0).sent;
                 |sent| == 2 && sent[1].payload.EpisodeResultMessage?
                 && !ValidResult(sent[1].payload.result)
  {
    var c, inputs := ExampleEpisode();
    ExampleParses();
    ResultValidity(c, EXAMPLE_MUDDLE, 64.0);
  }

  /** Nor when outcome and verdict fit: nobody took part, by this packet's count. */
  lemma EmptyRoundIsRefused()
    ensures Parsed(ExampleDraw(0, 0)) && OutcomeFitsVerdict(ExampleDraw(0, 0))
    ensures exists c, inputs ::
              c == Run(LAUNCHED, inputs) && Live(c.sequencer)
              && var sent := ReceiveYRush(c, ExampleDraw(0, 0), 64.0).sent;
                 |sent| == 2 && sent[1].payload.EpisodeResultMessage?
                 && !ValidResult(sent[1].payload.result)
  {
    var c, inputs := ExampleEpisode();
    ResultValidity(c, ExampleDraw(0, 0), 64.0);
  }

  /** More active players than there are make the trainer refuse the final observation, though the
      result after it is valid. */
  lemma CrowdedRoundIsRefused()
    ensures Parsed(ExampleDraw(5, 2)) && OutcomeFitsVerdict(ExampleDraw(5, 2))
    ensures exists c, inputs ::
              c == Run(LAUNCHED, inputs) && Live(c.sequencer)
              && var sent := ReceiveYRush(c, ExampleDraw(5, 2), 64.0).sent;
                 |sent| == 2 && sent[0].payload.ObservationMessage?
                 && sent[1].payload.EpisodeResultMessage?
                 && !ValidObservation(sent[0].payload.observed)
                 && ValidResult(sent[1].payload.result)
  {
    var c, inputs := ExampleEpisode();
    ResultValidity(c, ExampleDraw(5, 2), 64.0);
  }

  /** A server that repeats a won ROUND_COMPLETE makes the client abort and lose its episode. */
  lemma RepetitionCanAbort()
    ensures exists c, inputs ::
              c == Run(LAUNCHED, inputs) && Live(c.sequencer)
              && var ended := ReceiveYRush(c, EXAMPLE_WIN, 64.0).client;
                 ReceiveYRush(ended, EXAMPLE_WIN, 64.0).sent != []
                 && ReceiveYRush(ended, EXAMPLE_WIN, 64.0).client.sequencer.active.None?
  {
    var c, inputs := ExampleEpisode();
    ExampleParses();
    ReceiveYRushKeeps(c, EXAMPLE_WIN, 64.0);
    ReceiveKeeps(c.sequencer, EXAMPLE_WIN, c.tick);
    var step := Receive(c.sequencer, EXAMPLE_WIN, c.tick);
    FinishEpisodeEffect(c.(sequencer := step.next), 64.0);
    var ended := ReceiveYRush(c, EXAMPLE_WIN, 64.0).client;
    RepeatedCompletion(ended, EXAMPLE_WIN, 64.0);
  }

  /** An INACTIVE packet that names a direction and omits its target and counts. */
  const EXAMPLE_POISON := Packet(
    1, false, false, Inactive, Some(Up), None, None, None, None, None, None, None)

  /** A server packet that passes parsing crashes a newly launched client. */
  lemma CountlessPacketCrashes()
    ensures Parsed(EXAMPLE_POISON)
    ensures Run(LAUNCHED, [] + [FromServer(EXAMPLE_POISON, 64.0)]).crashed
  {
    RunAppends(LAUNCHED, [], FromServer(EXAMPLE_POISON, 64.0));
  }

  /** A client greeted in the middle of somebody's round. */
  lemma ExampleSkipping() returns (c: Client)
    ensures c == Run(LAUNCHED, [] + [EXAMPLE_ARRIVAL] + [EXAMPLE_START])
    ensures ClientInvariant(c) && !c.crashed && c.connected
    ensures c.sequencer.session == "s" && c.sequencer.active.None? && c.sequencer.pending.None?
    ensures c.sequencer.skipUntilInactive && LatestPhase(c.sequencer) == Some(Active)
  {
    var greeted := ExampleGreeted();
    RunAppends(LAUNCHED, [] + [EXAMPLE_ARRIVAL], EXAMPLE_START);
    c := Handle(greeted, EXAMPLE_START).client;
    HandleKeeps(greeted, EXAMPLE_START);
  }

  /** The server breaks that round off with a countdown. */
  lemma ExampleBrokenOff() returns (c: Client, inputs: seq<Input>)
    ensures c == Run(LAUNCHED, inputs) && ClientInvariant(c) && !c.crashed && c.connected
    ensures c.sequencer.session == "s" && c.sequencer.pending.None?
    ensures PreviousRound(c.sequencer) == 0 && c.sequencer.skipUntilInactive
    ensures LatestPhase(c.sequencer) == Some(LockedCountdown)
  {
    var skipping := ExampleSkipping();
    inputs := [] + [EXAMPLE_ARRIVAL] + [EXAMPLE_START] + [EXAMPLE_COUNT];
    RunAppends(LAUNCHED, [] + [EXAMPLE_ARRIVAL] + [EXAMPLE_START], EXAMPLE_COUNT);
    c := Handle(skipping, EXAMPLE_COUNT).client;
    HandleKeeps(skipping, EXAMPLE_COUNT);
  }

  /** An arm accepted during a countdown can miss that countdown's round. */
  lemma ArmCanMissItsCountdown()
    ensures exists c, inputs ::
              c == Run(LAUNCHED, inputs) && LatestPhase(c.sequencer) == Some(LockedCountdown)
              && ReceiveTrainer(c, EXAMPLE_ARMING.message).client.sequencer.pending == Some(EXAMPLE_ARM)
              && !StartsArm(Trace(c, [EXAMPLE_ARMING, EXAMPLE_START])[1], EXAMPLE_ARM)
  {
    var c, inputs := ExampleBrokenOff();
    var active := ExamplePacket(Active, true);
    ArmedInCountdown(c, EXAMPLE_ARM);
    ArmStartsInItsCountdown(c, EXAMPLE_ARM, [], active, 64.0);
    assert [EXAMPLE_ARMING] + AsInputs([] + [active], 64.0) == [EXAMPLE_ARMING, EXAMPLE_START];
  }
}
