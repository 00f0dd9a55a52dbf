/** Whole runs of the client, judged by what an onlooker sees: the inputs and the messages sent. */
module ClientTraces {
  import opened Common
  import opened Packets
  import opened WireMessages
  import opened SequencerSpec
  import opened ClientSpec
  import opened ClientInvariants

  datatype Entry = Entry(input: Input, sent: seq<Message>)

  function Trace(c: Client, inputs: seq<Input>): (trace: seq<Entry>)
    ensures |trace| == |inputs|
    decreases |inputs|
  {
    if inputs == [] then []
    else
      var h := Handle(c, inputs[0]);
      [Entry(inputs[0], h.sent)] + Trace(h.client, inputs[1..])
  }

  predicate NoPoison(inputs: seq<Input>) {
    forall k :: 0 <= k < |inputs| ==> !Poison(inputs[k])
  }

  /** What one entry announces. */
  datatype Mark = Started(round: int) | Ended(round: int) | Lull | Reset | Quiet

  predicate SendsError(sent: seq<Message>) {
    exists k :: 0 <= k < |sent| && sent[k].payload.ErrorMessage?
  }

  /** Errors, disconnections, shutdowns and new sessions all forget the current round. */
  predicate Resets(e: Entry) {
    || SendsError(e.sent)
    || ((e.input.TrainerConnected? || e.input.PaperJoined?) && e.sent != [])
    || e.input.TrainerDisconnected? || e.input.PaperDisconnected?
    || (e.input.FromTrainer? && e.input.message.payload.Shutdown?)
  }

  predicate NoResets(trace: seq<Entry>) {
    forall k :: 0 <= k < |trace| ==> !Resets(trace[k])
  }

  function MarkOf(e: Entry): Mark {
    if Resets(e) then Reset
    else if e.sent != [] && e.sent[0].payload.EpisodeReadyMessage? then
      Started(e.sent[0].payload.ready.round)
    else if e.sent != [] && e.sent[|e.sent| - 1].payload.EpisodeResultMessage? then
      Ended(e.sent[|e.sent| - 1].payload.result.round)
    else if e.input.FromServer? && e.input.packet.phase.Inactive? then Lull
    else Quiet
  }

  /** Where a client stands: between episodes after `last`, in an episode, or waiting for INACTIVE
      after one. */
  datatype Stage = Open(last: int) | InEpisode(round: int) | Finished(round: int)

  function StageOf(s: Sequencer): Stage {
    if Live(s) then InEpisode(s.active.value.round)
    else if s.active.Some? then Finished(s.active.value.round)
    else Open(PreviousRound(s))
  }

  /** The stage a mark leads to; None when the mark is out of order. */
  function Follow(stage: Stage, mark: Mark): Option<Stage> {
    match (stage, mark)
    case (_, Reset) => Some(Open(0))
    case (_, Quiet) => Some(stage)
    case (Open(last), Started(round)) => if last < round then Some(InEpisode(round)) else None
    case (InEpisode(round), Ended(ended)) => if round == ended then Some(Finished(round)) else None
    case (Finished(round), Lull) => Some(Open(round))
    case (Open(_), Lull) => Some(stage)
    case _ => None
  }

  /** What the handler announces leads from the client's stage to its next. */
  predicate Follows(c: Client, i: Input, h: Handled) {
    Follow(StageOf(c.sequencer), MarkOf(Entry(i, h.sent))) == Some(StageOf(h.client.sequencer))
  }

  /** A failure is a reset, wherever the client stood. */
  lemma RefusalFollows(c: Client, i: Input, d: Client, code: ErrorCode)
    ensures Follows(c, i, Failure(d, code))
  {
    FailureFollows(d, i, code);
  }

  /** Sending nothing and announcing nothing keeps the stage. */
  lemma QuietKeepsStage(c: Client, i: Input, d: Client)
    requires MarkOf(Entry(i, [])) == Quiet && StageOf(d.sequencer) == StageOf(c.sequencer)
    ensures Follows(c, i, Handled(d, []))
  {
  }

  lemma FailureFollows(c: Client, i: Input, code: ErrorCode)
    ensures MarkOf(Entry(i, Failure(c, code).sent)) == Reset
    ensures StageOf(Failure(c, code).client.sequencer) == Open(0)
  {
  }

  lemma PacketFollows(c: Client, p: Packet, feetY: real)
    requires ClientInvariant(c) && !c.crashed && !Poison(FromServer(p, feetY))
    ensures Follows(c, FromServer(p, feetY), ReceiveYRush(c, p, feetY))
  {
    var i := FromServer(p, feetY);
    if !Parsed(p) {
      RefusalFollows(c, i, c, ParseError(p).value);
    } else {
      var step := Receive(c.sequencer, p, c.tick);
      ReceiveKeeps(c.sequencer, p, c.tick);
      ReplyFollows(c, p, feetY, step);
    }
  }

  lemma ReplyFollows(c: Client, p: Packet, feetY: real, step: Step<Event>)
    requires ClientInvariant(c) && GoodReceive(c.sequencer, p, c.tick, step) && Parsed(p)
    ensures Follows(c, FromServer(p, feetY), AfterPacket(c, p, feetY, step))
  {
    if step.reply.Violation? {
      RefusalFollows(c, FromServer(p, feetY), c.(sequencer := step.next), step.reply.code);
    } else {
      EventFollows(c, p, feetY, step);
    }
  }

  lemma StartFollows(c: Client, p: Packet, feetY: real, next: Sequencer)
    requires ClientInvariant(c) && SequencerInvariant(next)
    requires StartsEpisode(c.sequencer, next, p, c.tick)
    ensures Follows(c, FromServer(p, feetY), BeginEpisode(c.(sequencer := next), feetY))
  {
    BeginEpisodeEffect(c.(sequencer := next), feetY);
  }

  lemma EndFollows(c: Client, p: Packet, feetY: real, next: Sequencer)
    requires ClientInvariant(c) && SequencerInvariant(next) && EndsEpisode(c.sequencer, next)
    ensures Follows(c, FromServer(p, feetY), FinishEpisode(c.(sequencer := next), feetY))
  {
    FinishEpisodeEffect(c.(sequencer := next), feetY);
  }

  lemma QuietFollows(s: Sequencer, p: Packet, i: Input)
    requires Live(s) && LatestPhase(s) == Some(Active) && p.playerActive && Parsed(p)
    requires i.FromServer? && i.packet == p && SequencerInvariant(Record(s, p))
    ensures Follow(StageOf(s), MarkOf(Entry(i, []))) == Some(StageOf(Record(s, p)))
  {
  }

  lemma EventFollows(c: Client, p: Packet, feetY: real, step: Step<Event>)
    requires ClientInvariant(c) && GoodReceive(c.sequencer, p, c.tick, step) && step.reply.Ok?
    requires Parsed(p)
    ensures Follows(c, FromServer(p, feetY), AfterPacket(c, p, feetY, step))
  {
    var i := FromServer(p, feetY);
    match step.reply.value
    case EpisodeStarted => StartFollows(c, p, feetY, step.next);
    case PlayerEliminated => EndFollows(c, p, feetY, step.next);
    case RoundCompleted => EndFollows(c, p, feetY, step.next);
    case Cleaned => RestFollows(c.sequencer, step.next, p, i);
    case NoEvent =>
      if Live(c.sequencer) {
        QuietFollows(c.sequencer, p, i);
      } else {
        RestFollows(c.sequencer, step.next, p, i);
      }
  }

  lemma RestFollows(s: Sequencer, next: Sequencer, p: Packet, i: Input)
    requires SequencerInvariant(s) && SequencerInvariant(next) && Rests(s, next, p)
    requires i.FromServer? && i.packet == p
    ensures Follow(StageOf(s), MarkOf(Entry(i, []))) == Some(StageOf(next))
  {
  }

  lemma SameStage(s: Sequencer, next: Sequencer)
    requires SameEpisodes(s, next)
    ensures StageOf(next) == StageOf(s)
  {
  }

  lemma ArmFollows(c: Client, arm: Arm, i: Input)
    requires ClientInvariant(c) && i.FromTrainer? && i.message.payload == ArmEpisode(arm)
    ensures Follows(c, i, Settle(Release(c), ArmNext(c.sequencer, arm)))
  {
    var step := ArmNext(c.sequencer, arm);
    ArmKeeps(c.sequencer, arm);
    if step.reply.Violation? {
      RefusalFollows(c, i, Release(c).(sequencer := step.next), step.reply.code);
    } else {
      SameStage(c.sequencer, step.next);
    }
  }

  lemma QueueFollows(c: Client, a: Action, i: Input)
    requires ClientInvariant(c) && i.FromTrainer? && i.message.payload == ActionRequest(a)
    ensures Follows(c, i, Settle(c, QueueAction(c.sequencer, a)))
  {
    var step := QueueAction(c.sequencer, a);
    QueueKeeps(c.sequencer, a);
    if step.reply.Violation? {
      RefusalFollows(c, i, c.(sequencer := step.next), step.reply.code);
    } else {
      QuietKeepsStage(c, i, c.(sequencer := step.next));
    }
  }

  lemma TrainerFollows(c: Client, m: Envelope<ToClient>)
    requires ClientInvariant(c) && !c.crashed && c.connected
    ensures Follows(c, FromTrainer(m), ReceiveTrainer(c, m))
  {
    var i := FromTrainer(m);
    if m.version != PROTOCOL_VERSION {
      RefusalFollows(c, i, c, VersionMismatch);
    } else {
      match m.payload
      case ArmEpisode(arm) => ArmFollows(c, arm, i);
      case ActionRequest(action) => QueueFollows(c, action, i);
      case Shutdown =>
      case NotForClient => RefusalFollows(c, i, c, InvalidMessage);
    }
  }

  lemma StartTickFollows(c: Client)
    requires ClientInvariant(c) && !c.crashed
    ensures Follows(c, TickStarts, StartTick(c))
  {
    var d := c.(tick := c.tick + 1);
    if ActionTimedOut(d.sequencer, d.tick) {
      RefusalFollows(c, TickStarts, d, ActionTimeout);
    } else {
      QuietKeepsStage(c, TickStarts, StartTick(c).client);
    }
  }

  lemma EndTickFollows(c: Client, feetY: real)
    requires ClientInvariant(c) && !c.crashed
    ensures Follows(c, TickEnds(feetY), EndTick(c, feetY))
  {
  }

  lemma HandleFollows(c: Client, i: Input)
    requires ClientInvariant(c) && !c.crashed && !Poison(i)
    ensures Follows(c, i, Handle(c, i))
  {
    match i
    case FromTrainer(m) => if c.connected { TrainerFollows(c, m); }
    case FromServer(p, feetY) => PacketFollows(c, p, feetY);
    case TickStarts => StartTickFollows(c);
    case TickEnds(feetY) => EndTickFollows(c, feetY);
    case TrainerConnected(session, nonce, uuid, name) =>
    case TrainerConnectedEarly =>
    case PaperJoined(session, nonce, uuid, name) =>
    case TrainerDisconnected =>
    case FromServerGarbled => RefusalFollows(c, i, c, InvalidMessage);
    case PaperDisconnected => assert Handle(c, i).sent[0].payload.ErrorMessage?;
  }

  function Marks(trace: seq<Entry>): (marks: seq<Mark>)
    ensures |marks| == |trace|
    ensures forall k :: 0 <= k < |trace| ==> marks[k] == MarkOf(trace[k])
  {
    seq(|trace|, k requires 0 <= k < |trace| => MarkOf(trace[k]))
  }

  /** `stages` is the walk of the marks through Follow. */
  ghost predicate Walk(marks: seq<Mark>, stages: seq<Stage>) {
    && |stages| == |marks| + 1
    && forall k :: 0 <= k < |marks| ==> Follow(stages[k], marks[k]) == Some(stages[k + 1])
  }

  lemma MarksOfRun(c: Client, inputs: seq<Input>)
    requires inputs != []
    ensures var h := Handle(c, inputs[0]);
            Marks(Trace(c, inputs))
            == [MarkOf(Entry(inputs[0], h.sent))] + Marks(Trace(h.client, inputs[1..]))
  {
  }

  predicate StartOrEnd(m: Mark) {
    m.Started? || m.Ended?
  }

  /** The first n marks walk through `stages`; the others start and end nothing. */
  ghost predicate WalkThenSilence(marks: seq<Mark>, n: nat, stages: seq<Stage>) {
    && n <= |marks| && Walk(marks[..n], stages)
    && forall k :: n <= k < |marks| ==> !StartOrEnd(marks[k])
  }

  lemma WalkFrom(mark: Mark, marks: seq<Mark>, n: nat, stage: Stage, stages: seq<Stage>)
    requires WalkThenSilence(marks, n, stages) && Follow(stage, mark) == Some(stages[0])
    ensures WalkThenSilence([mark] + marks, n + 1, [stage] + stages)
  {
    assert ([mark] + marks)[..n + 1] == [mark] + marks[..n];
  }

  lemma {:induction false} CrashedIsSilent(c: Client, inputs: seq<Input>)
    requires c.crashed
    ensures forall k :: 0 <= k < |inputs| ==> !StartOrEnd(Marks(Trace(c, inputs))[k])
    decreases |inputs|
  {
    if inputs != [] {
      CrashedIsSilent(c, inputs[1..]);
      MarksOfRun(c, inputs);
    }
  }

  /** A run walks through its stages until it crashes, if it does; from then on it is silent. */
  lemma {:induction false} TraceWalks(c: Client, inputs: seq<Input>)
    returns (n: nat, stages: seq<Stage>)
    requires ClientInvariant(c) && !c.crashed
    ensures WalkThenSilence(Marks(Trace(c, inputs)), n, stages)
    ensures stages[0] == StageOf(c.sequencer)
    decreases |inputs|
  {
    n, stages := 0, [StageOf(c.sequencer)];
    if inputs != [] {
      var i := inputs[0];
      var h := Handle(c, i);
      HandleKeeps(c, i);
      MarksOfRun(c, inputs);
      if Poison(i) {
        assert h.sent == [];
        CrashedIsSilent(h.client, inputs[1..]);
      } else {
        HandleFollows(c, i);
        n, stages := TraceWalks(h.client, inputs[1..]);
        WalkFrom(MarkOf(Entry(i, h.sent)), Marks(Trace(h.client, inputs[1..])), n,
                 StageOf(c.sequencer), stages);
        n, stages := n + 1, [StageOf(c.sequencer)] + stages;
      }
    }
  }

  predicate Unbroken(marks: seq<Mark>, from: nat, to: nat) {
    to <= |marks| && forall k :: from <= k < to ==> marks[k] != Reset
  }

  function Level(stage: Stage): int {
    match stage case Open(last) => last case InEpisode(round) => round case Finished(round) => round
  }

  lemma {:induction false} LevelsRise(marks: seq<Mark>, stages: seq<Stage>, from: nat, to: nat)
    requires Walk(marks, stages) && from <= to <= |marks| && Unbroken(marks, from, to)
    ensures Level(stages[from]) <= Level(stages[to])
    decreases |marks| - from
  {
    if from < to {
      assert Follow(stages[from], marks[from]) == Some(stages[from + 1]);
      LevelsRise(marks, stages, from + 1, to);
    }
  }

  lemma {:induction false} LullAfterFinish(
      marks: seq<Mark>, stages: seq<Stage>, from: nat, to: nat) returns (lull: nat)
    requires Walk(marks, stages) && from <= to <= |marks| && Unbroken(marks, from, to)
    requires stages[from].Finished? && !stages[to].Finished?
    ensures from <= lull < to && marks[lull] == Lull
    decreases |marks| - from
  {
    assert from < to;
    assert Follow(stages[from], marks[from]) == Some(stages[from + 1]);
    if marks[from] == Lull { lull := from; }
    else { lull := LullAfterFinish(marks, stages, from + 1, to); }
  }

  lemma {:induction false} EndAfterStart(
      marks: seq<Mark>, stages: seq<Stage>, from: nat, to: nat) returns (end: nat, lull: nat)
    requires Walk(marks, stages) && from <= to <= |marks| && Unbroken(marks, from, to)
    requires stages[from].InEpisode? && stages[to].Open?
    ensures from <= end < lull < to
    ensures marks[end] == Ended(stages[from].round) && marks[lull] == Lull
    decreases |marks| - from
  {
    assert from < to;
    assert Follow(stages[from], marks[from]) == Some(stages[from + 1]);
    if marks[from].Ended? {
      end := from;
      lull := LullAfterFinish(marks, stages, from + 1, to);
    } else {
      end, lull := EndAfterStart(marks, stages, from + 1, to);
    }
  }

  lemma {:induction false} StartBeforeEnd(marks: seq<Mark>, stages: seq<Stage>, at: nat)
    returns (start: nat)
    requires Walk(marks, stages) && at <= |marks|
    requires stages[at].InEpisode? && !stages[0].InEpisode?
    ensures start < at && marks[start] == Started(stages[at].round)
    ensures forall k :: start < k < at ==> marks[k] == Quiet
  {
    assert at > 0;
    assert Follow(stages[at - 1], marks[at - 1]) == Some(stages[at]);
    if marks[at - 1].Started? { start := at - 1; }
    else { start := StartBeforeEnd(marks, stages, at - 1); }
  }

  /** Of two starts with no reset between them, the first episode ended and an INACTIVE packet
      came before the second, whose round is larger. */
  ghost predicate StartsAlternate(marks: seq<Mark>) {
    forall i, j :: 0 <= i < j < |marks| && marks[i].Started? && marks[j].Started?
                   && Unbroken(marks, i, j) ==>
      && marks[i].round < marks[j].round
      && exists end, lull :: i < end < lull < j && marks[end] == Ended(marks[i].round)
                             && marks[lull] == Lull
  }

  /** Every end closes the start just before it: nothing happens in between, so no episode ends
      twice. */
  ghost predicate EndsMatch(marks: seq<Mark>) {
    forall j :: 0 <= j < |marks| && marks[j].Ended? ==>
      exists i :: 0 <= i < j && marks[i] == Started(marks[j].round)
                  && forall k :: i < k < j ==> marks[k] == Quiet
  }

  lemma WalkStartsAlternate(marks: seq<Mark>, stages: seq<Stage>)
    requires Walk(marks, stages)
    ensures StartsAlternate(marks)
  {
    forall i, j | 0 <= i < j < |marks| && marks[i].Started? && marks[j].Started?
                  && Unbroken(marks, i, j)
      ensures marks[i].round < marks[j].round
      ensures exists end, lull :: i < end < lull < j && marks[end] == Ended(marks[i].round)
                                  && marks[lull] == Lull
    {
      assert Follow(stages[i], marks[i]) == Some(stages[i + 1]);
      assert Follow(stages[j], marks[j]) == Some(stages[j + 1]);
      LevelsRise(marks, stages, i + 1, j);
      var end, lull := EndAfterStart(marks, stages, i + 1, j);
    }
  }

  lemma WalkEndsMatch(marks: seq<Mark>, stages: seq<Stage>)
    requires Walk(marks, stages) && !stages[0].InEpisode?
    ensures EndsMatch(marks)
  {
    forall j | 0 <= j < |marks| && marks[j].Ended?
      ensures exists i :: 0 <= i < j && marks[i] == Started(marks[j].round)
                          && forall k :: i < k < j ==> marks[k] == Quiet
    {
      assert Follow(stages[j], marks[j]) == Some(stages[j + 1]);
      var i := StartBeforeEnd(marks, stages, j);
    }
  }

  /** Marks that neither start nor end anything can be added at the end. */
  lemma QuietTail(marks: seq<Mark>, n: nat)
    requires n <= |marks| && StartsAlternate(marks[..n]) && EndsMatch(marks[..n])
    requires forall k :: n <= k < |marks| ==> !StartOrEnd(marks[k])
    ensures StartsAlternate(marks) && EndsMatch(marks)
  {
    var front := marks[..n];
    forall i, j | 0 <= i < j < |marks| && marks[i].Started? && marks[j].Started?
                  && Unbroken(marks, i, j)
      ensures marks[i].round < marks[j].round
      ensures exists end, lull :: i < end < lull < j && marks[end] == Ended(marks[i].round)
                                  && marks[lull] == Lull
    {
      assert StartOrEnd(marks[i]) && StartOrEnd(marks[j]);
      assert front[i].Started? && front[j].Started? && Unbroken(front, i, j);
      var end, lull :| i < end < lull < j && front[end] == Ended(front[i].round) && front[lull] == Lull;
      assert marks[end] == Ended(marks[i].round) && marks[lull] == Lull;
    }
    forall j | 0 <= j < |marks| && marks[j].Ended?
      ensures exists i :: 0 <= i < j && marks[i] == Started(marks[j].round)
                          && forall k :: i < k < j ==> marks[k] == Quiet
    {
      assert StartOrEnd(marks[j]) && front[j].Ended?;
      var i :| 0 <= i < j && front[i] == Started(front[j].round)
               && forall k :: i < k < j ==> front[k] == Quiet;
      assert forall k :: i < k < j ==> marks[k] == front[k];
    }
  }

  /** In every run of a newly launched client, starts and ends alternate, also in one that crashes. */
  lemma EpisodesAlternate(inputs: seq<Input>)
    ensures StartsAlternate(Marks(Trace(LAUNCHED, inputs)))
    ensures EndsMatch(Marks(Trace(LAUNCHED, inputs)))
  {
    var n, stages := TraceWalks(LAUNCHED, inputs);
    var marks := Marks(Trace(LAUNCHED, inputs));
    WalkStartsAlternate(marks[..n], stages);
    WalkEndsMatch(marks[..n], stages);
    QuietTail(marks, n);
  }
}
