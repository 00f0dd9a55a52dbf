/** Exactly-once actions: which action numbers a client accepts and acknowledges, round by round. */
module ClientActions {
  import opened Common
  import opened Packets
  import opened WireMessages
  import opened SequencerSpec
  import opened ClientSpec
  import opened ClientInvariants
  import opened ClientTraces

  datatype Numbered = Numbered(round: int, number: int)

  /** The action request this entry accepted. */
  function AcceptedBy(e: Entry): Option<Numbered> {
    if e.input.FromTrainer? && e.input.message.payload.ActionRequest? && !Resets(e) then
      Some(Numbered(e.input.message.payload.action.round, e.input.message.payload.action.number))
    else None
  }

  /** The action this entry acknowledged. */
  function AcknowledgedBy(e: Entry): Option<Numbered> {
    if e.sent != [] && e.sent[0].payload.ActionAppliedMessage? then
      Some(Numbered(e.sent[0].payload.applied.round, e.sent[0].payload.applied.number))
    else None
  }

  function Of(n: Option<Numbered>, round: int): seq<int> {
    if n.Some? && n.value.round == round then [n.value.number] else []
  }

  /** One round's numbers, in order. */
  function Numbers(ns: seq<Option<Numbered>>, round: int): seq<int> {
    if ns == [] then [] else Of(ns[0], round) + Numbers(ns[1..], round)
  }

  function Accepted(trace: seq<Entry>): seq<Option<Numbered>> {
    seq(|trace|, k requires 0 <= k < |trace| => AcceptedBy(trace[k]))
  }

  function Acknowledged(trace: seq<Entry>): seq<Option<Numbered>> {
    seq(|trace|, k requires 0 <= k < |trace| => AcknowledgedBy(trace[k]))
  }

  /** from+1, from+2, ..., from+count */
  function Consecutive(from: int, count: nat): seq<int> {
    seq(count, k requires 0 <= k < count => from + 1 + k)
  }

  type Tally = int -> nat

  ghost function Bump(t: Tally, n: Option<Numbered>): Tally {
    if n.None? then t else (round: int) => if round == n.value.round then t(round) + 1 else t(round)
  }

  /** How many actions each round accepted and acknowledged so far, as the state shows it. */
  ghost predicate Tallied(s: Sequencer, accepted: Tally, acknowledged: Tally) {
    && (forall round: int :: acknowledged(round) <= accepted(round) <= acknowledged(round) + 1)
    && (forall round: int :: PreviousRound(s) < round ==> accepted(round) == 0)
    && (Live(s) ==>
          && acknowledged(s.active.value.round) == s.actionSequence
          && accepted(s.active.value.round)
             == s.actionSequence + if Held(s).Some? then 1 else 0)
    && (s.completed.Some? ==>
          && acknowledged(s.completed.value.round) == s.completedAction
          && accepted(s.completed.value.round)
             == s.completedAction + if s.raceConsumed then 1 else 0)
  }

  predicate Counts(t: Tally, n: Option<Numbered>) {
    n.Some? ==> n.value.number == t(n.value.round) + 1
  }

  /** One entry keeps both tallies and continues both numberings. */
  ghost predicate Tallies(c: Client, e: Entry, next: Client, accepted: Tally, acknowledged: Tally) {
    && Tallied(next.sequencer, Bump(accepted, AcceptedBy(e)), Bump(acknowledged, AcknowledgedBy(e)))
    && Counts(accepted, AcceptedBy(e)) && Counts(acknowledged, AcknowledgedBy(e))
  }

  lemma QueueTallies(c: Client, m: Envelope<ToClient>, accepted: Tally, acknowledged: Tally)
    requires ClientInvariant(c) && Tallied(c.sequencer, accepted, acknowledged)
    requires m.payload.ActionRequest? && QueueAction(c.sequencer, m.payload.action).reply.Ok?
    ensures var h := Settle(c, QueueAction(c.sequencer, m.payload.action));
            Tallies(c, Entry(FromTrainer(m), h.sent), h.client, accepted, acknowledged)
  {
    QueueKeeps(c.sequencer, m.payload.action);
  }

  lemma ArmTallies(c: Client, m: Envelope<ToClient>, accepted: Tally, acknowledged: Tally)
    requires ClientInvariant(c) && Tallied(c.sequencer, accepted, acknowledged)
    requires m.payload.ArmEpisode? && ArmNext(c.sequencer, m.payload.arm).reply.Ok?
    ensures var h := Settle(Release(c), ArmNext(c.sequencer, m.payload.arm));
            Tallies(c, Entry(FromTrainer(m), h.sent), h.client, accepted, acknowledged)
  {
    ArmKeeps(c.sequencer, m.payload.arm);
  }

  lemma TrainerTallies(c: Client, m: Envelope<ToClient>, accepted: Tally, acknowledged: Tally)
    requires ClientInvariant(c) && !c.crashed && c.connected
    requires Tallied(c.sequencer, accepted, acknowledged)
    ensures var h := ReceiveTrainer(c, m);
            !Resets(Entry(FromTrainer(m), h.sent)) ==>
              Tallies(c, Entry(FromTrainer(m), h.sent), h.client, accepted, acknowledged)
  {
    var i := FromTrainer(m);
    if m.version != PROTOCOL_VERSION {
      FailureFollows(c, i, VersionMismatch);
    } else {
      match m.payload
      case ArmEpisode(arm) =>
        ArmKeeps(c.sequencer, arm);
        var step := ArmNext(c.sequencer, arm);
        if step.reply.Violation? {
          FailureFollows(Release(c), i, step.reply.code);
        } else {
          ArmTallies(c, m, accepted, acknowledged);
        }
      case ActionRequest(action) =>
        var step := QueueAction(c.sequencer, action);
        QueueKeeps(c.sequencer, action);
        if step.reply.Violation? {
          FailureFollows(c.(sequencer := step.next), i, step.reply.code);
        } else {
          QueueTallies(c, m, accepted, acknowledged);
        }
      case Shutdown =>
      case NotForClient => FailureFollows(c, i, InvalidMessage);
    }
  }

  lemma PacketTallied(s: Sequencer, next: Sequencer, p: Packet, tick: int,
                      accepted: Tally, acknowledged: Tally)
    requires SequencerInvariant(s) && SequencerInvariant(next) && Tallied(s, accepted, acknowledged)
    requires Rests(s, next, p) || StartsEpisode(s, next, p, tick) || EndsEpisode(s, next)
    ensures Tallied(next, accepted, acknowledged)
  {
  }

  lemma ObservedTallied(s: Sequencer, next: Sequencer, accepted: Tally, acknowledged: Tally)
    requires Observed(s, next) && Tallied(s, accepted, acknowledged)
    ensures Tallied(next, accepted, acknowledged)
  {
  }

  lemma StartTallies(c: Client, p: Packet, feetY: real, next: Sequencer,
                     accepted: Tally, acknowledged: Tally)
    requires ClientInvariant(c) && SequencerInvariant(next)
    requires StartsEpisode(c.sequencer, next, p, c.tick)
    requires Tallied(c.sequencer, accepted, acknowledged)
    ensures var h := BeginEpisode(c.(sequencer := next), feetY);
            Tallies(c, Entry(FromServer(p, feetY), h.sent), h.client, accepted, acknowledged)
  {
    var d := c.(sequencer := next);
    PacketTallied(c.sequencer, next, p, c.tick, accepted, acknowledged);
    BeginEpisodeEffect(d, feetY);
    ObservedTallied(next, BeginEpisode(d, feetY).client.sequencer, accepted, acknowledged);
  }

  lemma EndTallies(c: Client, p: Packet, feetY: real, next: Sequencer,
                   accepted: Tally, acknowledged: Tally)
    requires ClientInvariant(c) && SequencerInvariant(next) && EndsEpisode(c.sequencer, next)
    requires Tallied(c.sequencer, accepted, acknowledged)
    ensures var h := FinishEpisode(c.(sequencer := next), feetY);
            Tallies(c, Entry(FromServer(p, feetY), h.sent), h.client, accepted, acknowledged)
  {
    var d := c.(sequencer := next);
    PacketTallied(c.sequencer, next, p, c.tick, accepted, acknowledged);
    FinishEpisodeEffect(d, feetY);
    ObservedTallied(next, FinishEpisode(d, feetY).client.sequencer, accepted, acknowledged);
  }

  lemma QuietTallies(c: Client, p: Packet, feetY: real, next: Sequencer,
                     accepted: Tally, acknowledged: Tally)
    requires ClientInvariant(c) && SequencerInvariant(next)
    requires Rests(c.sequencer, next, p) || (Live(c.sequencer) && next == Record(c.sequencer, p))
    requires Tallied(c.sequencer, accepted, acknowledged)
    ensures var e := Entry(FromServer(p, feetY), []);
            && AcceptedBy(e).None? && AcknowledgedBy(e).None?
            && Tallied(next, accepted, acknowledged)
  {
    if Rests(c.sequencer, next, p) {
      PacketTallied(c.sequencer, next, p, c.tick, accepted, acknowledged);
    }
  }

  lemma EventTallies(
      c: Client, p: Packet, feetY: real, step: Step<Event>, accepted: Tally, acknowledged: Tally)
    requires ClientInvariant(c) && GoodReceive(c.sequencer, p, c.tick, step) && step.reply.Ok?
    requires Tallied(c.sequencer, accepted, acknowledged)
    ensures var h := AfterPacket(c, p, feetY, step);
            Tallies(c, Entry(FromServer(p, feetY), h.sent), h.client, accepted, acknowledged)
  {
    match step.reply.value
    case EpisodeStarted => StartTallies(c, p, feetY, step.next, accepted, acknowledged);
    case PlayerEliminated => EndTallies(c, p, feetY, step.next, accepted, acknowledged);
    case RoundCompleted => EndTallies(c, p, feetY, step.next, accepted, acknowledged);
    case Cleaned => QuietTallies(c, p, feetY, step.next, accepted, acknowledged);
    case NoEvent => QuietTallies(c, p, feetY, step.next, accepted, acknowledged);
  }

  lemma PacketTallies(c: Client, p: Packet, feetY: real, accepted: Tally, acknowledged: Tally)
    requires ClientInvariant(c) && !c.crashed && !Poison(FromServer(p, feetY))
    requires Tallied(c.sequencer, accepted, acknowledged)
    ensures var h := ReceiveYRush(c, p, feetY);
            !Resets(Entry(FromServer(p, feetY), h.sent)) ==>
              Tallies(c, Entry(FromServer(p, feetY), h.sent), h.client, accepted, acknowledged)
  {
    var i := FromServer(p, feetY);
    if !Parsed(p) {
      FailureFollows(c, i, ParseError(p).value);
    } else {
      ReceiveKeeps(c.sequencer, p, c.tick);
      var step := Receive(c.sequencer, p, c.tick);
      if step.reply.Violation? {
        FailureFollows(c.(sequencer := step.next), i, step.reply.code);
      } else {
        EventTallies(c, p, feetY, step, accepted, acknowledged);
      }
    }
  }

  lemma StartTickTallies(c: Client, accepted: Tally, acknowledged: Tally)
    requires ClientInvariant(c) && !c.crashed && Tallied(c.sequencer, accepted, acknowledged)
    ensures var h := StartTick(c);
            !Resets(Entry(TickStarts, h.sent)) ==>
              Tallies(c, Entry(TickStarts, h.sent), h.client, accepted, acknowledged)
  {
  }

  lemma EndTickTallies(c: Client, feetY: real, accepted: Tally, acknowledged: Tally)
    requires ClientInvariant(c) && !c.crashed && Tallied(c.sequencer, accepted, acknowledged)
    ensures var h := EndTick(c, feetY);
            Tallies(c, Entry(TickEnds(feetY), h.sent), h.client, accepted, acknowledged)
  {
    var h := EndTick(c, feetY);
    if h.sent != [] {
      assert h.sent[0].payload.ActionAppliedMessage?;
      assert NextFor(c.sequencer, c.sequencer.running.value);
    }
  }

  lemma SessionTallies(c: Client, i: Input, accepted: Tally, acknowledged: Tally)
    requires !c.crashed && c.connected && Tallied(c.sequencer, accepted, acknowledged)
    requires !i.FromTrainer? && !i.FromServer? && !i.TickStarts? && !i.TickEnds?
    ensures var h := Handle(c, i);
            !Resets(Entry(i, h.sent)) ==>
              Tallies(c, Entry(i, h.sent), h.client, accepted, acknowledged)
  {
  }

  lemma HandleTallies(c: Client, i: Input, accepted: Tally, acknowledged: Tally)
    requires ClientInvariant(c) && !c.crashed && c.connected && !Poison(i)
    requires Tallied(c.sequencer, accepted, acknowledged)
    ensures var h := Handle(c, i);
            !Resets(Entry(i, h.sent)) ==>
              Tallies(c, Entry(i, h.sent), h.client, accepted, acknowledged)
  {
    match i
    case FromTrainer(m) => TrainerTallies(c, m, accepted, acknowledged);
    case FromServer(p, feetY) => PacketTallies(c, p, feetY, accepted, acknowledged);
    case TickStarts => StartTickTallies(c, accepted, acknowledged);
    case TickEnds(feetY) => EndTickTallies(c, feetY, accepted, acknowledged);
    case _ => SessionTallies(c, i, accepted, acknowledged);
  }

  lemma StaysConnected(c: Client, i: Input)
    requires c.connected
    ensures Handle(c, i).client.connected || Resets(Entry(i, Handle(c, i).sent))
  {
  }

  /** tallies[k] counts the first k entries, and each entry's number is the next of its round. */
  ghost predicate Counting(ns: seq<Option<Numbered>>, tallies: seq<Tally>) {
    && |tallies| == |ns| + 1
    && forall k :: 0 <= k < |ns| ==>
         tallies[k + 1] == Bump(tallies[k], ns[k]) && Counts(tallies[k], ns[k])
  }

  lemma ConsecutiveExtends(before: int, n: Option<Numbered>, round: int, rest: seq<int>)
    requires n.Some? && n.value.round == round ==> n.value.number == before + 1
    requires rest == Consecutive(before + |Of(n, round)|, |rest|)
    ensures Of(n, round) + rest == Consecutive(before, |Of(n, round) + rest|)
  {
  }

  lemma {:induction false} CountingNumbers(
      ns: seq<Option<Numbered>>, tallies: seq<Tally>, round: int)
    requires Counting(ns, tallies)
    ensures Numbers(ns, round) == Consecutive(tallies[0](round), |Numbers(ns, round)|)
    ensures tallies[|ns|](round) == tallies[0](round) + |Numbers(ns, round)|
    decreases |ns|
  {
    if ns != [] {
      assert tallies[1] == Bump(tallies[0], ns[0]) && Counts(tallies[0], ns[0]);
      assert tallies[1](round) == tallies[0](round) + |Of(ns[0], round)|;
      CountingTail(ns, tallies);
      CountingNumbers(ns[1..], tallies[1..], round);
      ConsecutiveExtends(tallies[0](round), ns[0], round, Numbers(ns[1..], round));
    }
  }

  lemma CountingTail(ns: seq<Option<Numbered>>, tallies: seq<Tally>)
    requires Counting(ns, tallies) && ns != []
    ensures Counting(ns[1..], tallies[1..])
  {
  }

  /** The first step of a run, and what is left of it. */
  lemma FirstStep(c: Client, inputs: seq<Input>, accepted: Tally, acknowledged: Tally)
    returns (e: Entry, next: Client)
    requires ClientInvariant(c) && !c.crashed && c.connected && NoPoison(inputs) && inputs != []
    requires Tallied(c.sequencer, accepted, acknowledged) && NoResets(Trace(c, inputs))
    ensures Trace(c, inputs) == [e] + Trace(next, inputs[1..])
    ensures Run(c, inputs) == Run(next, inputs[1..])
    ensures ClientInvariant(next) && !next.crashed && next.connected
    ensures NoPoison(inputs[1..]) && NoResets(Trace(next, inputs[1..]))
    ensures Tallies(c, e, next, accepted, acknowledged)
  {
    e, next := Entry(inputs[0], Handle(c, inputs[0]).sent), Handle(c, inputs[0]).client;
    var t := Trace(c, inputs);
    assert t[0] == e && t[1..] == Trace(next, inputs[1..]);
    HandleKeeps(c, inputs[0]);
    StaysConnected(c, inputs[0]);
    HandleTallies(c, inputs[0], accepted, acknowledged);
    assert NoResets(t[1..]);
  }

  /** Along any stretch without a reset the client's state keeps both tallies. */
  lemma {:induction false} RunTallies(
      c: Client, inputs: seq<Input>, accepted: Tally, acknowledged: Tally)
      returns (allAccepted: seq<Tally>, allAcknowledged: seq<Tally>)
    requires ClientInvariant(c) && !c.crashed && c.connected && NoPoison(inputs)
    requires Tallied(c.sequencer, accepted, acknowledged)
    requires NoResets(Trace(c, inputs))
    ensures Counting(Accepted(Trace(c, inputs)), allAccepted)
    ensures Counting(Acknowledged(Trace(c, inputs)), allAcknowledged)
    ensures allAccepted[0] == accepted && allAcknowledged[0] == acknowledged
    ensures Tallied(Run(c, inputs).sequencer, allAccepted[|inputs|], allAcknowledged[|inputs|])
    decreases |inputs|
  {
    if inputs == [] {
      allAccepted, allAcknowledged := [accepted], [acknowledged];
    } else {
      var e, next := FirstStep(c, inputs, accepted, acknowledged);
      var moreAccepted, moreAcknowledged := RunTallies(
        next, inputs[1..], Bump(accepted, AcceptedBy(e)), Bump(acknowledged, AcknowledgedBy(e)));
      var rest := Trace(next, inputs[1..]);
      allAccepted := PrependCount(e, rest, accepted, moreAccepted, true);
      allAcknowledged := PrependCount(e, rest, acknowledged, moreAcknowledged, false);
    }
  }

  lemma PrependCount(e: Entry, rest: seq<Entry>, tally: Tally, tallies: seq<Tally>, acceptedOnes: bool)
    returns (all: seq<Tally>)
    requires var n := if acceptedOnes then AcceptedBy(e) else AcknowledgedBy(e);
             var ns := if acceptedOnes then Accepted(rest) else Acknowledged(rest);
             Counting(ns, tallies) && tallies[0] == Bump(tally, n) && Counts(tally, n)
    ensures all == [tally] + tallies
    ensures Counting(
      if acceptedOnes then Accepted([e] + rest) else Acknowledged([e] + rest), all)
  {
    all := [tally] + tallies;
    var t := [e] + rest;
    assert Accepted(t) == [AcceptedBy(e)] + Accepted(rest);
    assert Acknowledged(t) == [AcknowledgedBy(e)] + Acknowledged(rest);
  }

  /** The action numbers of one round over a stretch of a run, judged by where the stretch ends:
      the accepted ones are 1..m and the acknowledged ones 1..k with k <= m <= k+1. For the live round
      m counts the held action too; for the last ended round m is one more than k exactly when a
      terminal race consumed an action. */
  predicate ExactlyOnce(trace: seq<Entry>, s: Sequencer, round: int) {
    var accepted := Numbers(Accepted(trace), round);
    var acknowledged := Numbers(Acknowledged(trace), round);
    && accepted == Consecutive(0, |accepted|)
    && acknowledged == Consecutive(0, |acknowledged|)
    && |acknowledged| <= |accepted| <= |acknowledged| + 1
    && (Live(s) && s.active.value.round == round ==>
          && |acknowledged| == s.actionSequence
          && (|accepted| == |acknowledged| + 1 <==> Held(s).Some?))
    && (s.completed.Some? && s.completed.value.round == round ==>
          && |acknowledged| == s.completedAction
          && (|accepted| == |acknowledged| + 1 <==> s.raceConsumed))
  }

  /** From any state that remembers no episode, until the next reset, every round's actions are
      accepted and acknowledged exactly once, however late or often requests come. */
  lemma ActionsExactlyOnce(c: Client, inputs: seq<Input>, round: int)
    requires ClientInvariant(c) && !c.crashed && c.connected
    requires c.sequencer.active.None? && c.sequencer.completed.None?
    requires NoPoison(inputs) && NoResets(Trace(c, inputs))
    ensures ExactlyOnce(Trace(c, inputs), Run(c, inputs).sequencer, round)
  {
    var zero: Tally := (round: int) => 0;
    assert Tallied(c.sequencer, zero, zero);
    var accepted, acknowledged := RunTallies(c, inputs, zero, zero);
    CountingNumbers(Accepted(Trace(c, inputs)), accepted, round);
    CountingNumbers(Acknowledged(Trace(c, inputs)), acknowledged, round);
  }

  /** Every reset leaves a state that remembers no episode. */
  lemma ResetsForget(c: Client, i: Input)
    requires ClientInvariant(c) && !c.crashed && !Poison(i) && Resets(Entry(i, Handle(c, i).sent))
    ensures var s := Handle(c, i).client.sequencer; s.active.None? && s.completed.None?
  {
    match i
    case FromTrainer(m) => TrainerForgets(c, m);
    case FromServer(p, feetY) => PacketForgets(c, p, feetY);
    case _ =>
  }

  lemma TrainerForgets(c: Client, m: Envelope<ToClient>)
    requires ClientInvariant(c) && !c.crashed
    requires Resets(Entry(FromTrainer(m), Handle(c, FromTrainer(m)).sent))
    ensures var s := Handle(c, FromTrainer(m)).client.sequencer; s.active.None? && s.completed.None?
  {
    if c.connected && m.version == PROTOCOL_VERSION {
      if m.payload.ArmEpisode? {
        SettlingForgets(Release(c), ArmNext(c.sequencer, m.payload.arm), m);
      } else if m.payload.ActionRequest? {
        SettlingForgets(c, QueueAction(c.sequencer, m.payload.action), m);
      }
    }
  }

  lemma SettlingForgets<T>(c: Client, step: Step<T>, m: Envelope<ToClient>)
    requires !step.reply.Fault? && !m.payload.Shutdown?
    requires Resets(Entry(FromTrainer(m), Settle(c, step).sent))
    ensures var s := Settle(c, step).client.sequencer; s.active.None? && s.completed.None?
  {
  }

  lemma PacketForgets(c: Client, p: Packet, feetY: real)
    requires ClientInvariant(c) && !c.crashed && !Poison(FromServer(p, feetY))
    requires Resets(Entry(FromServer(p, feetY), ReceiveYRush(c, p, feetY).sent))
    ensures var s := ReceiveYRush(c, p, feetY).client.sequencer;
            s.active.None? && s.completed.None?
  {
    if Parsed(p) {
      ReceiveKeeps(c.sequencer, p, c.tick);
      var step := Receive(c.sequencer, p, c.tick);
      if step.reply.Ok? {
        EventIsQuiet(c, p, feetY, step);
      }
    }
  }

  /** An accepted packet sends no error. */
  lemma EventIsQuiet(c: Client, p: Packet, feetY: real, step: Step<Event>)
    requires ClientInvariant(c) && GoodReceive(c.sequencer, p, c.tick, step) && step.reply.Ok?
    ensures !Resets(Entry(FromServer(p, feetY), AfterPacket(c, p, feetY, step).sent))
  {
    var d := c.(sequencer := step.next);
    match step.reply.value
    case EpisodeStarted => BeginEpisodeEffect(d, feetY);
    case PlayerEliminated => FinishEpisodeEffect(d, feetY);
    case RoundCompleted => FinishEpisodeEffect(d, feetY);
    case Cleaned =>
    case NoEvent =>
  }

  /** Over whole runs: in every stretch between two resets, or from the last reset on, of any run of
      a newly launched client, as long as a trainer is connected when the stretch begins. A stretch
      without a trainer is one where nothing is accepted until a trainer connects, and the state in
      which an early trainer connects remembers no episode either. */
  lemma EveryStretchIsExactlyOnce(
      earlier: seq<Input>, reset: Input, stretch: seq<Input>, round: int)
    requires NoPoison(earlier) && !Poison(reset) && NoPoison(stretch)
    requires var c := Run(LAUNCHED, earlier);
             Resets(Entry(reset, Handle(c, reset).sent)) || (reset.TrainerConnectedEarly? && !c.connected)
    requires var d := Handle(Run(LAUNCHED, earlier), reset).client;
             d.connected && NoResets(Trace(d, stretch))
    ensures var d := Handle(Run(LAUNCHED, earlier), reset).client;
            ExactlyOnce(Trace(d, stretch), Run(d, stretch).sequencer, round)
  {
    var c := Run(LAUNCHED, earlier);
    RunCrashesOnlyOnPoison(LAUNCHED, earlier);
    HandleKeeps(c, reset);
    if !reset.TrainerConnectedEarly? {
      ResetsForget(c, reset);
    }
    ActionsExactlyOnce(Handle(c, reset).client, stretch, round);
  }
}
