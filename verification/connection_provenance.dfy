/** What a call of the trainer hands back was told to it: nothing is made up, and nothing that answers
    the call is passed over. */
module ConnectionProvenance {
  import opened Common
  import opened Packets
  import opened WireMessages
  import opened ConnectionSpec

  type Heard = seq<Envelope<ToTrainer>>

  predicate Said(heard: Heard, payload: ToTrainer) {
    exists j :: 0 <= j < |heard| && heard[j].payload == payload
  }

  predicate Acknowledged(heard: Heard, action: Action) {
    exists j :: 0 <= j < |heard| && heard[j].payload.ActionAppliedMessage?
                && AppliedMatches(heard[j].payload.applied, action)
  }

  predicate NoAcknowledgement(heard: Heard) {
    forall j :: 0 <= j < |heard| ==> !heard[j].payload.ActionAppliedMessage?
  }

  /** The step so far, from the messages heard since it began. */
  predicate SteppedBy(call: Call, session: string, heard: Heard)
    requires call.StepCall?
  {
    && (if call.applied then Acknowledged(heard, call.action) else NoAcknowledgement(heard))
    && (call.terminal.Some? ==>
          Said(heard, ObservationMessage(call.terminal.value)) && ValidObservation(call.terminal.value))
    && (call.result.Some? ==>
          Said(heard, EpisodeResultMessage(call.result.value)) && ValidResult(call.result.value))
  }

  /** The exchange that ended the step for the action. */
  predicate ExchangedBy(x: StepExchange, action: Action, heard: Heard) {
    && Said(heard, ObservationMessage(x.observation)) && ValidObservation(x.observation)
    && (if x.applied then Acknowledged(heard, action) else NoAcknowledgement(heard))
    && (x.result.Some? ==>
          Said(heard, EpisodeResultMessage(x.result.value)) && ValidResult(x.result.value))
    && (x.result.None? ==> x.applied && x.observation.phase.ObservedActive?)
  }

  /** A readiness for the arm that announced this direction and target. */
  predicate Announced(heard: Heard, session: string, request: Arm, direction: Direction, targetY: int) {
    exists j :: 0 <= j < |heard| && heard[j].payload.EpisodeReadyMessage?
                && ReadyMatches(session, heard[j].payload.ready, request)
                && heard[j].payload.ready.direction == direction
                && heard[j].payload.ready.targetY == targetY
  }

  /** The episode the arm opened, and what was announced for it. */
  predicate OpenedBy(k: Connection, request: Arm, o: Observation, heard: Heard) {
    && Said(heard, ObservationMessage(o)) && InitialMatches(k.session, o, request)
    && ValidObservation(o)
    && k.round == request.round && k.policy == request.policy && k.tick == o.clientTick
    && k.direction.Some? && Announced(heard, k.session, request, k.direction.value, k.targetY)
  }

  /** A greeting, and then an identity, of this session. */
  predicate Hello(heard: Heard, session: string) {
    exists j :: 0 <= j < |heard| && heard[j].payload.ConnectionHello?
                && heard[j].payload.helloSession == session
  }

  predicate Identity(heard: Heard, session: string, uuid: string, name: string) {
    exists j :: 0 <= j < |heard| && heard[j].payload.ConnectionReady?
                && heard[j].payload.readySession == session
                && heard[j].payload.minecraft == MINECRAFT_VERSION
                && heard[j].payload.playerUuid == uuid && heard[j].payload.playerName == name
  }

  /** The call in progress, or how it ended, from the messages heard since it began. */
  predicate Told(k: Connection, request: Arm, action: Action, heard: Heard) {
    match k.call
    case Greeting(hello) => hello.Some? ==> k.session != "" && Hello(heard, k.session)
    case NoCall =>
      && k.session != "" && k.playerUuid != "" && k.playerName != ""
      && Hello(heard, k.session) && Identity(heard, k.session, k.playerUuid, k.playerName)
    case ArmCall(r, ready) =>
      && r == request
      && (ready.Some? ==>
            Announced(heard, k.session, request, ready.value.direction, ready.value.targetY))
    case ArmDone(o) => OpenedBy(k, request, o, heard)
    case StepCall(a, _, _, _) => a == action && SteppedBy(k.call, k.session, heard)
    case StepDone(x) => ExchangedBy(x, action, heard)
    case Raised(_) => true
  }

  lemma SaidLater(heard: Heard, m: Envelope<ToTrainer>)
    ensures forall payload :: Said(heard, payload) ==> Said(heard + [m], payload)
    ensures Said(heard + [m], m.payload)
  {
    var more := heard + [m];
    assert more[|heard|] == m;
    forall payload | Said(heard, payload) ensures Said(more, payload) {
      var j :| 0 <= j < |heard| && heard[j].payload == payload;
      assert more[j].payload == payload;
    }
  }

  lemma AcknowledgedLater(heard: Heard, m: Envelope<ToTrainer>, action: Action)
    ensures Acknowledged(heard, action) ==> Acknowledged(heard + [m], action)
    ensures m.payload.ActionAppliedMessage? && AppliedMatches(m.payload.applied, action) ==>
              Acknowledged(heard + [m], action)
  {
    var more := heard + [m];
    assert more[|heard|] == m;
    if Acknowledged(heard, action) {
      var j :| 0 <= j < |heard| && heard[j].payload.ActionAppliedMessage?
               && AppliedMatches(heard[j].payload.applied, action);
      assert more[j] == heard[j];
    }
  }

  lemma AnnouncedLater(
      heard: Heard, m: Envelope<ToTrainer>, session: string, request: Arm, direction: Direction,
      targetY: int)
    ensures Announced(heard, session, request, direction, targetY) ==>
              Announced(heard + [m], session, request, direction, targetY)
    ensures m.payload.EpisodeReadyMessage? && ReadyMatches(session, m.payload.ready, request)
            && m.payload.ready.direction == direction && m.payload.ready.targetY == targetY ==>
              Announced(heard + [m], session, request, direction, targetY)
  {
    var more := heard + [m];
    assert more[|heard|] == m;
    if Announced(heard, session, request, direction, targetY) {
      var j :| 0 <= j < |heard| && heard[j].payload.EpisodeReadyMessage?
               && ReadyMatches(session, heard[j].payload.ready, request)
               && heard[j].payload.ready.direction == direction
               && heard[j].payload.ready.targetY == targetY;
      assert more[j] == heard[j];
    }
  }

  // ---------------------------------------------------------------- one message

  lemma GreetingHears(k: Connection, m: Envelope<ToTrainer>, heard: Heard, request: Arm, action: Action)
    requires k.call.Greeting? && Told(k, request, action, heard)
    ensures Told(DeliverGreeting(k, m.payload), request, action, heard + [m])
  {
    var more := heard + [m];
    assert more[|heard|] == m;
    if Hello(heard, k.session) {
      var j :| 0 <= j < |heard| && heard[j].payload.ConnectionHello?
               && heard[j].payload.helloSession == k.session;
      assert more[j] == heard[j];
    }
  }

  lemma ArmingHears(k: Connection, m: Envelope<ToTrainer>, heard: Heard, request: Arm, action: Action)
    requires k.call.ArmCall? && Told(k, request, action, heard)
    ensures Told(DeliverArming(k, m.payload), request, action, heard + [m])
  {
    SaidLater(heard, m);
    if k.call.ready.Some? {
      var ready := k.call.ready.value;
      AnnouncedLater(heard, m, k.session, request, ready.direction, ready.targetY);
    } else if m.payload.EpisodeReadyMessage? {
      var ready := m.payload.ready;
      AnnouncedLater(heard, m, k.session, request, ready.direction, ready.targetY);
    }
  }

  lemma SteppingHears(k: Connection, m: Envelope<ToTrainer>, heard: Heard, request: Arm, action: Action)
    requires k.call.StepCall? && Told(k, request, action, heard)
    ensures Told(DeliverStepping(k, m.payload), request, action, heard + [m])
  {
    SaidLater(heard, m);
    AcknowledgedLater(heard, m, action);
  }

  lemma DeliverHears(k: Connection, m: Envelope<ToTrainer>, heard: Heard, request: Arm, action: Action)
    requires Awaiting(k) && Told(k, request, action, heard)
    ensures Told(Deliver(k, m), request, action, heard + [m])
  {
    match k.call
    case Greeting(_) => GreetingHears(k, m, heard, request, action);
    case ArmCall(_, _) => ArmingHears(k, m, heard, request, action);
    case StepCall(_, _, _, _) => SteppingHears(k, m, heard, request, action);
  }

  // ---------------------------------------------------------------- whole calls

  /** What a call reads before it ends. */
  function Read(k: Connection, inbox: Heard): (read: Heard)
    ensures read == inbox[..|inbox| - |Await(k, inbox).1|]
    decreases |inbox|
  {
    if !Awaiting(k) || inbox == [] then [] else [inbox[0]] + Read(Deliver(k, inbox[0]), inbox[1..])
  }

  lemma OneAtATime(heard: Heard, m: Envelope<ToTrainer>, read: Heard)
    ensures heard + [m] + read == heard + ([m] + read)
  {
  }

  lemma {:induction false} AwaitHears(
      k: Connection, inbox: Heard, heard: Heard, request: Arm, action: Action)
    requires Told(k, request, action, heard)
    ensures Told(Await(k, inbox).0, request, action, heard + Read(k, inbox))
    decreases |inbox|
  {
    if !Awaiting(k) || inbox == [] {
      assert heard + [] == heard;
    } else {
      DeliverHears(k, inbox[0], heard, request, action);
      AwaitHears(Deliver(k, inbox[0]), inbox[1..], heard + [inbox[0]], request, action);
      OneAtATime(heard, inbox[0], Read(Deliver(k, inbox[0]), inbox[1..]));
    }
  }

  /** A call is told by what it read, if it began with nothing to tell. */
  lemma CallsAreTold(k: Connection, inbox: Heard, request: Arm, action: Action)
    requires Told(k, request, action, [])
    ensures Told(Await(k, inbox).0, request, action, Read(k, inbox))
  {
    AwaitHears(k, inbox, [], request, action);
    assert [] + Read(k, inbox) == Read(k, inbox);
  }

  /** A step hands back an observation it was sent, and the result it was sent with it; the action
      counts as applied if and only if one of the messages read acknowledges exactly this action. */
  lemma StepsAreTold(k: Connection, inbox: Heard, action: Action)
    ensures var asked := k.(call := StepCall(action, false, None, None));
            var stepped := Await(asked, inbox).0.call;
            stepped.StepDone? ==> ExchangedBy(stepped.exchange, action, Read(asked, inbox))
  {
    CallsAreTold(
      k.(call := StepCall(action, false, None, None)), inbox, Arm(0, 0, "", 0, 0, 0), action);
  }

  /** An arm hands back an initial observation it was sent, and keeps the direction and the target of a
      readiness for exactly this arm. */
  lemma ArmsAreTold(k: Connection, inbox: Heard, request: Arm)
    ensures var asked := k.(call := ArmCall(request, None));
            var d := Await(asked, inbox).0;
            d.call.ArmDone? ==> OpenedBy(d, request, d.call.initial, Read(asked, inbox))
  {
    CallsAreTold(
      k.(call := ArmCall(request, None)), inbox, request, Action(0, "", 0, 0, 0, 0, 0, []));
  }

  /** A handshake ends with the session and the identity it was sent. */
  lemma HandshakesAreTold(inbox: Heard)
    ensures var d := Await(OPENED, inbox).0;
            d.call.NoCall? ==>
              && Hello(Read(OPENED, inbox), d.session)
              && Identity(Read(OPENED, inbox), d.session, d.playerUuid, d.playerName)
  {
    CallsAreTold(OPENED, inbox, Arm(0, 0, "", 0, 0, 0), Action(0, "", 0, 0, 0, 0, 0, []));
  }

  /** A step asked for after an exchange that ended no episode answers the observation it handed back: a
      client that gets the request counts as many actions and has the clock that observation showed. */
  lemma RequestsAnswerObservations(k: Connection, inbox: Heard, action: Action, choices: seq<int>)
    ensures var stepped := Await(k.(call := StepCall(action, false, None, None)), inbox).0;
            stepped.call.StepDone? && stepped.call.exchange.result.None? ==>
              var o := stepped.call.exchange.observation;
              var next := StepRequest(stepped, o, o.number + 1, choices);
              && next.version == 1 && next.session == o.session && next.choices == choices
              && next.round == action.round && next.policy == action.policy
              && next.observation == action.number && next.number == action.number + 1
              && next.clientTick == o.clientTick == stepped.tick
  {
    StepsContinue(k.(call := StepCall(action, false, None, None)), inbox, action);
  }

  /** What an exchange that ends no episode leaves for the next. */
  predicate Continued(k: Connection, action: Action) {
    match k.call
    case StepCall(a, _, _, _) => a == action
    case StepDone(x) =>
      x.result.None? ==>
        && x.observation.session == k.session && x.observation.clientTick == k.tick
        && x.observation.round == action.round && x.observation.policy == action.policy
        && x.observation.observation == x.observation.number == action.number
    case Raised(_) => true
    case _ => false
  }

  lemma {:induction false} StepsContinue(k: Connection, inbox: Heard, action: Action)
    requires Continued(k, action)
    ensures Continued(Await(k, inbox).0, action)
    decreases |inbox|
  {
    if Awaiting(k) && inbox != [] {
      StepsContinue(Deliver(k, inbox[0]), inbox[1..], action);
    }
  }

  // ---------------------------------------------------------------- what is refused

  /** The greeting before the identity, each once, complete and of one session. */
  predicate AnswersGreeting(k: Connection, p: ToTrainer)
    requires k.call.Greeting?
  {
    match p
    case ConnectionHello(version, session, nonce, tick) =>
      k.call.hello.None? && version == 1 && session != "" && nonce != ""
    case ConnectionReady(version, session, minecraft, uuid, name, tick) =>
      && k.call.hello.Some? && version == 1 && session == k.session && minecraft == "26.2"
      && uuid != "" && name != ""
    case _ => false
  }

  predicate ValidCounts(active: int, total: int) {
    0 <= active <= total && 0 < total
  }

  /** The readiness for this very arm, and after it the first observation of its episode; in between,
      what is left of earlier rounds. */
  predicate AnswersArm(k: Connection, p: ToTrainer)
    requires k.call.ArmCall?
  {
    var a := k.call.request;
    match p
    case EpisodeReadyMessage(r) =>
      && k.call.ready.None? && r.version == 1 && r.requestId == a.requestId && r.session == k.session
      && r.round == a.round && r.policy == a.policy && r.holdTicks == 4
      && ValidCounts(r.activePlayers, r.totalPlayers)
    case ObservationMessage(o) =>
      && k.call.ready.Some? && ValidObservation(o)
      && (|| o.round < a.round
          || (o.session == k.session && o.round == a.round && o.policy == a.policy
              && o.observation == o.number == 0 && o.phase == ObservedActive))
    case EpisodeResultMessage(r) => ValidResult(r) && r.round < a.round
    case _ => false
  }

  /** One acknowledgement of exactly this action; observations and results that count it if and only if
      it was acknowledged before; and no active observation without it. */
  predicate AnswersStep(k: Connection, p: ToTrainer)
    requires k.call.StepCall?
  {
    var a := k.call.action;
    var number := if k.call.applied then a.number else a.observation;
    match p
    case ActionAppliedMessage(x) =>
      && !k.call.applied && x.version == 1 && x.session == a.session && x.round == a.round
      && x.policy == a.policy && x.observation == a.observation && x.number == a.number
      && x.choices == a.choices && x.holdTicks == 4
    case ObservationMessage(o) =>
      && ValidObservation(o) && o.session == k.session && o.round == a.round && o.policy == a.policy
      && o.observation == o.number == number && (o.phase == ObservedActive ==> k.call.applied)
    case EpisodeResultMessage(r) =>
      && ValidResult(r) && r.session == k.session && r.round == a.round && r.policy == a.policy
      && r.observation == number
    case _ => false
  }

  predicate Answers(k: Connection, p: ToTrainer)
    requires Awaiting(k)
  {
    match k.call
    case Greeting(_) => AnswersGreeting(k, p)
    case ArmCall(_, _) => AnswersArm(k, p)
    case StepCall(_, _, _, _) => AnswersStep(k, p)
  }

  /** A message raises if and only if it does not answer the call in progress: as a lost bridge if the
      client says so, else as a breach of the protocol. */
  lemma MessagesAreJudged(k: Connection, m: Envelope<ToTrainer>)
    requires Awaiting(k)
    ensures var call, lost := Deliver(k, m).call, m.payload.ErrorMessage? || m.payload.ShutdownMessage?;
            && (call == Raised(Infrastructure) <==> m.version == 1 && lost)
            && (call == Raised(ProtocolState) <==>
                  m.version != 1 || (!lost && !Answers(k, m.payload)))
            && call != Raised(TimedOut) && call != Raised(BadAction)
  {
    match k.call
    case Greeting(_) =>
    case ArmCall(_, _) =>
    case StepCall(_, _, _, _) =>
  }

  /** What an answering message tells of the client's clock: acknowledgements and announcements never
      turn it back, observations set it, and leftovers and results say nothing. */
  lemma AnswersSetTheClock(k: Connection, m: Envelope<ToTrainer>)
    requires Awaiting(k) && m.version == 1 && Answers(k, m.payload)
    ensures var tick := Deliver(k, m).tick;
            match m.payload
            case ConnectionHello(_, _, _, told) => tick == told
            case ConnectionReady(_, _, _, _, _, told) => tick == if k.tick < told then told else k.tick
            case EpisodeReadyMessage(r) =>
              tick == if k.tick < r.clientTick then r.clientTick else k.tick
            case ActionAppliedMessage(x) =>
              tick == if k.tick < x.clientTick then x.clientTick else k.tick
            case ObservationMessage(o) =>
              tick == if k.call.ArmCall? && o.round < k.call.request.round then k.tick else o.clientTick
            case _ => tick == k.tick
  {
  }

  /** A step ends with an active observation, or with the second of final observation and result,
      whichever comes first. */
  lemma StepsEndOnce(k: Connection, m: Envelope<ToTrainer>)
    requires k.call.StepCall? && m.version == 1 && AnswersStep(k, m.payload)
    ensures Deliver(k, m).call.StepDone? <==>
              match m.payload
              case ObservationMessage(o) => o.phase == ObservedActive || k.call.result.Some?
              case EpisodeResultMessage(r) => k.call.terminal.Some?
              case _ => false
    ensures Deliver(k, m).call.StepDone? || Deliver(k, m).call.StepCall?
  {
  }

  /** Messages left over from earlier rounds change nothing. */
  lemma LeftoversAreSkipped(k: Connection, m: Envelope<ToTrainer>)
    requires k.call.ArmCall? && m.version == 1 && AnswersArm(k, m.payload)
    requires m.payload.ObservationMessage? ==> m.payload.observed.round < k.call.request.round
    requires !m.payload.EpisodeReadyMessage?
    ensures Deliver(k, m) == k
  {
  }

  /** A call times out if and only if it has read everything and still waits. */
  lemma {:induction false} TimeoutsReadEverything(k: Connection, inbox: Heard)
    requires Awaiting(k)
    ensures Await(k, inbox).0.call == Raised(TimedOut) ==> Read(k, inbox) == inbox
    ensures inbox == [] ==> Await(k, inbox).0.call == Raised(TimedOut)
    decreases |inbox|
  {
    if inbox != [] {
      MessagesAreJudged(k, inbox[0]);
      var next := Deliver(k, inbox[0]);
      if Awaiting(next) {
        TimeoutsReadEverything(next, inbox[1..]);
      } else {
        assert Await(next, inbox[1..]) == (next, inbox[1..]);
      }
    }
  }
}
