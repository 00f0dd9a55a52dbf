/** The trainer-to-client contract: one record per message, inside a versioned envelope. */
module WireMessages {
  import opened Common
  import opened Packets

  const PROTOCOL_VERSION: int := 1
  const ACTION_HOLD_TICKS: int := 4
  const ACTION_DEADLINE_TICKS: int := 200
  const MINECRAFT_VERSION: string := "26.2"
  const ACTION_CARDINALITIES: seq<int> := [3, 3, 2, 2, 5, 5]

  datatype Arm = Arm(
    version: int, requestId: int, session: string, round: int, policy: int, clientTick: int)

  datatype Action = Action(
    version: int, session: string, round: int, policy: int, clientTick: int,
    observation: int, number: int, choices: seq<int>)

  datatype ObservedPhase = ObservedActive | ObservedComplete

  datatype EpisodeReady = EpisodeReady(
    version: int, requestId: int, session: string, round: int, policy: int, clientTick: int,
    direction: Direction, targetY: int, activePlayers: int, totalPlayers: int, holdTicks: int)

  datatype Applied = Applied(
    version: int, session: string, round: int, policy: int, clientTick: int,
    observation: int, number: int, choices: seq<int>, holdTicks: int)

  datatype Observation = Observation(
    version: int, session: string, round: int, policy: int, clientTick: int,
    observation: int, number: int, phase: ObservedPhase, heightDifference: real,
    activePlayers: int, totalPlayers: int)

  datatype EpisodeResult = EpisodeResult(
    version: int, session: string, round: int, policy: int, clientTick: int, observation: int,
    outcome: Outcome, winnerUuid: string, participantCount: int,
    completionTimeSeconds: real, bestRemainingDistance: real)

  datatype ToClient =
    | ArmEpisode(arm: Arm)
    | ActionRequest(action: Action)
    | Shutdown
    | NotForClient

  datatype ToTrainer =
    | ConnectionHello(helloVersion: int, helloSession: string, nonce: string, helloTick: int)
    | ConnectionReady(
        readyVersion: int, readySession: string, minecraft: string,
        playerUuid: string, playerName: string, readyTick: int)
    | EpisodeReadyMessage(ready: EpisodeReady)
    | ActionAppliedMessage(applied: Applied)
    | ObservationMessage(observed: Observation)
    | EpisodeResultMessage(result: EpisodeResult)
    | ShutdownMessage
    | ErrorMessage(code: ErrorCode, retryable: bool, errorArm: Option<Arm>)

  datatype Envelope<+P> = Envelope(version: int, payload: P)

  predicate ValidChoices(choices: seq<int>) {
    |choices| == |ACTION_CARDINALITIES|
    && forall i :: 0 <= i < |choices| ==> 0 <= choices[i] < ACTION_CARDINALITIES[i]
  }

  function ToTheTrainer(payload: ToTrainer): Envelope<ToTrainer> {
    Envelope(PROTOCOL_VERSION, payload)
  }
}
