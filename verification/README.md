# Shared-round training: verified model

YRush is a Minecraft race: a round server counts players down, opens a round, eliminates players and
declares how it ended. Learning clients take part in it. A Fabric client follows the server's packets
and plays one held action at a time; a Python trainer arms it for a round, sends actions and receives
observations and results over a framed socket; a scheduler runs a fixed pool of such clients through
shared rounds; and a training loop turns their transitions into policy updates.

The project models this system in five layers and proves that they work together.

* **Client** (`packets.dfy`, `wire_messages.dfy`, `sequencer_spec.dfy`, `round_sequencer.dfy`,
  `client_spec.dfy`, `yrush_client.dfy`, `client_*.dfy`): the sequencer and client objects, each method
  proved equal to a function on values, and what every run of that function keeps, tells and refuses.
* **Trainer's end of the wire** (`connection_spec.dfy`, `connection.dfy`, `connection_provenance.dfy`,
  `environment_spec.dfy`, `environment.dfy`) and its composition with the client over two FIFO channels
  (`shared_round.dfy`, `shared_round_safety.dfy`, `shared_round_progress.dfy`).
* **Scheduler** (`pool_spec.dfy`, `pool.dfy`, `pool_invariant.dfy`, `pool_safety.dfy`,
  `pool_accounting.dfy`, `pool_delivery.dfy`, `pool_limit.dfy`) with round reconciliation
  (`reconcile.dfy`, `round_truth.dfy`, `round_elimination.dfy`, `round_disagreement.dfy`);
  `actor_environment.dfy` derives the scheduler's assumptions from the layer below and `fleet.dfy` runs
  the scheduler with the real environments.
* **Training loop** (`training_spec.dfy`, `training.dfy`, `training_invariant.dfy`,
  `training_run.dfy`, `training_models.dfy`) with rollout storage and advantage estimation
  (`transitions.dfy`, `gae.dfy`, `rollout_spec.dfy`, `rollout.dfy`, `rollout_order.dfy`,
  `rollout_tables.dfy`).
* **Kernels**: voxel encoding (`voxel_orientation.dfy`, `voxel_encoding.dfy`) and framing
  (`framing_spec.dfy`, `framing.dfy`).

An object that the source updates in place is a class here. Its methods are proved to compute a
function of the old state, written in the neighbouring `*_spec.dfy`; theorems about whole runs are
lemmas about those functions. `dafny verify dfyconfig.toml` checks everything.

## Where the code and its promises differ

* A server packet that carries a direction but no target or player count passes parsing and then
  raises an unchecked exception in the client: `CountlessPacketCrashes` is such a packet,
  `RunCrashesOnlyOnPoison` the exact condition.
* Parsing relates neither a packet's verdict to the player's outcome nor its counts to each other, so
  the client can end an episode with messages the trainer refuses. `ResultValidity` is the exact
  condition for the final observation and for the result; `ResultCanBeInvalid`,
  `EmptyRoundIsRefused` and `CrowdedRoundIsRefused` are runs that fail it, one for each of its parts.
* A ROUND_COMPLETE after the client's episode ended makes it abort unless it says ELIMINATED:
  `RepetitionCanAbort` is a run, `RepeatedCompletion` the exact condition.
* An arm accepted during a countdown is meant for that countdown's round, but aborting keeps the flag
  that skips a round: `ArmCanMissItsCountdown` is a run, `ArmStartsInItsCountdown` the exact condition.
* The comment at `pool.py:345-349` says that the first observation and the first held action are three
  ticks apart. The handlers give at least four (`ActionsHeldFourTicks`); the model follows the
  handlers.
* A pool whose clients were all eliminated while nobody else was left is named DRAW by
  `GlobalRound.outcome`; the model follows the code.
* Of the active counts a wholly eliminated pool reports, reconciliation reads only the least:
  `EliminatedPoolAccepted` is exactly when it accepts them, `EliminatedPoolExplained` exactly when some
  order of eliminations explains them, and `CountsAreNotChecked` a report that is accepted unexplained.

The composed protocol therefore assumes a server whose packets come in the order `Lifecycle` states,
with directions complete and outcomes fitting verdicts, one session, and no missed action deadline.

## Model

| member | source | states |
|---|---|---|
| RoundSequencerClass.RoundSequencer.constructor | client-mod/src/main/java/gg/wellplayed/yrush/client/core/RoundSequencer.java:42-66 | a new sequencer is idle with every arm, action, packet and flag cleared |
| RoundSequencerClass.RoundSequencer.StartSession | client-mod/src/main/java/gg/wellplayed/yrush/client/core/RoundSequencer.java:67-84 | a blank id is refused with nothing changed; otherwise the session forgets arms, actions, sequences and flags, but keeps the last packet and its round data |
| RoundSequencerClass.RoundSequencer.ArmRound | client-mod/src/main/java/gg/wellplayed/yrush/client/core/RoundSequencer.java:86-126 | all eight refusals in order, idempotence, and the waiting phase chosen from the last packet; a refusal changes nothing |
| RoundSequencerClass.RoundSequencer.Receive | client-mod/src/main/java/gg/wellplayed/yrush/client/core/RoundSequencer.java:128-146 | a packet is recorded, then handled by phase; a packet with a direction but no target or count faults after the fields already written |
| RoundSequencerClass.RoundSequencer.ReceiveInactive | client-mod/src/main/java/gg/wellplayed/yrush/client/core/RoundSequencer.java:148-164 | INACTIVE during a live episode is an ordering violation; otherwise it clears the round and re-arms a pending arm |
| RoundSequencerClass.RoundSequencer.ReceiveCountdown | client-mod/src/main/java/gg/wellplayed/yrush/client/core/RoundSequencer.java:166-177 | a countdown after ACTIVE or ROUND_COMPLETE is a violation; it counts as seen only for a pending arm that is not skipping |
| RoundSequencerClass.RoundSequencer.ReceiveActive | client-mod/src/main/java/gg/wellplayed/yrush/client/core/RoundSequencer.java:179-210 | elimination, skipping, refusal of an eliminated participant, and the start of the pending episode |
| RoundSequencerClass.RoundSequencer.ReceiveComplete | client-mod/src/main/java/gg/wellplayed/yrush/client/core/RoundSequencer.java:212-237 | completion ends a live episode once; a repetition is accepted only with the outcome ELIMINATED |
| RoundSequencerClass.RoundSequencer.QueueAction | client-mod/src/main/java/gg/wellplayed/yrush/client/core/RoundSequencer.java:239-280 | every refusal in order, and the one spare action absorbed for a finished episode |
| RoundSequencerClass.RoundSequencer.BeginAction | client-mod/src/main/java/gg/wellplayed/yrush/client/core/RoundSequencer.java:282-291 | a queued action becomes the running one, at most once |
| RoundSequencerClass.RoundSequencer.CompleteAction | client-mod/src/main/java/gg/wellplayed/yrush/client/core/RoundSequencer.java:293-304 | the running action is returned and both sequence numbers advance; without one the call faults and changes nothing |
| RoundSequencerClass.RoundSequencer.ActionTimedOut | client-mod/src/main/java/gg/wellplayed/yrush/client/core/RoundSequencer.java:306-309 | true exactly when waiting for an action more than 200 ticks after the last observation |
| RoundSequencerClass.RoundSequencer.RecordTargetDistance | client-mod/src/main/java/gg/wellplayed/yrush/client/core/RoundSequencer.java:311-315 | the smallest nonnegative distance seen is kept |
| RoundSequencerClass.RoundSequencer.TerminalOutcome | client-mod/src/main/java/gg/wellplayed/yrush/client/core/RoundSequencer.java:326-343 | elimination during the round, or the outcome of the completing packet |
| RoundSequencerClass.RoundSequencer.WinnerUuid | client-mod/src/main/java/gg/wellplayed/yrush/client/core/RoundSequencer.java:409-413 | the winner named by the last packet, else blank |
| RoundSequencerClass.RoundSequencer.Abort | client-mod/src/main/java/gg/wellplayed/yrush/client/core/RoundSequencer.java:345-352 | arms and actions are forgotten and the phase is ABORTED; the terminal, countdown and skip flags stay |
| RoundSequencerClass.RoundSequencer.MarkTerminal | client-mod/src/main/java/gg/wellplayed/yrush/client/core/RoundSequencer.java:354-363 | the episode is finished with its counts remembered and a held action discarded as the race action |
| YRushClientClass.YRushClient.Greet | client-mod/src/main/java/gg/wellplayed/yrush/client/YRushClient.java:142-169 | a connected trainer is greeted once per session, with greeting and readiness, and the sequencer starts the session |
| YRushClientClass.YRushClient.Connect | client-mod/src/main/java/gg/wellplayed/yrush/client/YRushClient.java:552-564 | a new trainer connection is greeted when the player is in the game |
| YRushClientClass.YRushClient.Join | client-mod/src/main/java/gg/wellplayed/yrush/client/YRushClient.java:105-126 | joining the server releases the controls and greets a waiting trainer |
| YRushClientClass.YRushClient.Disconnect | client-mod/src/main/java/gg/wellplayed/yrush/client/YRushClient.java:575-591 | losing the trainer releases the controls, aborts the sequencer and forgets the greeting |
| YRushClientClass.YRushClient.LosePaper | client-mod/src/main/java/gg/wellplayed/yrush/client/YRushClient.java:128-140 | leaving the server aborts and reports a retryable error |
| YRushClientClass.YRushClient.ReceiveTrainer | client-mod/src/main/java/gg/wellplayed/yrush/client/YRushClient.java:171-194 | arms release the controls before they are judged; actions are queued; shutdown aborts; other messages are protocol failures |
| YRushClientClass.YRushClient.ReceiveYRush | client-mod/src/main/java/gg/wellplayed/yrush/client/YRushClient.java:196-226 | undecodable data is a protocol failure; a packet is parsed, sequenced and answered; every violation becomes an error message, released controls and an abort |
| YRushClientClass.YRushClient.StartEpisode | client-mod/src/main/java/gg/wellplayed/yrush/client/YRushClient.java:228-247 | readiness and then the first observation are sent with the controls released |
| YRushClientClass.YRushClient.FinishEpisode | client-mod/src/main/java/gg/wellplayed/yrush/client/YRushClient.java:249-269 | the final observation and then the result are sent with the controls released |
| YRushClientClass.YRushClient.StartTick | client-mod/src/main/java/gg/wellplayed/yrush/client/YRushClient.java:271-305 | a missed deadline is a failure; a queued action is latched for four ticks |
| YRushClientClass.YRushClient.EndTick | client-mod/src/main/java/gg/wellplayed/yrush/client/YRushClient.java:307-334 | the hold counts down, and at zero the action is acknowledged and observed with the controls released |
| YRushClientClass.YRushClient.ProtocolFailure | client-mod/src/main/java/gg/wellplayed/yrush/client/YRushClient.java:469-473 | an error is sent for the active arm, the controls are released and the sequencer aborts |
| YRushClientClass.YRushClient.SendObservation | client-mod/src/main/java/gg/wellplayed/yrush/client/YRushClient.java:336-391 | an observation carries the active arm and both sequence numbers and records the distance |
| ClientInvariants.ReceiveKeeps | client-mod/src/main/java/gg/wellplayed/yrush/client/core/RoundSequencer.java:128-237 | every accepted packet keeps the phase and field invariant and either rests, starts exactly the pending arm or ends the live episode, whose terminal outcome is then known |
| ClientInvariants.QueueKeeps | client-mod/src/main/java/gg/wellplayed/yrush/client/core/RoundSequencer.java:239-280 | an accepted action is the next one of the live episode, which held none, or the one spare action of the last; a refused one changes nothing |
| ClientInvariants.ArmKeeps | client-mod/src/main/java/gg/wellplayed/yrush/client/core/RoundSequencer.java:86-126 | an accepted arm is pending with a round beyond every earlier one and disturbs no episode |
| ClientInvariants.FinishEpisodeEffect | client-mod/src/main/java/gg/wellplayed/yrush/client/YRushClient.java:249-269 | an ended episode whose terminal outcome is known yields exactly the final observation and that result |
| ClientInvariants.HandleKeeps | client-mod/src/main/java/gg/wellplayed/yrush/client/YRushClient.java:171-334 | every handler keeps the invariant; completing an action never fails; the only unchecked exception comes from a packet without its counts |
| ClientInvariants.RunCrashesOnlyOnPoison | client-mod/src/main/java/gg/wellplayed/yrush/client/core/YRushPacket.java:73-109 | a run crashes if and only if some accepted packet names a direction but omits its target or a count |
| ClientTraces.HandleFollows | client-mod/src/main/java/gg/wellplayed/yrush/client/core/RoundSequencer.java:128-237 | what each handler announces is in order: start after rest, end of the started round, INACTIVE before the next |
| ClientTraces.EpisodesAlternate | client-mod/src/main/java/gg/wellplayed/yrush/client/core/RoundSequencer.java:128-237 | in every run, crashing ones included, starts and ends alternate, an INACTIVE lies between episodes, rounds rise between resets, and no episode ends twice |
| ClientActions.HandleTallies | client-mod/src/main/java/gg/wellplayed/yrush/client/core/RoundSequencer.java:239-304 | every handler accepts or acknowledges only the next action number of a round |
| ClientActions.ResetsForget | client-mod/src/main/java/gg/wellplayed/yrush/client/core/RoundSequencer.java:345-352 | every error, disconnection, shutdown and new session leaves a state that remembers no episode |
| ClientActions.ActionsExactlyOnce | client-mod/src/main/java/gg/wellplayed/yrush/client/core/RoundSequencer.java:239-304 | from any state that remembers no episode, until the next reset, every round's accepted actions are numbered 1..m and its acknowledged ones 1..k, m = k + 1 exactly for a held or race-consumed action |
| ClientActions.EveryStretchIsExactlyOnce | client-mod/src/main/java/gg/wellplayed/yrush/client/core/RoundSequencer.java:239-304 | the same for every stretch after a reset of any run of a launched client |
| ClientArms.PendingStep | client-mod/src/main/java/gg/wellplayed/yrush/client/core/RoundSequencer.java:113-125 | no input but a reset removes a pending arm except the ACTIVE packet that starts it |
| ClientArms.ArmNeverLost | client-mod/src/main/java/gg/wellplayed/yrush/client/core/RoundSequencer.java:113-125 | without a reset a pending arm stays pending over any run until it is started |
| ClientArms.ArmStartsWithTheNextRound | client-mod/src/main/java/gg/wellplayed/yrush/client/core/RoundSequencer.java:148-225 | from every reachable pending state INACTIVE, one or more countdowns and ACTIVE with the player alive start exactly that arm |
| ClientArms.ArmStartsInItsCountdown | client-mod/src/main/java/gg/wellplayed/yrush/client/core/RoundSequencer.java:113-125 | an arm accepted during a countdown starts with that very round if and only if the client is not still skipping an earlier one |
| ClientArms.ArmedInRound | client-mod/src/main/java/gg/wellplayed/yrush/client/core/RoundSequencer.java:113-125 | an arm accepted during a round or after its end waits for the next INACTIVE |
| ClientTiming.HandleOnTime | client-mod/src/main/java/gg/wellplayed/yrush/client/YRushClient.java:271-334 | the hold counter and the ticks elapsed since the controls were latched always add up to four |
| ClientTiming.ActionsHeldFourTicks | client-mod/src/main/java/gg/wellplayed/yrush/client/YRushClient.java:271-334 | from every state on time, every acknowledged action was held for exactly four ticks, with observations around it at least four ticks apart |
| ClientTiming.EveryActionIsHeldFourTicks | client-mod/src/main/java/gg/wellplayed/yrush/client/YRushClient.java:271-334 | the same for every run of a launched client, crashing ones included |
| ClientTiming.ControlsFollowTheAction | client-mod/src/main/java/gg/wellplayed/yrush/client/YRushClient.java:294-305 | in every run the controls are those of the running action, choice by choice, and neutral without one |
| ClientTiming.DeadlineEndsTheWait | client-mod/src/main/java/gg/wellplayed/yrush/client/core/RoundSequencer.java:306-309 | a client left without an action does nothing for 200 ticks after its observation and fails at the start of the next |
| YRushConnectionClass.YRushConnection.Handshake | trainer/src/yrush_trainer/wire.py:148-179 | greeting then readiness are required, each once and matching; the result is the fold of received messages |
| YRushConnectionClass.YRushConnection.ArmRound | trainer/src/yrush_trainer/wire.py:181-233 | sends one arm and reads until readiness and first observation match it; stale messages of earlier rounds are skipped |
| YRushConnectionClass.YRushConnection.Step | trainer/src/yrush_trainer/wire.py:235-290 | sends one action and reads until an active observation after its acknowledgement, or a final observation with its result |
| YRushConnectionClass.YRushConnection.Receive | trainer/src/yrush_trainer/wire.py:292-302 | one message is consumed per read; errors, shutdowns and wrong versions raise |
| ConnectionProvenance.StepsAreTold | trainer/src/yrush_trainer/wire.py:235-290 | a step hands back an observation and a result it was sent, and counts its action as applied if and only if a message read acknowledges exactly that action |
| ConnectionProvenance.ArmsAreTold | trainer/src/yrush_trainer/wire.py:181-233 | an arm hands back an initial observation it was sent and keeps the direction and target of a readiness for exactly this arm |
| ConnectionProvenance.HandshakesAreTold | trainer/src/yrush_trainer/wire.py:148-179 | a handshake ends with the session and identity it was sent |
| ConnectionProvenance.RequestsAnswerObservations | trainer/src/yrush_trainer/wire.py:235-290 | a step asked for after an exchange carries that exchange's observation, clock, round and policy and the next action number |
| ConnectionProvenance.MessagesAreJudged | trainer/src/yrush_trainer/wire.py:292-393 | a message raises if and only if it does not answer the call in progress, as a lost bridge if the client says so, else as a breach of the protocol |
| ConnectionProvenance.AnswersSetTheClock | trainer/src/yrush_trainer/wire.py:148-290 | acknowledgements and announcements never turn the client clock back, observations set it, leftovers and results leave it |
| ConnectionProvenance.StepsEndOnce | trainer/src/yrush_trainer/wire.py:256-290 | a step ends with an active observation, or with the second of final observation and result, whichever comes first |
| ConnectionProvenance.LeftoversAreSkipped | trainer/src/yrush_trainer/wire.py:204-228 | messages left over from earlier rounds change nothing |
| ConnectionProvenance.TimeoutsReadEverything | trainer/src/yrush_trainer/wire.py:292-302 | a call times out only after reading everything that arrived |
| ClientEffects.PacketEffect | client-mod/src/main/java/gg/wellplayed/yrush/client/YRushClient.java:196-226 | a packet in lifecycle order is never refused and either is invisible to the trainer, starts the pending episode or ends the live one validly |
| ClientEffects.ArmEffect | client-mod/src/main/java/gg/wellplayed/yrush/client/core/RoundSequencer.java:86-126 | a well-formed arm between episodes is accepted and becomes pending |
| ClientEffects.ActionEffect | client-mod/src/main/java/gg/wellplayed/yrush/client/core/RoundSequencer.java:239-280 | the next action is accepted, held while the episode lives and absorbed once after it ended |
| ClientEffects.ResultValidity | trainer/src/yrush_trainer/messages.py:77-185 | the final observation passes the trainer validation if and only if the session has an id and the counts add up; the result if and only if the session has an id, somebody took part, and the player was eliminated in the round or the outcome is WON or LOST exactly when the verdict is WIN |
| ClientEffects.FinalMessages | client-mod/src/main/java/gg/wellplayed/yrush/client/YRushClient.java:249-269 | the packet that ends an episode makes the client send one final observation and one result, which agree on round, session and counts; the result carries ELIMINATED if the packet is ACTIVE, else the packet's own outcome, and the packet's winner or none |
| ClientEffects.RepeatedCompletion | client-mod/src/main/java/gg/wellplayed/yrush/client/core/RoundSequencer.java:224-230 | a ROUND_COMPLETE after the client's episode ended, by elimination or completion, is accepted if and only if it says ELIMINATED; otherwise the client aborts |
| ClientExamples.ResultCanBeInvalid | client-mod/src/main/java/gg/wellplayed/yrush/client/core/YRushPacket.java:91-106 | a run from launch in which a parsed packet makes the client send a result the trainer rejects |
| ClientExamples.EmptyRoundIsRefused | trainer/src/yrush_trainer/messages.py:161-185 | a run from launch in which a parsed packet whose outcome fits its verdict makes the client send a result of 0 participants, which the trainer rejects |
| ClientExamples.CrowdedRoundIsRefused | trainer/src/yrush_trainer/messages.py:120-121 | a run from launch in which a parsed packet with 5 active of 2 makes the trainer reject the final observation before it reads the valid result |
| ClientExamples.CountlessPacketCrashes | client-mod/src/main/java/gg/wellplayed/yrush/client/core/RoundSequencer.java:133-138 | a run from launch in which a parsed packet without its counts crashes the client |
| ClientExamples.RepetitionCanAbort | client-mod/src/main/java/gg/wellplayed/yrush/client/core/RoundSequencer.java:224-230 | a run from launch in which a repeated winning ROUND_COMPLETE aborts the client |
| ClientExamples.ArmCanMissItsCountdown | client-mod/src/main/java/gg/wellplayed/yrush/client/core/RoundSequencer.java:345-352 | a run from launch in which an arm accepted during a countdown misses that countdown's round |
| ClientReports.HandleInforms | client-mod/src/main/java/gg/wellplayed/yrush/client/YRushClient.java:142-391 | every message of every handler says what an onlooker's board of ticks, packets and earlier messages shows: an observation the height to the target and the counts, a readiness the announced direction and target, a result the outcome and winner of the packet that ended the episode, the seconds since its readiness and the least distance of its observations |
| ClientReports.EveryReportIsTrue | client-mod/src/main/java/gg/wellplayed/yrush/client/YRushClient.java:228-391 | the same for every run of a launched client, crashing ones included |
| ClientRefusals.PacketsParse | client-mod/src/main/java/gg/wellplayed/yrush/client/core/YRushPacket.java:73-109 | a packet is acted on if and only if it has schema 1 and says everything about a running round and nothing of its end, or how the round ended with a named winner exactly for a WIN, or that nobody plays |
| ClientRefusals.ArmsAreJudged | client-mod/src/main/java/gg/wellplayed/yrush/client/core/RoundSequencer.java:86-126 | an arm is accepted if and only if it is of this session, identified, of a round beyond every earlier one, nothing is pending and no episode is live; the pending one may be repeated; every refusal names a reason that holds |
| ClientRefusals.ActionsAreJudged | client-mod/src/main/java/gg/wellplayed/yrush/client/core/RoundSequencer.java:239-280 | an action is accepted if and only if it is the next one of a live episode that holds none, or the spare one of the last; every refusal names a reason that holds |
| ClientRefusals.PacketsAreJudged | client-mod/src/main/java/gg/wellplayed/yrush/client/core/RoundSequencer.java:128-237 | a complete packet is refused if and only if it breaks the order of a round, and always as that |
| ClientRefusals.EventsAreTrue | client-mod/src/main/java/gg/wellplayed/yrush/client/core/RoundSequencer.java:128-237 | an accepted packet reports a start, an elimination, a completion or a clean-up exactly when it is one |
| ClientRefusals.PacketsFailClients | client-mod/src/main/java/gg/wellplayed/yrush/client/YRushClient.java:196-226 | a packet makes the client fail if and only if it does not parse or is out of order, with the matching error |
| ClientRefusals.RequestsFailClients | client-mod/src/main/java/gg/wellplayed/yrush/client/YRushClient.java:171-194 | a trainer message makes the client fail if and only if it has the wrong version, is none for a client, or is refused; a shutdown releases and forgets everything silently |
| ClientRefusals.EarlyTrainersAreGreeted | client-mod/src/main/java/gg/wellplayed/yrush/client/YRushClient.java:142-169 | a trainer that connects before the player is in the game is greeted when it is |
| ClientRefusals.LeavingFailsClients | client-mod/src/main/java/gg/wellplayed/yrush/client/YRushClient.java:128-169 | leaving the game fails retryably, and the player's return greets the trainer anew with a cleared session |
| SharedRoundSafety.RequestIsWelcome | client-mod/src/main/java/gg/wellplayed/yrush/client/core/RoundSequencer.java:86-304 | in the composed system the next request in flight is always one the client accepts |
| SharedRoundSafety.MessageIsWelcome | trainer/src/yrush_trainer/wire.py:181-290 | in the composed system the next message in flight never raises in the waiting call |
| SharedRoundSafety.ClientMoves | client-mod/src/main/java/gg/wellplayed/yrush/client/YRushClient.java:196-334 | whatever the client does on its own, trainer state, both channels and client state still fit together |
| SharedRoundSafety.NextKeeps | trainer/src/yrush_trainer/wire.py:181-290 | every trainer, client, server and tick step keeps the relation between both peers and both channels |
| SharedRoundSafety.ProtocolIsSafe | trainer/src/yrush_trainer/wire.py:181-290 | in every interleaving with lifecycle-ordered packets and met deadlines neither peer ever raises or sends an error, terminal races included |
| SharedRoundSafety.PeersAgree | trainer/src/yrush_trainer/wire.py:256-290 | an exchange has a result exactly when its action was not acknowledged, both peers count the same acknowledgements, and one action per finished episode is dropped |
| SharedRoundSafety.WaitingHasAReason | trainer/src/yrush_trainer/wire.py:181-290 | a waiting trainer with empty channels waits for a round its client is armed for or an action its client holds |
| SharedRoundProgress.DeliveriesEndTheCall | trainer/src/yrush_trainer/wire.py:181-290 | once anything is on its way to a waiting trainer, receiving what is on its way ends the call |
| SharedRoundProgress.RequestsDrain | client-mod/src/main/java/gg/wellplayed/yrush/client/YRushClient.java:171-194 | the client reads every request on its way, whatever the trainer is doing |
| SharedRoundProgress.ArmReturns | trainer/src/yrush_trainer/wire.py:181-233 | a pending arm call returns after INACTIVE, one or more countdowns, ACTIVE and the deliveries they cause, which together are a run of the composed system |
| SharedRoundProgress.StepReturns | trainer/src/yrush_trainer/wire.py:235-290 | a held action is acknowledged after the ticks it has left, four at most, and its call returns with the next observation, which together are a run of the composed system |
| EnvironmentSpec.CallsStayInTheirRound | trainer/src/yrush_trainer/wire.py:330-393 | whatever the client sends, a returning arm is of the requested round and policy and a returning step stays in its predecessor's |
| EnvironmentSpec.EpisodeSums | trainer/src/yrush_trainer/env.py:166-179 | over any exchanges reported progress telescopes to the distance gained, the return is the sum of rewards and the action count is the acknowledgements |
| EnvironmentSpec.RewardIsProgress | trainer/src/yrush_trainer/env.py:24-42 | a step that ends nothing earns a tenth of the blocks it came closer, clipped to one block, less 0.001; an ending adds 10 for WON, 0 for STOPPED, -1 for LOST, -2 for DRAW and -10 for ELIMINATED |
| EnvironmentSpec.CloserEarnsMore | trainer/src/yrush_trainer/env.py:24-42 | coming closer to the target never earns less |
| EnvironmentSpec.EndingsDominate | trainer/src/yrush_trainer/env.py:24-42 | WON, STOPPED, LOST, DRAW and ELIMINATED keep this order of worth whatever the last move, and a plain step earns between -0.101 and 0.099 |
| EnvironmentSpec.RewardsTelescope | trainer/src/yrush_trainer/env.py:24-42 | over small steps the return is a tenth of the distance gained, less a thousandth per step, plus the endings |
| EnvironmentSpec.StepHandsOn | trainer/src/yrush_trainer/env.py:159-180 | a reply hands on its exchange: observation, acknowledgement, result, and termination or, for a stop, truncation |
| EnvironmentSpec.ResetHandsOn | trainer/src/yrush_trainer/env.py:116-137 | a successful reset shows the armed observation with cleared totals and the announced direction; any other drops the episode |
| EnvironmentSpec.StepsStayInRound | trainer/src/yrush_trainer/env.py:139-180 | a step that moves stays in its round, and its episode goes on unless the reply ends it |
| YRushEnvClass.YRushEnv.ResetEpisode | trainer/src/yrush_trainer/env.py:98-137 | bad options change nothing; otherwise the episode begun is of the chosen round and policy with cleared totals; a failed connection changes nothing else, and a failed arm spends one identifier and ends the episode |
| YRushEnvClass.YRushEnv.BeginEpisode | trainer/src/yrush_trainer/env.py:116-137 | one identifier is spent, one arm runs on the connection, and a failure drops the episode and an owned connection |
| YRushEnvClass.YRushEnv.StepEpisode | trainer/src/yrush_trainer/env.py:139-180 | bad actions and missing episodes change nothing; otherwise one exchange in the same round, and the episode stays active exactly until it ends |
| YRushEnvClass.YRushEnv.TakeExchange | trainer/src/yrush_trainer/env.py:159-180 | reward, progress, counts and termination or truncation of one exchange |
| YRushEnvClass.YRushEnv.Fail | trainer/src/yrush_trainer/env.py:210-215 | the episode and its observation are dropped, and the connection if it is the environment's own |
| ActorEnvironment.EnvironmentsAreFaithful | trainer/src/yrush_trainer/pool.py:137-177 | whatever arrives on the wire, an actor that has seen what its environment shows gets a response with the round and policy of its command or observation, and then again has seen what its environment shows |
| ActorEnvironment.StepsHandOnTheirExchange | trainer/src/yrush_trainer/pool.py:152-177 | a step that returns hands on one exchange: validity, reward, flags and every field of its report are that exchange's |
| ActorEnvironment.ExchangesAreTold | trainer/src/yrush_trainer/pool.py:152-177 | that exchange is made of messages read during the call |
| Fleets.AnswersAreFaithful | trainer/src/yrush_trainer/pool.py:137-177 | in every sound joint state of scheduler, actors and environments every response is faithful to its command |
| Fleets.NextKeeps | trainer/src/yrush_trainer/pool.py:133-440 | every step of driver and actors keeps each actor in agreement with its environment on round and policy, unless its failure is posted |
| Fleets.FleetsRunPools | trainer/src/yrush_trainer/pool.py:133-440 | every run of a fleet, whatever arrives on its wires, is a run of its pool with faithful answers, so what holds in every run of a pool holds with the real environments |
| Fleets.StartedIsSound | trainer/src/yrush_trainer/pool.py:196-240 | a started pool with one environment for every actor is sound |
| ActorEnvironment.RealExchangesAreExclusive | trainer/src/yrush_trainer/env.py:217-254 | with the real client an exchange is a valid transition exactly when it does not end the episode |
| PoolClass.ClientPool.Submit | trainer/src/yrush_trainer/pool.py:92-98 | a command enters a free one-slot queue and is refused by a full one |
| PoolClass.ClientPool.ArmEveryone | trainer/src/yrush_trainer/pool.py:432-440 | every actor is armed with the current round and version, or the first full queue raises |
| PoolClass.ClientPool.TakeEvent | trainer/src/yrush_trainer/pool.py:323-380 | one event: departure, arming, a delivered or discarded transition, a result or a new observation to act on |
| PoolClass.ClientPool.ValueBatch | trainer/src/yrush_trainer/pool.py:305-321 | one next value per actor with a valid step in the batch, from the current policy |
| PoolClass.ClientPool.TakeEvents | trainer/src/yrush_trainer/pool.py:296-380 | a drained batch is processed in order until one event raises |
| PoolClass.ClientPool.SubmitActions | trainer/src/yrush_trainer/pool.py:404-423 | every available actor gets the policy's decision on its observation, then none is available |
| PoolClass.ClientPool.MeetBarrier | trainer/src/yrush_trainer/pool.py:382-402 | the round is reconciled, the boundary decides, and the next round is armed or the call stops |
| PoolClass.ClientPool.Turn | trainer/src/yrush_trainer/pool.py:296-423 | one turn of the driving loop over a nonempty prefix of the event queue |
| PoolClass.ClientPool.BeginDrive | trainer/src/yrush_trainer/pool.py:281-294 | a nonpositive round count is refused; otherwise the next round is entered with everybody armed |
| PoolInvariant.TakeKeeps | trainer/src/yrush_trainer/pool.py:133-134 | an actor taking its command keeps the partition and the homogeneity of the round |
| PoolInvariant.FinishKeeps | trainer/src/yrush_trainer/pool.py:137-179 | an actor posting its event keeps them too |
| PoolInvariant.NextValuesAreRight | trainer/src/yrush_trainer/pool.py:313-321 | with one event per actor the value dictionary holds each actor's own next value |
| PoolInvariant.ProcessAllKeeps | trainer/src/yrush_trainer/pool.py:323-380 | processing a batch keeps them, raising only for a departed client |
| PoolInvariant.SubmitKeeps | trainer/src/yrush_trainer/pool.py:404-423 | submitting never meets a full queue |
| PoolInvariant.FullMeansEveryone | trainer/src/yrush_trainer/pool.py:382-382 | as many results as clients means a result from every client, and there are never more |
| PoolSafety.IterateKeeps | trainer/src/yrush_trainer/pool.py:296-423 | a whole turn of the loop keeps the invariant at its head, barrier included |
| PoolSafety.PoolIsPartitioned | trainer/src/yrush_trainer/pool.py:296-440 | at every loop head of every run, repeated calls included, each actor has a result or exactly one outstanding operation |
| PoolSafety.DriveNeverStalls | trainer/src/yrush_trainer/pool.py:296-303 | at every loop head an actor without a result has an operation in flight that can move |
| PoolSafety.OnlyOthersFail | trainer/src/yrush_trainer/pool.py:329-388 | full queues, wrong rounds, incomplete pools and mixed rounds or versions are never raised |
| PoolSafety.PoliciesChangeOnlyAtRest | trainer/src/yrush_trainer/pool.py:390-402 | a turn changes the policy only when every actor is idle with its result |
| PoolSafety.EveryTransitionHasOnePolicy | trainer/src/yrush_trainer/pool.py:356-374 | every transition ever delivered carries the version, value, log-probability and next value of the one policy of its round |
| PoolDelivery.NextBooked | trainer/src/yrush_trainer/pool.py:137-440 | every step of driver and actors keeps the sink, the queue, the commands and the results in agreement with a notebook of the actors' answers and the actions picked for them |
| PoolDelivery.AnswersAreDelivered | trainer/src/yrush_trainer/pool.py:323-380 | the sink receives the valid steps the actors answered, in that order, each once, with the sight, action, reward, next sight and flags they had, episode start exactly for the first after an arm; between calls of drive it has them all |
| PoolDelivery.RecordsTellLastReports | trainer/src/yrush_trainer/pool.py:376-388 | the record a turn adds holds, actor by actor, the report of that actor's last answer |
| PoolLimit.TurnCrosses | trainer/src/yrush_trainer/pool.py:382-402 | a turn goes on below the limit, returns at it or is halted, each time with the policy the callback gave |
| PoolLimit.CallReturnsAtItsLimit | trainer/src/yrush_trainer/pool.py:283-402 | a call has completed fewer rounds than its limit while it runs, and returns exactly at it unless the callback halts it before |
| PoolLimit.CallStartsWithRoundsLeft | trainer/src/yrush_trainer/pool.py:281-294 | an accepted call starts driving with the given policy and limit and no round completed |
| PoolLimit.BadLimitsStartNothing | trainer/src/yrush_trainer/pool.py:283-284 | a limit starts nothing if and only if it is not positive |
| PoolAccounting.OneDiscardPerClientAndRound | trainer/src/yrush_trainer/pool.py:356-389 | a call of drive discards exactly the pool width times the rounds completed |
| Reconcile.WithKeepsMultiplicity | trainer/src/yrush_trainer/evaluation.py:194-197 | exactly the reports of one outcome, each as often as it occurs |
| RoundTruth.Sound | trainer/src/yrush_trainer/evaluation.py:145-252 | accepted reports all project from one possible ending, and the record is that ending |
| RoundTruth.CompleteReports | trainer/src/yrush_trainer/evaluation.py:145-252 | the reports of every possible ending are accepted and the record is that ending |
| RoundTruth.ReconciliationIsExact | trainer/src/yrush_trainer/evaluation.py:145-252 | reports are accepted if and only if some ending explains them, and then the record is the ending of all that do |
| RoundDisagreement.DisagreementsAreTrue | trainer/src/yrush_trainer/evaluation.py:151-235 | every error of reconciliation names something that is wrong with the reports |
| RoundElimination.LeastCountIsPlaying | trainer/src/yrush_trainer/evaluation.py:198-235 | whatever the order of eliminations, the least active count reported is the number of outsiders still playing at the last report |
| RoundElimination.EveryEliminationIsRecovered | trainer/src/yrush_trainer/evaluation.py:232-252 | a wholly eliminated pool is accepted, and recorded as a draw exactly when nobody was left playing |
| RoundElimination.CountsAreNotChecked | trainer/src/yrush_trainer/evaluation.py:232-235 | a report of 2 active of 2, which no order of eliminations gives, is accepted |
| RoundElimination.CountsFitExactly | trainer/src/yrush_trainer/evaluation.py:232-235 | counts come from some order of eliminations if and only if the pool is no larger than the round, every player was told of 1 to all participants out, and for every c at most c players were told that at most c were out |
| RoundElimination.EliminatedPoolAccepted | trainer/src/yrush_trainer/evaluation.py:232-235 | a wholly eliminated pool is accepted if and only if it is smaller than the round, or as large and its least count is 0 |
| RoundElimination.EliminatedPoolExplained | trainer/src/yrush_trainer/evaluation.py:232-252 | the reports of a wholly eliminated pool are explained by some order of eliminations if and only if their counts fit, and explained reports are accepted |
| RoundTruth.OnlyPlayersCanDisagree | trainer/src/yrush_trainer/evaluation.py:151-174 | a complete pool on the right round and version is refused only for what its players report |
| Gae.BackwardPass | trainer/src/yrush_trainer/rollout.py:152-160 | the backward loop fills its column with the recursive advantages and leaves the others alone |
| Gae.ClosedForm | trainer/src/yrush_trainer/rollout.py:151-160 | an advantage is the discounted sum of deltas up to and including the first done step |
| Gae.NothingLeaksAcrossDone | trainer/src/yrush_trainer/rollout.py:158-159 | advantages up to a done step are independent of everything after it |
| Gae.StepSensitivity | trainer/src/yrush_trainer/rollout.py:152-160 | changing one step changes the advantage by its discounted change of delta before the horizon and not at all beyond |
| Gae.BootstrapSensitivity | trainer/src/yrush_trainer/rollout.py:151-160 | a new bootstrap value of a step changes the advantage by its discounted change, and not at all if the step terminated |
| Gae.LambdaOneTelescopes | trainer/src/yrush_trainer/rollout.py:151-161 | with lambda 1 and chained next values, advantage plus value is the discounted return |
| Gae.AdvantageIsBounded | trainer/src/yrush_trainer/rollout.py:151-160 | deltas within D give |A| * (1 - gamma * lambda) within D |
| RolloutClass.RolloutCollector.Open | trainer/src/yrush_trainer/rollout.py:57-72 | empty, repeated or ill-set collectors are refused; others open empty and sorted |
| RolloutClass.RolloutCollector.AddTransition | trainer/src/yrush_trainer/rollout.py:74-92 | unknown actors and mixed versions are refused, full columns count a discard, others grow by one |
| RolloutClass.RolloutCollector.IsComplete | trainer/src/yrush_trainer/rollout.py:94-98 | complete exactly when every column is full |
| RolloutClass.RolloutCollector.PrepareRollout | trainer/src/yrush_trainer/rollout.py:104-178 | incomplete rollouts and bad settings are refused; otherwise every table is laid out step by client with advantages and returns |
| RolloutClass.FillAdvantages | trainer/src/yrush_trainer/rollout.py:151-161 | both tables are the recursive advantages, and those plus the values |
| RolloutOrder.SupplyOrderIsForgotten | trainer/src/yrush_trainer/rollout.py:68-71 | a collector does not depend on the order its actors were named in |
| RolloutOrder.ColumnsAreFirstArrivals | trainer/src/yrush_trainer/rollout.py:74-92 | each column is exactly its actor's first arrivals up to the length |
| RolloutOrder.OverflowIsCounted | trainer/src/yrush_trainer/rollout.py:87-90 | the discard count is exactly the arrivals beyond each actor's share |
| RolloutOrder.InterleavingIsForgotten | trainer/src/yrush_trainer/rollout.py:64-178 | histories whose per-actor beginnings agree prepare identical rollouts or fail alike |
| RolloutTables.PreparedWhenFull | trainer/src/yrush_trainer/rollout.py:104-116 | a rollout is prepared if and only if every column is full, 0 < gamma <= 1 and 0 <= lambda <= 1 |
| RolloutTables.PreparedEntries | trainer/src/yrush_trainer/rollout.py:118-178 | entry [t][i] of every table is that field of step t of the i-th actor's column, its advantage is the recursive one, and its value target is advantage plus value |
| RolloutTables.PreparedArrivals | trainer/src/yrush_trainer/rollout.py:74-178 | the same with the i-th actor's arrival t, whatever came between its arrivals |
| TrainingClass.Trainer.constructor | trainer/src/yrush_trainer/training.py:130-138 | training begins with an open collector for the first policy |
| TrainingClass.Trainer.ReceiveTransition | trainer/src/yrush_trainer/training.py:170-180 | a transition is stored, turned away or discarded while optimizing; a full rollout goes to the optimizer |
| TrainingClass.Trainer.CloseRollout | trainer/src/yrush_trainer/training.py:176-180 | the complete rollout is handed over with the policy that produced it and no collector stays open |
| TrainingClass.Trainer.EndOptimization | trainer/src/yrush_trainer/training.py:144-155 | the optimizer's result enters a free output slot |
| TrainingClass.Trainer.AtBoundary | trainer/src/yrush_trainer/training.py:182-239 | failure and staleness raise; a finished optimization becomes the active policy and opens the next rollout unless it was the last |
| TrainingInvariant.ReceiveKeeps | trainer/src/yrush_trainer/training.py:170-180 | delivering a transition never fails and files it under exactly one heading |
| TrainingInvariant.FinishKeeps | trainer/src/yrush_trainer/training.py:144-155 | the output slot is always free when the optimizer ends |
| TrainingInvariant.SwitchKeeps | trainer/src/yrush_trainer/training.py:182-239 | a boundary raises only for an optimizer failure, stops only when all updates are made, and never sees a stale version |
| TrainingRun.NextKeeps | trainer/src/yrush_trainer/training.py:141-248 | every step of actors, driver and optimizer keeps scheduler and trainer in agreement |
| TrainingRun.HandoffIsOrderly | trainer/src/yrush_trainer/training.py:130-239 | while driving the active version counts the updates and exactly one of collecting, optimizing or holding a result is going on |
| TrainingRun.OnlyOutsidersFail | trainer/src/yrush_trainer/training.py:182-200 | stale policies, mixed or unknown transitions and incomplete rollouts are never raised |
| TrainingRun.TransitionsAreConserved | trainer/src/yrush_trainer/training.py:170-239 | valid transitions are always those of closed rollouts, the open one, those turned away and those discarded while optimizing |
| TrainingRun.NormalEndIsComplete | trainer/src/yrush_trainer/training.py:239-250 | a normal end has made exactly the configured updates from as many full rollouts, with none half collected, and returns the active policy |
| TrainingModels.NextKept | trainer/src/yrush_trainer/training.py:141-248 | every step keeps the active model, the waiting result and the rollouts in agreement with a ledger of the models learned |
| TrainingModels.ModelsTakeOverInOrder | trainer/src/yrush_trainer/training.py:182-239 | after k updates the active model, which the clients play, is exactly the k-th one learned |
| TrainingModels.LearnedModelTakesOver | trainer/src/yrush_trainer/training.py:182-239 | at the next recorded round the critic and likelihood learned last become those of the active policy and of the clients |
| TrainingModels.RolloutsAreOnPolicy | trainer/src/yrush_trainer/training.py:144-180 | the rollout being optimized shows each client's first transitions delivered since the last update, all valued and judged by the very model the optimizer starts from |
| VoxelOrientation.YawSplits | client-mod/src/main/java/gg/wellplayed/yrush/client/core/VoxelOrientation.java:45-60 | every yaw is 90 times the quarter plus a residual in [-45, 45), up to full turns |
| VoxelOrientation.SplitIsUnique | client-mod/src/main/java/gg/wellplayed/yrush/client/core/VoxelOrientation.java:45-60 | no other quarter and residual do |
| VoxelOrientation.QuarterTurn | client-mod/src/main/java/gg/wellplayed/yrush/client/core/VoxelOrientation.java:45-60 | turning by 90 degrees moves to the next axes and keeps the residual |
| VoxelOrientation.ProjectionFollowsYaw | client-mod/src/main/java/gg/wellplayed/yrush/client/core/VoxelOrientation.java:18-30 | the projection is on the exact look direction and its right-hand side |
| VoxelOrientation.ProjectionPreservesSpeed | client-mod/src/main/java/gg/wellplayed/yrush/client/core/VoxelOrientation.java:18-30 | forward and strafe velocity keep the horizontal speed |
| VoxelEncoding.Encode | client-mod/src/main/java/gg/wellplayed/yrush/client/core/VoxelOrientation.java:62-84 | the nested loops write the 500 bytes of the positional encoding |
| VoxelEncoding.ByteOfCell | client-mod/src/main/java/gg/wellplayed/yrush/client/core/VoxelOrientation.java:70-82 | every property of every cell stands at its documented byte |
| VoxelEncoding.LayoutInNumbers | client-mod/src/main/java/gg/wellplayed/yrush/client/core/VoxelOrientation.java:62-84 | byte 100(up+2) + 20(forward+2) + 4(right+2) and the three after it are collision, fluid, hazard and breakable of the block at that offset |
| VoxelEncoding.CellsFollowAxes | client-mod/src/main/java/gg/wellplayed/yrush/client/core/VoxelOrientation.java:10-30 | a cell lies exactly as far forward and right, along the axes velocities are projected on, as it says |
| VoxelEncoding.EachBlockOnce | client-mod/src/main/java/gg/wellplayed/yrush/client/core/VoxelOrientation.java:10-16 | every block of the cube around the feet is looked at for exactly one cell |
| VoxelEncoding.NothingOutside | client-mod/src/main/java/gg/wellplayed/yrush/client/core/VoxelOrientation.java:62-84 | no cell looks outside the cube |
| VoxelEncoding.EncodingIsEgocentric | client-mod/src/main/java/gg/wellplayed/yrush/client/core/VoxelOrientation.java:62-84 | turning world and player together by 90 degrees changes no byte |
| Framing.SocketTransport.ReadExact | trainer/src/yrush_trainer/wire.py:77-91 | exactly the wanted bytes, however the network cuts them, unless the peer closes first |
| Framing.SocketTransport.Receive | trainer/src/yrush_trainer/wire.py:59-70 | one frame, a bad length or the end, as the byte stream alone determines |
| Framing.SocketTransport.Send | trainer/src/yrush_trainer/wire.py:48-57 | payloads of 1 byte to 1 MiB are framed and others refused |
| Framing.FramedProtobuf.ReadMessage | client-mod/src/main/java/gg/wellplayed/yrush/client/core/FramedProtobuf.java:17-28 | the client's signed reader reads the same frames |
| Framing.FramedProtobuf.WriteMessage | client-mod/src/main/java/gg/wellplayed/yrush/client/core/FramedProtobuf.java:30-39 | the client frames the same payloads the same way |
| FramingSpec.HeaderRoundTrip | trainer/src/yrush_trainer/wire.py:53-61 | every length is read back from its header |
| FramingSpec.HeaderIsBigEndian | trainer/src/yrush_trainer/wire.py:53-57 | the most significant byte of a length comes first |
| FramingSpec.ReadersAgree | client-mod/src/main/java/gg/wellplayed/yrush/client/core/FramedProtobuf.java:19-22 | signed and unsigned readers accept the same headers and agree on the length |
| FramingSpec.WireGrows | client-mod/src/main/java/gg/wellplayed/yrush/client/core/FramedProtobuf.java:35-38 | writing one more message appends its frame |
| FramingSpec.RoundTrip | trainer/src/yrush_trainer/wire.py:48-91 | reading back what was sent gives every message, whatever follows |
| FramingSpec.CutStream | trainer/src/yrush_trainer/wire.py:59-91 | a stream cut anywhere gives an initial part of the messages and then its end |

## Left out

- Sockets, threads, timeouts and reconnection: a session is one pair of FIFO channels, a thread is a
  set of atomic steps, a timeout is an abort step or the end of a run, and a send that fails is a
  disconnection.
- SharedRoundSafety.ProtocolIsSafe: assumes one session, packets in lifecycle order and no missed action
  deadline, because each of these is outside both peers' control.
- ClientTiming.ActionsHeldFourTicks: assumes that client ticks start and end in turn, as the game loop
  calls them.
- Protobuf and JSON encoding, UUID syntax and normalisation of text: messages and packets are records
  constrained by the validity rules.
- Machine integers: ticks, sequences, identifiers and block coordinates are unbounded, so wrap-around
  of 64-bit counters and 32-bit coordinates is not modelled.
- Floating point: rewards, angles and advantages are exact reals, so rounding, 32-bit storage and the
  finiteness checks are absent; sine and cosine are any pair on the unit circle.
- Sensors: an observation keeps the height difference, counts and sequence numbers; block, inventory,
  motion and remaining-time features are not part of this model, nor are the camera part of an action
  and mining-tool selection.
- The absent player: the handlers of packets and ticks assume the player is in the game; trainer
  messages are read whether or not it is.
- RoundSequencerClass.RoundSequencer.constructor: has no tick of the last packet and no initial seconds
  of the round, which only the remaining-time feature reads.
- RoundSequencerClass.RoundSequencer.Receive: does not record the tick of the packet, for that reason.
- RoundSequencerClass.RoundSequencer.ReceiveActive: does not record the seconds the round starts with,
  for that reason.
- YRushClientClass.YRushClient.Join: writes no readiness file; and in a run (`ClientSpec.Handle`) a
  client that is greeted is told of no second join before it has left the server, because the game
  disconnects before it joins again.
- YRushClientClass.YRushClient.EndTick: has no branch for an absent player, which releases the controls.
- YRushClientClass.YRushClient.LosePaper: the readiness file and the reconnection schedule are not
  modelled.
- YRushClientClass.YRushClient.StartEpisode: selects no mining tool.
- YRushClientClass.YRushClient.StartTick: turns no camera and attempts no reconnection.
- YRushClientClass.YRushClient.SendObservation: sends no block, motion, health or remaining-time fields.
- RolloutClass.RolloutCollector.AddTransition: has no non-finite data to refuse, because values are reals.
- RolloutClass.RolloutCollector.PrepareRollout: has no non-finite tables to refuse, for that reason.
- PoolClass.ClientPool.SubmitActions: takes one sampled action per available actor, so the shape of the
  sampled batch cannot be wrong.
- Two clients armed for the same trainer round may play in different server rounds; nothing is claimed
  about that.
- Learning itself: a policy is a version with a row-wise critic and likelihood, sampled actions are
  inputs, and the optimizer is a step that may come at any time and may fail.
- PoolClass.ClientPool.TakeEvents: events leave the queue one at a time instead of being drained
  first; the two differ only after an exception. Actors are values in a map, so sharing between
  threads is not modelled, and startup, closing and statistics are absent.
- PoolClass.ClientPool.MeetBarrier: after an exception only the exception is stated, because the pool
  is closed.
- YRushEnvClass.YRushEnv.ResetEpisode: the messages a newly opened connection will deliver are an
  argument; clipping counts and normalised features are absent.
- TrainingClass.Trainer.CloseRollout: with the validated settings preparing a complete rollout cannot
  fail, so the method has no failing branch.
- Checkpoints, run directories, evaluation and promotion of policies, metrics and console output: input
  and output without a protocol.
- ReconnectBackoff, RenderPlan and the camera part of ActionVector: small tables and arithmetic.
- The replay renderer, the server entrypoint and the build files.
