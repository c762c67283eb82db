# Bomb Canary, modelled in Dafny

Bomb Canary is a browser game in the style of The Resistance. A Go server
keeps one game per party and turns the players' actions into bus commands.
A game hub applies those commands to the game rules and publishes the
resulting events. The events are routed to each browser over a stream,
with per-player privacy, and a replayer resends them when a player
reconnects. The TypeScript client decodes the streamed events and hands
them to a message bus. Consumers on that bus update the stores. Small view
services compute what each screen shows and dispatch commands, which are
posted back to the server as actions.

This project models that core in Dafny and proves properties of the model:

- **Server game rules**
  - `GameRulesPlayers`: the roster, with its 5/10 bounds.
  - `GameRulesGame`: the game's own roster operations.
  - `MissionResults`: the mission-result map.
  - `Votes`: the approval map.
- **Party plumbing**
  - `CodeGenerator`: the party-code generator.
  - `GameHub` and `GameRegistry`: the game hub, every one of its handlers, and its code→game map.
  - `Service`, `Party` and `Sessions`: the party service, the party API service and the session store.
  - `ActionService`: the player action service.
  - `MessageLogger`: the message logger.
- **Streaming to clients**
  - `ClientEventBroker`: routes bus events to client events, keeping votes and mission cards private.
  - `EventReplayer`: the event replayer.
  - `ClientStreamer`, `Outboxes` and `LegacyClients`: the current and older client streamers.
- **Client**
  - `StreamHandler`: the stream handler that decodes raw events.
  - `ClientMessageBus`: the message bus.
  - Five bus consumers: `GameConsumer`, `PageConsumer`, `ReplayConsumer`, `ResetConsumer`, `PlayerConsumer`.
  - `PlayerActionsClient`: the client's action poster.
  - `ClientStore`: the page store.
  - `ValueBrokers`: the value brokers.
  - The component services: `MissionTracker`, `TeamSelection`, `MissionConducting`, `TeamVoteService`, `MissionDetails`, `EndGame`, `Identity`, `PartyRoom`, `GamePhaseService`, `PageService`.

The form follows the source. Code that computes a value is modelled as
functions and lemmas. Objects whose fields change in place are modelled as
classes with `modifies` clauses:

- the hub and its registry;
- the streamer and the replayer;
- the code generator;
- the vote map and the mission results;
- the session and party services;
- the client store and the message bus.

Loops in the source are methods with loop invariants, proved against a
specification function:

- the roster search in `players.remove`;
- the replay walk;
- the fan-outs;
- the code generator's draw loop;
- the allegiance reveal.

Collaborators the code only calls are parameters of the model:

- the abstract `gamerules.Game` is the `Rules<G>` record in `GameRulesInterface`;
- the message dispatcher is a log of dispatched messages;
- the random rune source is a function of the draw count;
- the printer is a returned call.

## Model

| member | source | states |
|---|---|---|
| GameRulesPlayers.FirstIndex | server/gamerules/players.go:41-48 | none exactly when the name is absent; otherwise a position holding the name with no earlier occurrence |
| GameRulesPlayers.Index | server/gamerules/players.go:41-48 | found iff the name is in the roster; then the first index, otherwise -1 |
| GameRulesPlayers.Exists | server/gamerules/players.go:50-53 | true iff the name is in the roster |
| GameRulesPlayers.HasMinNumberOfPlayers | server/gamerules/players.go:5-8 | true iff the roster has at least 5 players |
| GameRulesPlayers.Add | server/gamerules/players.go:19-29 | a full roster of 10 is refused with errAlreadyMaxNumberOfPlayers before the duplicate check; a present name is refused with errPlayerAlreadyInGame; both leave the roster unchanged; otherwise the name is appended |
| GameRulesPlayers.Remove | server/gamerules/players.go:31-39 | an absent name gives errPlayerNotFound and the same roster; otherwise exactly the first occurrence is deleted and the others keep their order |
| GameRulesPlayers.AddKeepsValid | server/gamerules/players.go:19-29 | add keeps the roster free of duplicates and at most 10 long, whether it succeeds or not |
| GameRulesPlayers.RemoveKeepsValid | server/gamerules/players.go:31-39 | remove keeps the roster invariant |
| GameRulesPlayers.AddThenRemove | server/gamerules/players.go:19-39 | adding a new name to a non-full roster succeeds, and removing it again restores the roster |
| GameRulesGame.NewGame | server/gamerules/game.go:41-43 | the new game has the given id, state notStarted and no players |
| GameRulesGame.AddPlayer | server/gamerules/game.go:45-48 | appends the name with no duplicate or size check; id and state unchanged |
| GameRulesGame.RemoveFromPlayers | server/gamerules/game.go:17-33 | linear search for the first match; absent gives PlayerNotFound and the same list; present deletes exactly that occurrence into a new list |
| GameRulesGame.RemovePlayer | server/gamerules/game.go:50-57 | an absent player gives an error and the same game; otherwise id and state are kept and the roster loses the first occurrence |
| GameRulesGame.AddThenRemoveRestores | server/gamerules/game.go:45-57 | removing a player just added restores the roster |
| GameRulesGame.RemoveDropsOneCopy | server/gamerules/game.go:17-33 | removal yields a roster one shorter with the same multiset less the name |
| GameRulesGame.FindPlayer | server/gamerules/game.go:18-26 | the search stops at the first match: found iff the name is listed, and the index is its first position |
| GameRulesGame.ShiftDownFrom | server/gamerules/game.go:32 | the tail after the index moves one place down in the backing array; the last slot keeps its old value |
| GameRulesGame.RemoveInBackingArray | server/gamerules/game.go:17-33 | the code as written: `append(p[:i], p[i+1:]...)` shifts the receiver's backing array left over the removed slot |
| GameRulesGame.ReceiverSeesShiftedPlayers | server/gamerules/game.go:32 | removing Alice from [Alice, Bob, Carol] leaves the receiver's slice reading [Bob, Carol, Carol] |
| MissionResults.OutcomesPartition | server/gamerules/mission_results.go:25-36 | every recorded mission counts as exactly one success or one failure |
| MissionResults.Results.constructor | server/gamerules/mission_results.go:6 | a results map holding the given entries |
| MissionResults.Results.Copy | server/gamerules/mission_results.go:5-11 | a fresh map with the same entries |
| MissionResults.Results.SucceedMission | server/gamerules/mission_results.go:13-17 | a fresh copy with the mission set to true; the receiver is unchanged |
| MissionResults.Results.FailMission | server/gamerules/mission_results.go:19-23 | a fresh copy with the mission set to false; the receiver is unchanged |
| MissionResults.CountOneMore | server/gamerules/mission_results.go:25-36 | counting one more mission adds one to its outcome's count and nothing to the other |
| MissionResults.Results.HasThreeSuccessesOrFailures | server/gamerules/mission_results.go:25-36 | true iff exactly 3 successes or exactly 3 failures are recorded |
| MissionResults.RecordingOverwrites | server/gamerules/mission_results.go:13-23 | recording a mission again overwrites the earlier outcome |
| MissionResults.SucceedingNewMissionCounts | server/gamerules/mission_results.go:13-17 | succeeding a new mission adds one success and no failure |
| Votes.VoteMap.constructor | server/gamerules/votes.go:14-16 | a new map holds no votes |
| Votes.ApproveBy | server/gamerules/votes.go:13-24 | a nil map becomes a fresh map holding this approval; a player who already approved gets errPlayerHasAlreadyVoted and the map is unchanged; otherwise the approval is recorded in place |
| Votes.Approved | server/gamerules/votes.go:22 | the player is approved and every other entry is kept |
| Votes.ApproveAfterReject | server/gamerules/votes.go:18-22 | a player recorded as not approving may still approve; a second approval is refused |
| CodeGenerator.Utf8Length | server/codegenerator/code_generator.go:37-38 | the UTF-8 width of a rune is 1 to 4 bytes, and 1 exactly for ASCII |
| CodeGenerator.ByteLength | server/codegenerator/code_generator.go:38 | Go's `len` of a string is at least its rune count |
| CodeGenerator.IsComplete | server/codegenerator/code_generator.go:38 | a code counted complete is at least 6 bytes long |
| CodeGenerator.AsciiByteLength | server/codegenerator/code_generator.go:38 | an ASCII string is as many bytes as runes |
| CodeGenerator.AsciiTestsAgree | server/codegenerator/code_generator.go:38 | on ASCII codes the byte test as written and the six-rune test agree, so the correction changes nothing there |
| CodeGenerator.AsWrittenAcceptsTwoRunes | server/codegenerator/code_generator.go:38 | as written, the 2-rune code "€€" passes the length test |
| CodeGenerator.AsWrittenNeverCompletes | server/codegenerator/code_generator.go:36-45 | as written, a code that reaches 7 bytes ("ABCDEé") never passes the test, however it grows |
| CodeGenerator.Candidate | server/codegenerator/code_generator.go:35-37 | the k-th attempt is the next 6 runes of the source |
| CodeGenerator.Generator.constructor | server/codegenerator/code_generator.go:13-19 | no code generated yet |
| CodeGenerator.Generator.CheckAndSetCodeSuccessfully | server/codegenerator/code_generator.go:21-32 | true iff the code was never generated; either way it is in the set afterwards |
| CodeGenerator.Generator.GenerateCode | server/codegenerator/code_generator.go:34-47 | returns the first fresh 6-rune candidate, records it, and every earlier candidate was already taken and discarded whole |
| CodeGenerator.CollisionIsSkipped | server/codegenerator/code_generator.go:39-43 | with a source repeating "ABCDEF", the second code skips the taken one |
| GameHub.CommonVoteOutgoingMessages | server/gamehub/gamehub.go:211-256 | two events exactly in the SelectingTeam, ConductingMission and GameOver states and none otherwise; the first is AllPlayerVotedOnTeam, approved only when the mission starts |
| GameHub.WinnerOf | server/gamehub/gamehub.go:328-334 | Spy iff the rules' winner is Spy; Resistance iff it is Resistance |
| GameHub.CommonMissionOutgoingMessages | server/gamehub/gamehub.go:302-344 | two events exactly in the SelectingTeam and GameOver states; the first is MissionCompleted with the result at CurrentMission()-1 |
| GameHub.CommonEventsCarryCode | server/gamehub/gamehub.go:211-256 | the events that follow a vote or a mission action all carry the party's code |
| GameHub.EventsCarryPartyCode | server/gamehub/gamehub.go:76-344 | every event a handler emits carries the command's party code, and there are at most 3 |
| GameHub.NonLeaderIsIgnored | server/gamehub/gamehub.go:108-111 | a select, deselect or confirm from anyone but the leader keeps the game and emits nothing (also 129-132, 150-153) |
| GameHub.LeaderCommandOutcome | server/gamehub/gamehub.go:105-165 | from the leader, the rules' game is stored and the one matching event is emitted iff the rules accept |
| GameHub.RefusedJoinOrStartKeepsRulesGame | server/gamehub/gamehub.go:76-103 | a refused join or start emits nothing but stores the game the rules returned; an accepted one emits PlayerJoined or LeaderStartedToSelectMembers with the new leader |
| GameHub.RefusedPlayerActionRestoresGame | server/gamehub/gamehub.go:171-174 | a refused vote or mission action restores the current game and emits nothing (also 193-196, 262-265, 284-287) |
| GameHub.AcceptedVoteEvents | server/gamehub/gamehub.go:167-256 | an accepted vote emits PlayerVotedOnTeam with the choice, followed by the events for the new state; a game lost on votes ends with Spy as the winner |
| GameHub.AcceptedMissionEvents | server/gamehub/gamehub.go:258-344 | an accepted mission action emits PlayerWorkedOnMission, then MissionCompleted with the next leader or the winner |
| GameHub.Hub.constructor | server/gamehub/gamehub.go:25-32 | an empty code→game map |
| GameHub.Hub.GameFor | server/gamehub/gamehub.go:72-74 | the stored game, or the zero game for an unknown code |
| GameHub.Hub.CreateParty | server/gamehub/gamehub.go:34-38 | stores a new game under the generated code and returns that code |
| GameHub.Hub.DispatchAll | server/gamehub/gamehub.go:67-69 | the events are dispatched in order, each once, after the ones dispatched before |
| GameHub.Hub.HandleMessage | server/gamehub/gamehub.go:40-70 | unhandled messages change nothing; otherwise the handler's game is stored under the code, even a code with no party, and its events are dispatched in order; other parties are untouched |
| GameRegistry.Games.constructor | server/gamehub/games.go:14-19 | an empty map |
| GameRegistry.Games.Create | server/gamehub/games.go:21-25 | a new game is stored under the code |
| GameRegistry.Games.Get | server/gamehub/games.go:27-32 | found iff the code is stored; then its game, otherwise the zero game |
| GameRegistry.Games.Set | server/gamehub/games.go:34-38 | the game is stored under the code and nothing else changes |
| GameRegistry.CreateThenSet | server/gamehub/games.go:21-38 | after create then set, both codes are known, a set overrides, and every other code keeps its presence and its game |
| Service.PartyGames.constructor | server/service/service.go:25-31 | no games, nothing dispatched |
| Service.PartyGames.GameFor | server/service/service.go:53-55 | the stored game, or the zero game |
| Service.PartyGames.CreateParty | server/service/service.go:33-37 | stores a new game under the code |
| Service.PartyGames.HandleMessage | server/service/service.go:39-51 | a refused join errors and changes nothing; an accepted join stores the updated game and dispatches PlayerJoined; other messages are ignored |
| Party.PartyService.constructor | server/party/party.go:27-33 | nothing dispatched |
| Party.PartyService.CreateParty | server/party/party.go:35-37 | returns the code the hub created |
| Party.PartyService.JoinParty | server/party/party.go:39-46 | an unknown party gives a CantJoinParty error and dispatches nothing; otherwise exactly one JoinParty command is dispatched |
| Sessions.SessionStore.constructor | server/sessions/sessions.go:20-26 | no sessions |
| Sessions.SessionStore.Create | server/sessions/sessions.go:28-39 | stores the session under the generated id, returns that id, and keeps every other session |
| ActionService.StartGameCommand | server/playeractions/actions.go:19-21 | a StartGame command without a party code |
| ActionService.LeaderSelectsMemberCommand | server/playeractions/actions.go:23-30 | a LeaderSelectsMember command carrying leader and member |
| ActionService.LeaderDeselectsMemberCommand | server/playeractions/actions.go:32-39 | a LeaderDeselectsMember command carrying leader and member |
| ActionService.LeaderConfirmsTeamCommand | server/playeractions/actions.go:41-47 | a LeaderConfirmsTeamSelection command carrying the leader |
| ActionService.ApproveTeamCommand | server/playeractions/actions.go:49-55 | an ApproveTeam command carrying the player |
| ActionService.RejectTeamCommand | server/playeractions/actions.go:57-63 | a RejectTeam command carrying the player |
| ActionService.SucceedMissionCommand | server/playeractions/actions.go:65-71 | a SucceedMission command carrying the player |
| ActionService.FailMissionCommand | server/playeractions/actions.go:73-79 | a FailMission command carrying the player |
| ActionService.ActionsAreDistinctCommands | server/playeractions/actions.go:19-79 | every action yields a command, and opposite actions yield different commands |
| BusMessages.AllegianceName | server/messagebus/events.go:83-88 | the string is "spy" exactly for Spy |
| BusMessages.TypeOf | server/messagebus/commands.go:7-9 | commands report CommandMessage and events report EventMessage (events.go:7-9); only foreign messages report neither |
| BusMessages.Names | server/clientstream/client_event_broker.go:56 | the names of an allegiance listing, in order |
| MessageLogger.Consume | server/messagelogger/logger.go:20-27 | a command is printed as a command, an event as an event, and anything else is not printed |
| ClientEventBroker.NamesWith | server/clientstream/client_event_broker.go:56-62 | the selected names are a sub-listing |
| ClientEventBroker.NamesWithMembers | server/clientstream/client_event_broker.go:56-62 | a name is selected iff it is listed with that allegiance |
| ClientEventBroker.SpySet | server/clientstream/client_event_broker.go:55-61 | the spy set holds exactly the names listed as spies |
| ClientEventBroker.ToEach | server/clientstream/client_event_broker.go:63-65 | one SendToPlayer of the event per name, in order |
| ClientEventBroker.Route | server/clientstream/client_event_broker.go:42-98 | every send goes to the bus message's party |
| ClientEventBroker.Consume | server/clientstream/client_event_broker.go:42-98 | the sends made are exactly the routing of the message |
| ClientEventBroker.TellResistance | server/clientstream/client_event_broker.go:55-62 | the first loop tells each Resistance player, in listing order, that there are no spies, and collects exactly the spies |
| ClientEventBroker.TellSpies | server/clientstream/client_event_broker.go:63-65 | the second loop sends every collected spy the spy set |
| ClientEventBroker.RevealSendsToPlayers | server/clientstream/client_event_broker.go:54-65 | every send of the reveal goes to one player and carries SpiesRevealed |
| ClientEventBroker.RevealAllegiances | server/clientstream/client_event_broker.go:54-65 | the two loops send SpiesRevealed to the Resistance players first, then to the spies with the spy set |
| ClientEventBroker.Recipients | server/clientstream/client_event_broker.go:58-64 | the names a list of player sends addresses, in order |
| ClientEventBroker.SplitByAllegiance | server/clientstream/client_event_broker.go:56-62 | splitting the listing by allegiance loses no one and adds no one |
| ClientEventBroker.RevealRecipients | server/clientstream/client_event_broker.go:54-65 | every reveal is a SpiesRevealed to one player; the Resistance players come first, then the spies |
| ClientEventBroker.EachPlayerToldOnce | server/clientstream/client_event_broker.go:54-65 | on AllegianceRevealed every listed player is told, as often as they are listed |
| ClientEventBroker.OnlySpiesLearnSpies | server/clientstream/client_event_broker.go:57-64 | Resistance players receive no spy list; spies receive exactly the spy set |
| ClientEventBroker.SpiesMatchAllegiance | server/clientstream/client_event_broker.go:57-64 | a reveal carries no spies iff its recipient is Resistance |
| ClientEventBroker.SpyIsNotResistance | server/clientstream/client_event_broker.go:55-61 | in a listing of a Go map, no one is both spy and Resistance |
| ClientEventBroker.ChoicesStayPrivate | server/clientstream/client_event_broker.go:79-91 | a vote or card choice goes only to its own player; everyone else gets the event without the choice |
| ClientEventBroker.RouteShape | server/clientstream/client_event_broker.go:42-98 | public events are exactly one party-wide send; votes and cards are two sends; unrouted messages send nothing |
| ClientEventBroker.SummariesCopied | server/clientstream/client_event_broker.go:83-97 | MissionCompleted reports the failure count (0 when absent); GameEnded reports the winner's name; AllPlayerVotedOnTeam copies its fields |
| EventReplayer.Replay | server/clientstream/event_replayer.go:54-62 | at most one send per log entry |
| EventReplayer.Replayer.constructor | server/clientstream/event_replayer.go:30-36 | empty log, nothing forwarded |
| EventReplayer.Replayer.Record | server/clientstream/event_replayer.go:64-68 | appends one entry to the log |
| EventReplayer.Replayer.Send | server/clientstream/event_replayer.go:70-73 | logs the event for everyone, then forwards it |
| EventReplayer.Replayer.SendToPlayer | server/clientstream/event_replayer.go:75-78 | logs the event for that player, then forwards it |
| EventReplayer.Replayer.SendToAllButPlayer | server/clientstream/event_replayer.go:80-83 | logs the event for all but that player, then forwards it |
| EventReplayer.Replayer.SendReplayableMessages | server/clientstream/event_replayer.go:54-62 | forwards to the player every logged entry meant for them, in log order |
| EventReplayer.Replayer.Consume | server/clientstream/event_replayer.go:38-52 | on PlayerConnected, forwards replay-started, the replay and replay-ended to that player; otherwise forwards nothing |
| EventReplayer.ReplayConcat | server/clientstream/event_replayer.go:54-62 | replaying a log in two parts replays each part in turn |
| EventReplayer.ReplayExactly | server/clientstream/event_replayer.go:56-59 | everything replayed is addressed to the player and was meant for them, and every entry meant for them is replayed |
| EventReplayer.LaterReplayExtendsEarlier | server/clientstream/event_replayer.go:54-68 | a later connection's replay extends an earlier one's |
| Outboxes.PartyNames | server/clientstream/client_streamer.go:35 | the names registered in a party, none for an unknown party |
| Outboxes.Added | server/clientstream/client_streamer.go:34-43 | registers a fresh outbox, creating the party if needed, and replaces any earlier outbox of that name; others are unchanged |
| Outboxes.Removed | server/clientstream/client_streamer.go:56-67 | drops the name's outbox if present and the party once empty; otherwise nothing changes |
| Outboxes.DeliverTo | server/clientstream/client_streamer.go:74-106 | appends the message to each registered recipient's outbox only |
| Outboxes.NoRecipientNoChange | server/clientstream/client_streamer.go:86-92 | a send to no registered client changes nothing |
| Outboxes.AddRemoveKeepValid | server/clientstream/client_streamer.go:30-68 | add and remove never leave an empty party registered |
| Outboxes.RemoveUndoesAddInParty | server/clientstream/client_streamer.go:30-68 | in a party that has other clients, closing a new connection gives the party back its earlier clients |
| Outboxes.RemoveUndoesAddNewParty | server/clientstream/client_streamer.go:30-68 | closing the only connection of a new party drops the party again |
| Outboxes.RemoveUndoesAdd | server/clientstream/client_streamer.go:30-68 | closing a new connection restores the registry |
| Outboxes.RemoveIsIdempotent | server/clientstream/client_streamer.go:52-68 | closing twice is closing once |
| Outboxes.DeliveryAppends | server/clientstream/client_streamer.go:70-107 | a delivery only appends; earlier messages stay first |
| Outboxes.DeliveryKeepsValid | server/clientstream/client_streamer.go:70-107 | deliveries keep the registry valid |
| ClientStreamer.Streamer.constructor | server/clientstream/client_streamer.go:22-28 | no outboxes, nothing dispatched |
| ClientStreamer.Streamer.Add | server/clientstream/client_streamer.go:30-50 | registers the outbox and dispatches PlayerConnected |
| ClientStreamer.Streamer.Remove | server/clientstream/client_streamer.go:52-68 | drops the outbox; PlayerDisconnected is dispatched iff there was one |
| ClientStreamer.Streamer.Send | server/clientstream/client_streamer.go:70-80 | every client of the party receives the message |
| ClientStreamer.Streamer.SendToPlayer | server/clientstream/client_streamer.go:82-93 | only the named client receives it, if connected |
| ClientStreamer.Streamer.SendToAllButPlayer | server/clientstream/client_streamer.go:95-107 | every client of the party except the named one receives it |
| Outboxes.DeliveredQueues | server/clientstream/client_streamer.go:70-107 | queues with the message appended for exactly the recipients are the delivery's result |
| ClientStreamer.Streamer.PushToParty | server/clientstream/client_streamer.go:74-79 | the shared loop delivers to the party less the skipped name |
| ClientStreamer.Skipped | server/clientstream/client_streamer.go:102 | the name left out, if any |
| ClientStreamer.SendsReachTheirAudience | server/clientstream/client_streamer.go:70-107 | a connected client gets party-wide sends and its own sends but not those addressed to all but itself; another client gets the reverse |
| LegacyClients.Clients.constructor | server/clientstream/clients.go:22-27 | no clients |
| LegacyClients.Clients.Add | server/clientstream/clients.go:29-43 | registers a fresh outbox under (code, name) |
| LegacyClients.Clients.SendMessageToParty | server/clientstream/clients.go:45-54 | every client of the party receives the text, and an unknown party gets nothing |
| LegacyClients.Clients.Consume | server/clientstream/clients.go:56-59 | the formatted message goes to the party it names |
| StreamHandler.Requirements | client/src/stream/handler.ts:52-56 | converts each raw mission requirement, element by element |
| StreamHandler.Dispatched | client/src/stream/handler.ts:30-94 | at most one message; close gives ServerConnectionClosed; error gives ServerConnectionErrorOccured; an event gives nothing iff no field is handled |
| StreamHandler.NothingHandledNothingDispatched | client/src/stream/handler.ts:36-94 | nothing is dispatched iff none of the 17 handled fields is set |
| StreamHandler.FirstPresentFieldWins | client/src/stream/handler.ts:36-94 | the message dispatched is the one for the first set field in the else-if chain |
| StreamHandler.ConnectionFieldWins | client/src/stream/handler.ts:37-51 | when a replay or connection field is set, the first of them decides the message and no earlier field is set |
| StreamHandler.SetupFieldWins | client/src/stream/handler.ts:52-65 | when none of those is set but a game start, spies or leader field is, the first of these decides the message |
| StreamHandler.SelectionFieldWins | client/src/stream/handler.ts:66-79 | likewise for the deselect, confirm and vote fields |
| StreamHandler.MissionFieldWins | client/src/stream/handler.ts:80-93 | likewise for the mission and game-end fields, once no earlier field is set |
| StreamHandler.PayloadsDecoded | client/src/stream/handler.ts:57-92 | spies become a set (empty when absent); a vote's approval and the tallies are copied; Winner "spy" means Spies and anything else Resistance |
| StreamHandler.ClientUnderstandsServer | client/src/stream/handler.ts:36-94 | every event the server streams is decoded, with its private choices and spies kept |
| ClientMessageBus.Fanout | client/src/messages/messagebus.ts:16-18 | one delivery per subscribed consumer, in subscription order |
| ClientMessageBus.Received | client/src/messages/messagebus.ts:16-18 | what one consumer was handed, in order |
| ClientMessageBus.MessageBus.constructor | client/src/messages/messagebus.ts:10 | no consumers, nothing delivered |
| ClientMessageBus.MessageBus.Subscribe | client/src/messages/messagebus.ts:12-14 | appends the consumer |
| ClientMessageBus.MessageBus.Dispatch | client/src/messages/messagebus.ts:16-18 | delivers the message to every consumer in order |
| ClientMessageBus.FanoutReachesEachOnce | client/src/messages/messagebus.ts:12-18 | a consumer gets a dispatch once per time it subscribed |
| ClientMessageBus.DispatchOrderKept | client/src/messages/messagebus.ts:16-18 | a consumer subscribed once receives dispatched messages in dispatch order |
| GameConsumer.Consume | client/src/consumers/game.ts:34-66 | game events map to store calls that identify the event; anything else makes none; LeaderStartedToSelectMembers alone makes two calls, starting selection and then assigning the leader |
| GameConsumer.ConsumeIsInjective | client/src/consumers/game.ts:34-66 | different game events make different store calls |
| PageConsumer.Consume | client/src/consumers/page.ts:17-34 | showLobby iff the connection closed; showPartyRoom(code) iff PartyCreated(code); showGameRoom iff spies were revealed; showIdentity iff spies were revealed or ViewIdentity; closeDialog iff CloseDialog; a reveal does game room then identity |
| ReplayConsumer.Consume | client/src/consumers/replay.ts:17-26 | endReplay iff replay ended or the connection was lost; startReplay iff replay started |
| ResetConsumer.Consume | client/src/consumers/reset.ts:8-12 | reset exactly when the connection closed |
| ResetConsumer.ConnectionLoss | client/src/consumers/reset.ts:8-12 | a lost connection ends the replay; a close also resets and shows the lobby, an error does neither |
| PlayerConsumer.Consume | client/src/consumers/player.ts:13-20 | joinPlayer(name) iff PlayerJoined(name); definePlayer(name) iff EventsReplayStarted(name); nothing otherwise |
| PlayerActionsClient.Consume | client/src/player-actions/player-actions.ts:10-35 | a post exactly for the action commands; a member is posted exactly for select and deselect, and it is the command's member |
| PlayerActionsClient.PostIdentifiesCommand | client/src/player-actions/player-actions.ts:10-35 | the post (URL and body) determines the command |
| PlayerActionsClient.UrlsAreDistinct | client/src/player-actions/player-actions.ts:10-35 | different action kinds post to different URLs |
| ClientStore.Applied | client/src/store/store.ts:35-47 | showLobby changes only the page; showPartyRoom sets the page and the code |
| ClientStore.Store.constructor | client/src/store/store.ts:18-25 | page Loading, empty party code |
| ClientStore.Store.ShowLobby | client/src/store/store.ts:35-40 | the page becomes Lobby and the code is kept |
| ClientStore.Store.ShowPartyRoom | client/src/store/store.ts:42-47 | the page becomes PartyRoom with the given code |
| ClientStore.CallsAreIdempotent | client/src/store/store.ts:35-47 | calling the same page change twice is calling it once |
| ClientStore.LastCallDecides | client/src/store/store.ts:35-47 | after a series of calls, the page is the last call's; the code is the last showPartyRoom's, or the initial one when there was none |
| MissionTracker.NumberPeopleOnMission | client/src/components/MissionTracker-service.ts:31-33 | the team size of that mission's requirement |
| MissionTracker.NbPeopleRequiredOnCurrentMission | client/src/components/MissionTracker-service.ts:43-45 | the team size of the current mission |
| MissionTracker.ExactlyOneTag | client/src/components/MissionTracker-service.ts:19-29 | each mission shows exactly one tag: success or failure once played, matching its result, and the number of people otherwise (also game-service.ts:35-45) |
| MissionTracker.BorderAndColour | client/src/components/mission-tracker-service.ts:27-33 | no border iff the mission is played or current; gray text iff no border |
| MissionTracker.RecordingAResult | client/src/components/MissionTracker-service.ts:11-25 | one more result moves the current mission on by one, tags the mission just played with its outcome, and keeps earlier tags |
| TeamSelection.TogglePlayerSelection | client/src/components/TeamSelection-service.ts:50-56 | deselects iff the player is in the team, and selects otherwise |
| TeamSelection.FullTeamLocksOthersOut | client/src/components/TeamSelection-service.ts:42-48 | members stay selectable; a full team locks others out and can be confirmed; a short team cannot be confirmed |
| TeamSelection.ToggleFlipsMembership | client/src/components/TeamSelection-service.ts:50-56 | the toggle flips exactly that player's membership and the size by one |
| TeamSelection.SelectionIsPosted | client/src/components/TeamSelection-service.ts:50-60 | toggling posts the deselect or select action naming the player; confirming posts the confirmation |
| TeamSelection.CopiesAgree | client/src/components/game-phases/TeamSelection-service.ts:39-45 | the tracker-backed copy answers the same as the value-backed service |
| MissionConducting.CurrentTeam | client/src/components/game-phases/mission-conducting-service.ts:16-18 | the team set as an array, in insertion order |
| MissionConducting.CurrentTeamAsString | client/src/components/game-phases/mission-conducting-service.ts:20-22 | "a, b and c": all but the last joined with ", ", then " and " and the last |
| MissionConducting.PlayCard | client/src/components/game-phases/mission-conducting-service.ts:40-46 | posts the succeed or the fail action |
| TeamVoteService.CurrentTeamAsString | client/src/components/TeamVote-service.ts:17-20 | the same text as the mission screen's |
| TeamVoteService.Ballot | client/src/components/TeamVote-service.ts:38-44 | posts the approve or the reject action |
| MissionDetails.TeamFromVoteAsString | client/src/components/MissionDetails-service.ts:41-49 | that vote's team joined with ", " |
| MissionDetails.NbSuccesses | client/src/components/MissionDetails-service.ts:55-57 | once the failure count exists, successes plus failures make the team size |
| MissionDetails.ResultOnlyWithVotes | client/src/components/MissionDetails-service.ts:63-70 | votes show except for future missions; the result shows only for past ones |
| EndGame.SpiesAsString | client/src/components/EndGame-service.ts:12-14 | the spies in reveal order joined with ", " as Array.join does, and the length that gives |
| EndGame.AnotherSpyAppended | client/src/components/EndGame-service.ts:12-14 | one more spy adds ", " and the name at the end of the text |
| EndGame.ThreeSpiesAsString | client/src/components/EndGame-service.test.ts:5-10 | the spies a, b, c read "a, b, c" |
| EndGame.PlayerAllegiance | client/src/components/EndGame-service.ts:24-28 | Spies iff the player is among the spies |
| EndGame.WinnerSide | client/src/components/EndGame-service.ts:16-22 | the player won iff their side is the winner |
| Identity.OtherSpyList | client/src/components/identity-service.ts:10-14 | the revealed spies other than the player, one fewer when the player is a spy |
| Identity.OtherSpies | client/src/components/Identity-service.ts:13-17 | the other spies in reveal order joined with ", "; empty when there are none, the name alone when there is one |
| Identity.ThreeSpiesSeeTheOtherTwo | client/src/components/Identity-service.ts:13-17 | in a three-spy game the last spy revealed reads the other two as "a, b" |
| Identity.TwoSpiesSeeEachOther | client/src/components/Identity-service.ts:9-17 | each of two spies sees the other |
| PartyRoom.JoinParty | client/src/components/PartyRoom-service.ts:23-25 | a JoinParty command, which the action poster does not post |
| PartyRoom.StartGame | client/src/components/PartyRoom-service.ts:27-29 | posts the start-game action |
| GamePhaseService.AtMostOnePhase | client/src/components/Game-service.ts:19-33 | at most one phase predicate holds, and none without a phase |
| GamePhaseService.ViewIdentity | client/src/components/Game-service.ts:15-17 | the page consumer shows the identity dialog in response |
| PageService.AtMostOnePage | client/src/components/Page-service.ts:14-28 | at most one page predicate holds, and none while Loading (also page-service.ts:10-24) |
| ValueBrokers.MissionTimeline | client/src/values-brokers.ts:45-53 | Past, Current or Future as the shown mission is before, at or after the current one |
| ValueBrokers.MissionDetailsValues | client/src/values-brokers.ts:38-70 | each detail reads the shown mission's entry; the votes, result and failure count exist exactly when the store holds that mission's entry |
| ValueBrokers.DetailsShownByTimeline | client/src/values-brokers.ts:45-69 | votes show up to the current mission, results only before it; a result shown is always there to read when the store holds every earlier result, and so are votes shown when it holds the votes up to the current mission |
| ValueBrokers.CurrentMissionDetails | client/src/values-brokers.ts:45-69 | the current mission's dialog, with no result stored yet, shows its votes and not its missing result |
| ValueBrokers.LastMissionSuccess | client/src/values-brokers.ts:75-78 | the success of the last result |
| ValueBrokers.LastResultMatchesTracker | client/src/values-brokers.ts:72-78 | the last result agrees with the tracker's tag for that mission |
| ValueBrokers.NbPeopleRequiredOnMission | client/src/values-brokers.ts:104-106 | the current mission's team size |
| ValueBrokers.SelectionCopiesAgree | client/src/values-brokers.ts:81-107 | both team-selection services answer the same on broker values |
| ValueBrokers.EndGameAgreesWithIdentity | client/src/values-brokers.ts:153-167 | the end screen's spies are the identity's revealed spies, and the player's side decides the win |
| ValueBrokers.PartyRoomValues | client/src/values-brokers.ts:212-222 | the players are copied; hasPlayerJoined iff the player is among them |
| JsCollections.FromList | client/src/stream/handler.ts:58 | a JS Set from a list: no duplicates, the same members, first occurrences in order |
| JsCollections.Join | client/src/components/EndGame-service.ts:13 | Array.join: empty for no parts, the part itself for one |
| JsCollections.AndJoin | client/src/components/game-phases/mission-conducting-service.ts:21 | slice(0,-1).join(", ") + " and " + slice(-1), case by case |
| JsCollections.Without | client/src/components/identity-service.ts:11-12 | Set.delete: the element is gone and every other member is kept |

## Left out

- `gamerules.Game` is not part of this model. Its transitions and observers are fields of `GameRulesInterface.Rules<G>`. GetMissionResults is a map in which an absent key reads false, as a Go map does.
- Go map iteration order is unspecified. The model fixes it as the listing order of the allegiance pairs. Outboxes are separate queues, so the order across clients does not matter.
- JSON encoding is not modelled. Client events are datatypes, and `StreamHandler.FromServer` pairs the server's fields with the client's raw event.
- Mutexes and `defer` unlocks are dropped, since each operation is sequential here. Channels become per-client queues, and closing a channel is dropping its queue.
- The remover that `Add` returns is the streamer's `Remove` applied to the same code and name. When a player reconnects, the older connection's remover removes the newer outbox, exactly as the source does.
- The older client/src/messagebus.ts is the same class as messages/messagebus.ts, under other method names. `ClientMessageBus.MessageBus` covers both.
- The older duplicate services are covered by the same members:
  - mission-tracker-service.ts and game-service.ts by `MissionTracker`;
  - page-service.ts by `PageService`;
  - identity-service.ts by `Identity`;
  - game-phases/team-selection-service.ts by `TeamSelection`.
- PartyCreated is consumed by consumers/page.ts but never produced by handler.ts. The model keeps it as a client message, and PageConsumer handles it.
- values-brokers.ts reads a richer StoreValues than store.ts holds. `ValueBrokers.StoreValues` holds those fields, and `ClientStore` holds store.ts's two.
- Nested broker getters build the same brokers again. GameValuesBroker and AppValuesBroker are plain record builders, with no row.
- The mission details dialog always reads the shown mission's requirement, so `ValueBrokers.MissionDetailsValues` requires that it exists. The votes, result and failure count are lazy getters; the model makes them None when the store has no entry for that mission.
- Out-of-range indexing in the brokers and tracker would give a TypeError or undefined in JavaScript. A `requires` rules it out:
  - `ValueBrokers.LastMissionSuccess`;
  - `ValueBrokers.NbPeopleRequiredOnMission`;
  - `MissionTracker.NumberPeopleOnMission`;
  - `MissionTracker.NbPeopleRequiredOnCurrentMission`;
  - `MissionDetails.TeamFromVoteAsString`.
- Single getters and thin forwarders are predicates without rows:
  - hasGivenPlayerWorkedOnMission;
  - isPlayerInCurrentMission;
  - the voted predicates;
  - isPlayerTheLeader;
  - canStartGame;
  - isDialogShownIdentity;
  - the page and phase predicates.
- The older streamer's `fmt.Sprintf("%#v", m)` is a parameter of `LegacyClients.Clients`.
- HTTP handlers, cookies, websockets, server-sent-event connections, the CLI and main.go are left out. So are the lobby, and the random and UUID sources, which are parameters.
- `CodeGenerator.Generator.GenerateCode` requires that some later candidate is fresh. The Go loop does not terminate otherwise, and the model states no result for that case.
- `CodeGenerator.Generator.GenerateCode` checks completeness by rune count, which is the corrected behaviour (see Findings). The byte-count behaviour as written is `CodeGenerator.AsWrittenIsComplete`.
- `GameRulesPlayers.Remove` returns the roster without the name as a new list, which is the corrected behaviour (see Findings). players.go:38 uses the same `append(p[:index], p[index+1:]...)` as game.go:32, so as written the caller's slice is shifted too, exactly as `GameRulesGame.RemoveInBackingArray` shows.
- `GameRulesGame.RemoveFromPlayers` returns a new list, which is the corrected behaviour (see Findings). The in-place shift as written is `GameRulesGame.RemoveInBackingArray`.
- `StreamHandler.ServerEvent` holds the fields declared in server-event.ts. handler.ts reads 17 of them and ignores PartyCreated, so an event with only PartyCreated dispatches nothing. handler.test.ts expects PartyCreated to be decoded; the model follows handler.ts.

## Findings

| source | as written | input that shows it | evidently intended | confidence | as-written member | corrected member |
|---|---|---|---|---|---|---|
| server/gamerules/game.go:32 | `append(p[:index], p[index+1:]...)` writes into the receiver's backing array, so the caller's roster is shifted | remove "Alice" from [Alice, Bob, Carol]: the caller's slice reads [Bob, Carol, Carol] | removing returns a new roster and leaves the caller's as it was | not executed | GameRulesGame.RemoveInBackingArray | GameRulesGame.RemoveFromPlayers |
| server/gamerules/players.go:38 | the same `append(p[:index], p[index+1:]...)` as game.go:32 shifts the receiver's backing array | remove "Alice" from [Alice, Bob, Carol]: the caller's slice reads [Bob, Carol, Carol] | removing returns a new roster and leaves the caller's as it was | not executed | GameRulesGame.RemoveInBackingArray | GameRulesPlayers.Remove |
| server/codegenerator/code_generator.go:38 | `len(code) == maxCodeLength` counts bytes, not runes | with runes "€€" the 2-rune code is accepted; with "ABCDEé" the length jumps from 5 to 7 and never equals 6, so the loop does not end | a code is complete at 6 runes | not executed | CodeGenerator.AsWrittenAcceptsTwoRunes | CodeGenerator.Generator.GenerateCode |
