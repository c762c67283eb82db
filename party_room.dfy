/** The party room (client/src/components/PartyRoom-service.ts): who has
    joined, joining, and starting the game once enough players are in. */
module PartyRoom {
  import opened Wrappers
  import CM = ClientMessages
  import PlayerActionsClient

  datatype PartyRoomValues = PartyRoomValues(players: seq<string>, hasPlayerJoined: bool)

  /** The fewest players a game can start with. */
  const MinPlayers := 5

  /** `canStartGame`: at least five players. */
  predicate CanStartGame(v: PartyRoomValues) {
    |v.players| >= MinPlayers
  }

  /** `joinParty`: the command dispatched, naming the player unchanged. It is
      not one of the posted game actions. */
  function JoinParty(name: string): (c: CM.Message)
    ensures c.JoinParty? && c.name == name
    ensures PlayerActionsClient.Consume(c).None?
  {
    CM.JoinParty(name)
  }

  /** `startGame`: the command dispatched, posted once to the start action. */
  function StartGame(): (c: CM.Message)
    ensures PlayerActionsClient.Consume(c) == Some(PlayerActionsClient.Post("/actions/start-game", None))
  {
    CM.StartGame
  }
}
