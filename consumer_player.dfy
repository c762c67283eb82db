/** The player consumer (client/src/consumers/player.ts): records who this
    client is and who joined the party. */
module PlayerConsumer {
  import CM = ClientMessages

  /** The methods of the `PlayerStore` interface. */
  datatype PlayerStoreCall = DefinePlayer(name: string) | JoinPlayer(name: string)

  /** `PlayerManager.consume`. A join is recorded exactly for
      PlayerJoined and the own player is defined exactly for
      EventsReplayStarted (the server opens every replay with the connecting
      player's name), with the name unchanged; no message does both, and
      every other message does nothing. */
  function Consume(m: CM.Message): (calls: seq<PlayerStoreCall>)
    ensures |calls| <= 1
    ensures forall name :: JoinPlayer(name) in calls <==> m == CM.PlayerJoined(name)
    ensures forall name :: DefinePlayer(name) in calls <==> m == CM.EventsReplayStarted(name)
    ensures calls == [] <==> !m.PlayerJoined? && !m.EventsReplayStarted?
  {
    if m.PlayerJoined? then [JoinPlayer(m.name)]
    else if m.EventsReplayStarted? then [DefinePlayer(m.playerName)]
    else []
  }
}
