/** The page consumer (client/src/consumers/page.ts): turns connection,
    party and identity messages into calls on the room store. */
module PageConsumer {
  import CM = ClientMessages

  /** The methods of the `RoomStore` interface. */
  datatype RoomStoreCall =
    | ShowLobby
    | ShowPartyRoom(code: string)
    | ShowGameRoom
    | ShowIdentity
    | CloseDialog

  /** `PageManager.consume`. The lobby is shown only on a closed
      connection, the party room only for the party just created, the game
      room only on SpiesRevealed, the identity dialog on SpiesRevealed or
      ViewIdentity, and a dialog is closed only on CloseDialog; no message
      makes the same call twice, and when the spies are revealed the game
      room is shown first, then the identity dialog over it. */
  function Consume(m: CM.Message): (calls: seq<RoomStoreCall>)
    ensures ShowLobby in calls <==> m.ServerConnectionClosed?
    ensures forall code :: ShowPartyRoom(code) in calls <==> m == CM.PartyCreated(code)
    ensures ShowGameRoom in calls <==> m.SpiesRevealed?
    ensures ShowIdentity in calls <==> m.SpiesRevealed? || m.ViewIdentity?
    ensures CloseDialog in calls <==> m.CloseDialog?
    ensures |calls| <= 2
    ensures |calls| == 2 ==> calls == [ShowGameRoom, ShowIdentity]
  {
    match m
    case ServerConnectionClosed => [ShowLobby]
    case PartyCreated(partyCode) => [ShowPartyRoom(partyCode)]
    case SpiesRevealed(_) => [ShowGameRoom, ShowIdentity]
    case ViewIdentity => [ShowIdentity]
    case CloseDialog => [CloseDialog]
    case _ => []
  }
}
