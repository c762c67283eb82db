/** The reset consumer (client/src/consumers/reset.ts): a closed connection
    resets the client. `reset` is the resetter's only method. */
module ResetConsumer {
  import CM = ClientMessages
  import PageConsumer
  import ReplayConsumer

  datatype ResetterCall = Reset

  /** `ResetConsumer.consume`. */
  function Consume(m: CM.Message): (calls: seq<ResetterCall>)
    ensures calls == [Reset] <==> m.ServerConnectionClosed?
    ensures calls == [] <==> !m.ServerConnectionClosed?
  {
    if m.ServerConnectionClosed? then [Reset] else []
  }

  /** Across the consumers: a closed connection resets the client, ends any
      replay and shows the lobby; a connection error only ends the replay,
      without a reset and without leaving the page. */
  lemma ConnectionLoss(m: CM.Message)
    requires ReplayConsumer.ConnectionLost(m)
    ensures ReplayConsumer.Consume(m) == [ReplayConsumer.EndReplay]
    ensures m.ServerConnectionClosed? ==>
      Consume(m) == [Reset] && PageConsumer.Consume(m) == [PageConsumer.ShowLobby]
    ensures m.ServerConnectionErrorOccured? ==>
      Consume(m) == [] && PageConsumer.Consume(m) == []
  {
  }
}
