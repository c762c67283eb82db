/** The replay consumer (client/src/consumers/replay.ts): starts and ends
    the replay of past events on the replay store. */
module ReplayConsumer {
  import CM = ClientMessages

  /** The methods of the `ReplayStore` interface. */
  datatype ReplayStoreCall = StartReplay | EndReplay

  /** A lost connection: closed, or in error. */
  predicate ConnectionLost(m: CM.Message) {
    m.ServerConnectionClosed? || m.ServerConnectionErrorOccured?
  }

  /** `ReplayConsumer.consume`. The replay ends, once, when the server
      says so or the connection is lost, and starts, once, only when the
      server says it starts; a lost connection never starts one, and no
      message does both. */
  function Consume(m: CM.Message): (calls: seq<ReplayStoreCall>)
    ensures |calls| <= 1
    ensures calls == [EndReplay] <==> m.EventsReplayEnded? || ConnectionLost(m)
    ensures calls == [StartReplay] <==> m.EventsReplayStarted?
  {
    if m.EventsReplayEnded? || m.ServerConnectionClosed? || m.ServerConnectionErrorOccured? then
      [EndReplay]
    else if m.EventsReplayStarted? then [StartReplay]
    else []
  }
}
