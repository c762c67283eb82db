/** The event replayer (server/clientstream/event_replayer.go). It sits in
    front of the client streamer as its event sender: every event sent
    through it is logged with its addressing, then forwarded. When a player
    connects, the events addressed to them so far are sent to them again,
    between a replay-started and a replay-ended marker. */
module EventReplayer {
  import Bus = BusMessages
  import CE = ClientEvents

  /** How a logged event was addressed. */
  datatype ReplayType = All | Player | AllButPlayer

  datatype ReplayMessage = ReplayMessage(replayType: ReplayType, name: string, message: CE.ClientEvent)

  /** One call on the wrapped event sender. */
  datatype Forward =
    | ToAll(message: CE.ClientEvent)
    | ToPlayer(name: string, message: CE.ClientEvent)
    | ToAllButPlayer(name: string, message: CE.ClientEvent)

  /** Whether a logged event was meant for player `p`. */
  predicate IsReplayableTo(rm: ReplayMessage, p: string) {
    rm.replayType == All
    || (rm.replayType == Player && rm.name == p)
    || (rm.replayType == AllButPlayer && rm.name != p)
  }

  /** The sends that replay `log` to `p`: one per entry meant for `p`, in
      log order. */
  function Replay(log: seq<ReplayMessage>, p: string): (r: seq<Forward>)
    ensures |r| <= |log|
  {
    if log == [] then []
    else
      var last := log[|log| - 1];
      Replay(log[..|log| - 1], p) + (if IsReplayableTo(last, p) then [ToPlayer(p, last.message)] else [])
  }

  /** The whole output of a replay to `p`. */
  function Bracketed(log: seq<ReplayMessage>, p: string): seq<Forward> {
    [ToPlayer(p, CE.EventsReplayStarted(p))] + Replay(log, p) + [ToPlayer(p, CE.EventsReplayEnded)]
  }

  class Replayer {
    /** The append-only log of everything sent through the replayer. */
    var messages: seq<ReplayMessage>
    /** The calls made on the wrapped event sender, oldest first. */
    var forwarded: seq<Forward>

    constructor()
      ensures messages == [] && forwarded == []
    {
      messages := [];
      forwarded := [];
    }

    /** `recordMessage`: appends one entry to the log. */
    method Record(rm: ReplayMessage)
      modifies this`messages
      ensures messages == old(messages) + [rm]
    {
      messages := messages + [rm];
    }

    /** `Send`: logs the event as meant for everyone, then forwards it. */
    method Send(message: CE.ClientEvent)
      modifies this
      ensures messages == old(messages) + [ReplayMessage(All, "", message)]
      ensures forwarded == old(forwarded) + [ToAll(message)]
    {
      Record(ReplayMessage(All, "", message));
      forwarded := forwarded + [ToAll(message)];
    }

    /** `SendToPlayer`: logs the event as meant for `name`, then forwards it. */
    method SendToPlayer(name: string, message: CE.ClientEvent)
      modifies this
      ensures messages == old(messages) + [ReplayMessage(Player, name, message)]
      ensures forwarded == old(forwarded) + [ToPlayer(name, message)]
    {
      Record(ReplayMessage(Player, name, message));
      forwarded := forwarded + [ToPlayer(name, message)];
    }

    /** `SendToAllButPlayer`: logs the event as meant for everyone but `name`,
        then forwards it. */
    method SendToAllButPlayer(name: string, message: CE.ClientEvent)
      modifies this
      ensures messages == old(messages) + [ReplayMessage(AllButPlayer, name, message)]
      ensures forwarded == old(forwarded) + [ToAllButPlayer(name, message)]
    {
      Record(ReplayMessage(AllButPlayer, name, message));
      forwarded := forwarded + [ToAllButPlayer(name, message)];
    }

    /** `sendReplayableMessages`: walks the log and sends `p` each entry meant
        for them, straight to the wrapped sender (so nothing is logged). */
    method SendReplayableMessages(p: string)
      modifies this`forwarded
      ensures forwarded == old(forwarded) + Replay(messages, p)
    {
      var i := 0;
      while i < |messages|
        invariant 0 <= i <= |messages|
        invariant forwarded == old(forwarded) + Replay(messages[..i], p)
      {
        assert messages[..i + 1][..i] == messages[..i];
        var rm := messages[i];
        if rm.replayType == All
          || (rm.replayType == Player && rm.name == p)
          || (rm.replayType == AllButPlayer && rm.name != p)
        {
          forwarded := forwarded + [ToPlayer(p, rm.message)];
        }
        i := i + 1;
      }
      assert messages[..i] == messages;
    }

    /** `Consume`: on PlayerConnected, replays the log to the new player
        between the two markers; any other message is ignored. The log
        itself is only read. */
    method Consume(m: Bus.Message)
      modifies this`forwarded
      ensures m.PlayerConnected? ==> forwarded == old(forwarded) + Bracketed(messages, m.player)
      ensures !m.PlayerConnected? ==> forwarded == old(forwarded)
    {
      if m.PlayerConnected? {
        var p := m.player;
        forwarded := forwarded + [ToPlayer(p, CE.EventsReplayStarted(p))];
        SendReplayableMessages(p);
        forwarded := forwarded + [ToPlayer(p, CE.EventsReplayEnded)];
      }
    }
  }

  /** Replaying a log in two parts is replaying each part in turn: replayed
      entries keep their log order. */
  lemma {:induction false} ReplayConcat(a: seq<ReplayMessage>, b: seq<ReplayMessage>, p: string)
    ensures Replay(a + b, p) == Replay(a, p) + Replay(b, p)
  {
    if b != [] {
      var init := b[..|b| - 1];
      assert (a + b)[..|a + b| - 1] == a + init;
      ReplayConcat(a, init, p);
    } else {
      assert a + b == a;
    }
  }

  /** Everything replayed to `p` is addressed to `p` and is the message of a
      log entry meant for `p`; every such entry is replayed. */
  lemma {:induction false} ReplayExactly(log: seq<ReplayMessage>, p: string)
    ensures forall f :: f in Replay(log, p) ==>
      f.ToPlayer? && f.name == p && exists rm :: rm in log && IsReplayableTo(rm, p) && rm.message == f.message
    ensures forall rm :: rm in log && IsReplayableTo(rm, p) ==> ToPlayer(p, rm.message) in Replay(log, p)
  {
    if log != [] {
      var init := log[..|log| - 1];
      assert log == init + [log[|log| - 1]];
      ReplayExactly(init, p);
    }
  }

  /** A later connection sees everything an earlier one saw, and then the
      entries logged since, in order. */
  lemma LaterReplayExtendsEarlier(log: seq<ReplayMessage>, more: seq<ReplayMessage>, p: string)
    ensures Replay(log, p) <= Replay(log + more, p)
  {
    ReplayConcat(log, more, p);
  }
}
