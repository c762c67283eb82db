/** The client streamer (server/clientstream/client_streamer.go): the
    registry of connected browser clients, and the event sender that pushes
    client events onto their outboxes. Connecting and disconnecting are
    announced on the message bus. */
module ClientStreamer {
  import opened Wrappers
  import opened Outboxes
  import Bus = BusMessages
  import CE = ClientEvents

  class Streamer {
    var outboxes: Registry<CE.ClientEvent>
    /** The messages handed to the message dispatcher, oldest first. */
    var dispatched: seq<Bus.Message>

    constructor()
      ensures outboxes == map[] && dispatched == []
    {
      outboxes := map[];
      dispatched := [];
    }

    /** `Add`: opens an outbox for the player and announces the connection.
        The returned closer is `Remove(code, name)`. */
    method Add(code: string, name: string)
      modifies this
      ensures outboxes == Added(old(outboxes), code, name)
      ensures dispatched == old(dispatched) + [Bus.PlayerConnected(code, name)]
    {
      var clients: map<string, seq<CE.ClientEvent>>;
      if code in outboxes {
        clients := outboxes[code][name := []];
      } else {
        clients := map[name := []];
      }
      outboxes := outboxes[code := clients];
      dispatched := dispatched + [Bus.PlayerConnected(code, name)];
    }

    /** `remove`: closes and drops the player's outbox, drops the party once
        empty, and announces the disconnection; an unknown (code, name)
        changes nothing and announces nothing. */
    method Remove(code: string, name: string)
      modifies this
      ensures outboxes == Removed(old(outboxes), code, name)
      ensures name in PartyNames(old(outboxes), code) ==>
        dispatched == old(dispatched) + [Bus.PlayerDisconnected(code, name)]
      ensures name !in PartyNames(old(outboxes), code) ==> dispatched == old(dispatched)
    {
      if code in outboxes {
        var clients := outboxes[code];
        if name in clients {
          clients := clients - {name};
          if |clients| == 0 {
            outboxes := outboxes - {code};
          } else {
            outboxes := outboxes[code := clients];
          }
          dispatched := dispatched + [Bus.PlayerDisconnected(code, name)];
        }
      }
    }

    /** `Send`: pushes the event to every client of the party. */
    method Send(code: string, message: CE.ClientEvent)
      modifies this`outboxes
      ensures outboxes == DeliverTo(old(outboxes), code, PartyNames(old(outboxes), code), message)
    {
      PushToParty(code, None, message);
      assert PartyNames(old(outboxes), code) - Skipped(None) == PartyNames(old(outboxes), code);
    }

    /** `SendToPlayer`: pushes the event to the named client only, if it is
        connected. */
    method SendToPlayer(code: string, name: string, message: CE.ClientEvent)
      modifies this`outboxes
      ensures outboxes == DeliverTo(old(outboxes), code, {name}, message)
    {
      if code in outboxes {
        var clients := outboxes[code];
        if name in clients {
          outboxes := outboxes[code := clients[name := clients[name] + [message]]];
          assert outboxes[code] == DeliverTo(old(outboxes), code, {name}, message)[code];
        } else {
          NoRecipientNoChange(outboxes, code, {name}, message);
        }
      }
    }

    /** `SendToAllButPlayer`: pushes the event to every client of the party
        except the named one. */
    method SendToAllButPlayer(code: string, name: string, message: CE.ClientEvent)
      modifies this`outboxes
      ensures outboxes == DeliverTo(old(outboxes), code, PartyNames(old(outboxes), code) - {name}, message)
    {
      PushToParty(code, Some(name), message);
    }

    /** The loop `Send` and `SendToAllButPlayer` share: over the party's
        clients, in some order, skipping `except`. */
    method PushToParty(code: string, except: Option<string>, message: CE.ClientEvent)
      modifies this`outboxes
      ensures outboxes == DeliverTo(old(outboxes), code, PartyNames(old(outboxes), code) - Skipped(except), message)
    {
      ghost var recipients := PartyNames(outboxes, code) - Skipped(except);
      if code in outboxes {
        var clients := outboxes[code];
        var queues := clients;
        var todo := clients.Keys;
        while todo != {}
          invariant todo <= clients.Keys
          invariant queues.Keys == clients.Keys
          invariant forall n :: n in clients ==>
            queues[n] == if n in recipients && n !in todo then clients[n] + [message] else clients[n]
          decreases |todo|
        {
          var n :| n in todo;
          if except != Some(n) {
            queues := queues[n := queues[n] + [message]];
          }
          todo := todo - {n};
        }
        DeliveredQueues(outboxes, code, recipients, message, queues);
        outboxes := outboxes[code := queues];
      }
    }
  }

  /** The name `except` leaves out, if any. */
  function Skipped(except: Option<string>): (s: set<string>)
    ensures except.None? <==> s == {}
    ensures except.Some? ==> s == {except.value}
  {
    if except.Some? then {except.value} else {}
  }

  /** A client connected to a party sees every party-wide event, its own
      private events, and the others' "all but" events, each at the end of
      its queue; no other party's client sees anything. */
  lemma SendsReachTheirAudience(r: Registry<CE.ClientEvent>, code: string, name: string, other: string,
                                message: CE.ClientEvent)
    requires code in r && name in r[code] && other in r[code] && other != name
    ensures DeliverTo(r, code, PartyNames(r, code), message)[code][name] == r[code][name] + [message]
    ensures DeliverTo(r, code, {name}, message)[code][name] == r[code][name] + [message]
    ensures DeliverTo(r, code, {name}, message)[code][other] == r[code][other]
    ensures DeliverTo(r, code, PartyNames(r, code) - {name}, message)[code][name] == r[code][name]
    ensures DeliverTo(r, code, PartyNames(r, code) - {name}, message)[code][other] == r[code][other] + [message]
  {
  }
}
