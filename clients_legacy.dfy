/** The older client registry (server/clientstream/clients.go): it keeps the
    same party → player → outbox registry, has no removal and no
    announcements, and forwards every bus message, formatted as Go source
    text, to every client of the message's party. */
module LegacyClients {
  import opened Outboxes
  import Bus = BusMessages

  class Clients {
    var clientsByNameByCode: Registry<string>
    /** Go's `fmt.Sprintf("%#v", m)`, which is not part of this model. */
    const format: Bus.Message -> string

    constructor(format: Bus.Message -> string)
      ensures clientsByNameByCode == map[] && this.format == format
    {
      clientsByNameByCode := map[];
      this.format := format;
    }

    /** `Add`: stores a fresh outbox under (code, name), creating the party if
        it is new and replacing only an earlier client of that name. */
    method Add(code: string, name: string)
      modifies this
      ensures clientsByNameByCode == Added(old(clientsByNameByCode), code, name)
    {
      var clients: map<string, seq<string>>;
      if code in clientsByNameByCode {
        clients := clientsByNameByCode[code][name := []];
      } else {
        clients := map[name := []];
      }
      clientsByNameByCode := clientsByNameByCode[code := clients];
    }

    /** `sendMessageToParty`: pushes the text to every client of the party;
        an unknown party is a no-op. */
    method SendMessageToParty(code: string, message: string)
      modifies this
      ensures clientsByNameByCode
           == DeliverTo(old(clientsByNameByCode), code, PartyNames(old(clientsByNameByCode), code), message)
    {
      ghost var recipients := PartyNames(clientsByNameByCode, code);
      if code in clientsByNameByCode {
        var clients := clientsByNameByCode[code];
        var queues := clients;
        var todo := clients.Keys;
        while todo != {}
          invariant todo <= clients.Keys
          invariant queues.Keys == clients.Keys
          invariant forall n :: n in clients ==>
            queues[n] == if n !in todo then clients[n] + [message] else clients[n]
          decreases |todo|
        {
          var n :| n in todo;
          queues := queues[n := queues[n] + [message]];
          todo := todo - {n};
        }
        assert queues == DeliverTo(old(clientsByNameByCode), code, recipients, message)[code];
        clientsByNameByCode := clientsByNameByCode[code := queues];
      }
    }

    /** `Consume`: sends the formatted message to the party it names. */
    method Consume(m: Bus.Message)
      modifies this
      ensures clientsByNameByCode
           == DeliverTo(old(clientsByNameByCode), m.code, PartyNames(old(clientsByNameByCode), m.code), format(m))
    {
      SendMessageToParty(m.code, format(m));
    }
  }
}
