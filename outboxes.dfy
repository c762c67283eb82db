/** The registry both client streamers keep (server/clientstream/
    client_streamer.go and clients.go): per party code, per player name, one
    outgoing channel. A channel is modelled as the queue of messages pushed
    to it; a new channel is an empty queue. */
module Outboxes {

  type Registry<T> = map<string, map<string, seq<T>>>

  /** No party is kept with no client left. */
  predicate Valid<T>(r: Registry<T>) {
    forall c :: c in r ==> r[c] != map[]
  }

  /** The names registered in a party, none if the party is unknown. */
  function PartyNames<T>(r: Registry<T>, code: string): (names: set<string>)
    ensures code !in r ==> names == {}
    ensures forall n :: n in names <==> code in r && n in r[code]
  {
    if code in r then r[code].Keys else {}
  }

  /** `Add`: registers a fresh outbox for (code, name), creating the party if
      it is new and replacing any earlier outbox of that name. */
  function Added<T>(r: Registry<T>, code: string, name: string): (r': Registry<T>)
    ensures r'.Keys == r.Keys + {code}
    ensures name in r'[code] && r'[code][name] == []
    ensures PartyNames(r', code) == PartyNames(r, code) + {name}
    ensures forall n :: n in r'[code] && n != name ==> r'[code][n] == r[code][n]
    ensures forall c :: c in r && c != code ==> r'[c] == r[c]
  {
    var clients := if code in r then r[code] else map[];
    r[code := clients[name := []]]
  }

  /** `remove`: drops the (code, name) outbox if there is one, and the party
      with it once no client is left. */
  function Removed<T>(r: Registry<T>, code: string, name: string): (r': Registry<T>)
    ensures name !in PartyNames(r, code) ==> r' == r
    ensures PartyNames(r', code) == PartyNames(r, code) - {name}
    ensures code in r' ==> code in r && forall n :: n in r'[code] ==> r'[code][n] == r[code][n]
    ensures forall c :: c != code ==> (c in r' <==> c in r) && (c in r ==> r'[c] == r[c])
  {
    if code in r && name in r[code] then
      var rest := r[code] - {name};
      if |rest| == 0 then r - {code} else r[code := rest]
    else r
  }

  /** Pushes `msg` onto the outbox of every name of `recipients` registered
      in party `code`; nothing else changes. */
  function DeliverTo<T>(r: Registry<T>, code: string, recipients: set<string>, msg: T): (r': Registry<T>)
    ensures r'.Keys == r.Keys
    ensures forall c :: c in r && c != code ==> r'[c] == r[c]
    ensures code in r ==> r'[code].Keys == r[code].Keys
    ensures code in r ==> forall n :: n in r[code] ==>
      r'[code][n] == if n in recipients then r[code][n] + [msg] else r[code][n]
  {
    if code !in r then r
    else r[code := map n | n in r[code] :: if n in recipients then r[code][n] + [msg] else r[code][n]]
  }

  /** A party's queues with `msg` appended for exactly the recipients are
      what `DeliverTo` leaves in the registry. */
  lemma DeliveredQueues<T>(r: Registry<T>, code: string, recipients: set<string>, msg: T,
                           queues: map<string, seq<T>>)
    requires code in r && queues.Keys == r[code].Keys
    requires forall n :: n in r[code] ==> queues[n] == if n in recipients then r[code][n] + [msg] else r[code][n]
    ensures DeliverTo(r, code, recipients, msg) == r[code := queues]
  {
    assert DeliverTo(r, code, recipients, msg)[code] == queues;
  }

  /** A delivery to no registered client changes nothing. */
  lemma NoRecipientNoChange<T>(r: Registry<T>, code: string, recipients: set<string>, msg: T)
    requires recipients !! PartyNames(r, code)
    ensures DeliverTo(r, code, recipients, msg) == r
  {
    if code in r {
      assert DeliverTo(r, code, recipients, msg)[code] == r[code];
    }
  }

  /** Adding and removing keep every registered party non-empty. */
  lemma AddRemoveKeepValid<T>(r: Registry<T>, code: string, name: string)
    requires Valid(r)
    ensures Valid(Added(r, code, name))
    ensures Valid(Removed(r, code, name))
  {
    var r' := Removed(r, code, name);
    forall c | c in r'
      ensures r'[c] != map[]
    {
      if c == code && name in PartyNames(r, code) {
        var rest := r[code] - {name};
        assert |rest| != 0;
        assert r'[c] == rest;
        var x :| x in rest;
      }
    }
  }

  /** Closing a connection undoes opening it, when the name was not already
      connected to that party. */
  lemma RemoveUndoesAdd<T>(r: Registry<T>, code: string, name: string)
    requires Valid(r)
    requires name !in PartyNames(r, code)
    ensures Removed(Added(r, code, name), code, name) == r
  {
    if code in r {
      RemoveUndoesAddInParty(r, code, name);
    } else {
      RemoveUndoesAddNewParty(r, code, name);
    }
  }

  /** `RemoveUndoesAdd` for a party that already has clients: the party
      stays, with its earlier clients. */
  lemma RemoveUndoesAddInParty<T>(r: Registry<T>, code: string, name: string)
    requires code in r && r[code] != map[] && name !in r[code]
    ensures Removed(Added(r, code, name), code, name) == r
  {
    var a := r[code := r[code][name := []]];
    assert Added(r, code, name) == a;
    var rest := a[code] - {name};
    assert rest == r[code];
    var x :| x in r[code];
    assert x in rest;
    assert Removed(a, code, name) == a[code := rest];
    assert a[code := rest] == r;
  }

  /** `RemoveUndoesAdd` for a new party: the party goes again. */
  lemma RemoveUndoesAddNewParty<T>(r: Registry<T>, code: string, name: string)
    requires code !in r
    ensures Removed(Added(r, code, name), code, name) == r
  {
    var a := r[code := map[name := []]];
    assert Added(r, code, name) == a;
    RemoveOnlyClient(a, code, name);
    DropNewKey(r, code, map[name := []]);
  }

  /** Removing a party's only client drops the party. */
  lemma RemoveOnlyClient<T>(a: Registry<T>, code: string, name: string)
    requires code in a && a[code] == map[name := []]
    ensures Removed(a, code, name) == a - {code}
  {
    assert a[code] - {name} == map[];
  }

  /** A key added and removed again leaves the map as it was. */
  lemma DropNewKey<T>(r: Registry<T>, code: string, v: map<string, seq<T>>)
    requires code !in r
    ensures r[code := v] - {code} == r
  {
  }

  /** Closing twice is closing once. */
  lemma RemoveIsIdempotent<T>(r: Registry<T>, code: string, name: string)
    ensures Removed(Removed(r, code, name), code, name) == Removed(r, code, name)
  {
  }

  /** A delivery only appends: every outbox's earlier messages stay first and
      in order, and at most `msg` is added after them. */
  lemma DeliveryAppends<T>(r: Registry<T>, code: string, recipients: set<string>, msg: T)
    ensures var r' := DeliverTo(r, code, recipients, msg);
      forall c, n :: c in r && n in r[c] ==>
        && r[c][n] <= r'[c][n]
        && |r'[c][n]| <= |r[c][n]| + 1
        && (|r'[c][n]| > |r[c][n]| ==> r'[c][n][|r[c][n]|] == msg)
  {
    var r' := DeliverTo(r, code, recipients, msg);
    forall c, n | c in r && n in r[c]
      ensures r[c][n] <= r'[c][n]
    {
      if c == code && n in recipients {
        assert r'[c][n] == r[c][n] + [msg];
      }
    }
  }

  /** Deliveries keep the registry valid. */
  lemma DeliveryKeepsValid<T>(r: Registry<T>, code: string, recipients: set<string>, msg: T)
    requires Valid(r)
    ensures Valid(DeliverTo(r, code, recipients, msg))
  {
    var r' := DeliverTo(r, code, recipients, msg);
    if code in r {
      var x :| x in r[code];
      assert x in r'[code];
    }
  }
}
