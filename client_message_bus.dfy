/** The browser client's message bus (client/src/messages/messagebus.ts,
    and the identical older client/src/messagebus.ts): consumers are kept in
    subscription order and every dispatched message is handed to each of
    them in turn. A consumer is an opaque identity `C`; what it does with a
    message is modelled by the consumer modules. */
module ClientMessageBus {

  /** The deliveries one dispatch of `m` makes, in subscription order. */
  function Fanout<C, M>(consumers: seq<C>, m: M): (r: seq<(C, M)>)
    ensures |r| == |consumers|
    ensures forall i :: 0 <= i < |consumers| ==> r[i] == (consumers[i], m)
  {
    if consumers == [] then []
    else Fanout(consumers[..|consumers| - 1], m) + [(consumers[|consumers| - 1], m)]
  }

  /** The messages `c` was handed, in the order it was handed them. */
  function Received<C(==), M>(log: seq<(C, M)>, c: C): (r: seq<M>)
    ensures |r| <= |log|
  {
    if log == [] then []
    else
      var last := log[|log| - 1];
      Received(log[..|log| - 1], c) + (if last.0 == c then [last.1] else [])
  }

  /** `n` copies of `m`. */
  function Copies<M>(m: M, n: nat): (r: seq<M>)
    ensures |r| == n
    ensures forall i :: 0 <= i < n ==> r[i] == m
  {
    if n == 0 then [] else Copies(m, n - 1) + [m]
  }

  class MessageBus<C(==), M> {
    var consumers: seq<C>
    /** Every (consumer, message) hand-over so far. */
    var delivered: seq<(C, M)>

    constructor()
      ensures consumers == [] && delivered == []
    {
      consumers := [];
      delivered := [];
    }

    /** `subscribeConsumer`: appends; there is no unsubscribe. */
    method Subscribe(c: C)
      modifies this`consumers
      ensures consumers == old(consumers) + [c]
    {
      consumers := consumers + [c];
    }

    /** `dispatch`: every consumer, once each, in subscription order. */
    method Dispatch(m: M)
      modifies this`delivered
      ensures delivered == old(delivered) + Fanout(consumers, m)
    {
      var i := 0;
      while i < |consumers|
        invariant 0 <= i <= |consumers|
        invariant delivered == old(delivered) + Fanout(consumers[..i], m)
      {
        assert consumers[..i + 1][..i] == consumers[..i];
        delivered := delivered + [(consumers[i], m)];
        i := i + 1;
      }
      assert consumers[..i] == consumers;
    }
  }

  lemma {:induction false} ReceivedConcat<C, M>(a: seq<(C, M)>, b: seq<(C, M)>, c: C)
    ensures Received(a + b, c) == Received(a, c) + Received(b, c)
    decreases |b|
  {
    if b == [] {
      assert a + b == a;
    } else {
      var b' := b[..|b| - 1];
      assert (a + b)[..|a + b| - 1] == a + b';
      ReceivedConcat(a, b', c);
    }
  }

  /** One dispatch hands `m` to `c` once per subscription of `c`: exactly
      once for a consumer subscribed once, never for one not subscribed. */
  lemma {:induction false} FanoutReachesEachOnce<C, M>(consumers: seq<C>, m: M, c: C)
    ensures Received(Fanout(consumers, m), c) == Copies(m, multiset(consumers)[c])
    decreases |consumers|
  {
    if consumers != [] {
      var init := consumers[..|consumers| - 1];
      var last := consumers[|consumers| - 1];
      assert consumers == init + [last];
      assert Fanout(consumers, m)[..|consumers| - 1] == Fanout(init, m);
      FanoutReachesEachOnce(init, m, c);
      assert multiset(consumers) == multiset(init) + multiset{last};
    }
  }

  /** Each consumer sees successive dispatches in dispatch order: after
      dispatching `m1` then `m2`, a consumer subscribed once has received
      exactly what it had before, then `m1`, then `m2`. */
  lemma DispatchOrderKept<C, M>(log: seq<(C, M)>, consumers: seq<C>, m1: M, m2: M, c: C)
    requires multiset(consumers)[c] == 1
    ensures Received(log + Fanout(consumers, m1) + Fanout(consumers, m2), c)
         == Received(log, c) + [m1, m2]
  {
    ReceivedConcat(log + Fanout(consumers, m1), Fanout(consumers, m2), c);
    ReceivedConcat(log, Fanout(consumers, m1), c);
    FanoutReachesEachOnce(consumers, m1, c);
    FanoutReachesEachOnce(consumers, m2, c);
  }
}
