/** Routing of bus events to browser clients
    (server/clientstream/client_event_broker.go). Each bus event becomes a
    list of calls on the event sender: to the whole party, to one player, or
    to everyone in the party but one player. Private information (a player's
    own vote or mission card, the spy list) only goes to those allowed to
    see it. */
module ClientEventBroker {
  import opened Wrappers
  import Bus = BusMessages
  import CE = ClientEvents

  /** One call on the event sender. */
  datatype Send =
    | ToParty(code: string, event: CE.ClientEvent)
    | ToPlayer(code: string, name: string, event: CE.ClientEvent)
    | ToAllButPlayer(code: string, name: string, event: CE.ClientEvent)

  /** The names listed with allegiance `a`, in listing order. */
  function NamesWith(pairs: seq<(string, Bus.Allegiance)>, a: Bus.Allegiance): (r: seq<string>)
    ensures |r| <= |pairs|
  {
    if pairs == [] then []
    else
      var last := pairs[|pairs| - 1];
      NamesWith(pairs[..|pairs| - 1], a) + (if last.1 == a then [last.0] else [])
  }

  /** A name is selected exactly when it is listed with that allegiance. */
  lemma {:induction false} NamesWithMembers(pairs: seq<(string, Bus.Allegiance)>, a: Bus.Allegiance, n: string)
    ensures n in NamesWith(pairs, a) <==> (n, a) in pairs
  {
    if pairs != [] {
      var init := pairs[..|pairs| - 1];
      assert pairs == init + [pairs[|pairs| - 1]];
      NamesWithMembers(init, a, n);
    }
  }

  /** The spy set every spy receives. */
  function SpySet(pairs: seq<(string, Bus.Allegiance)>): (r: set<string>)
    ensures forall n :: n in r <==> (n, Bus.Spy) in pairs
  {
    forall n ensures n in NamesWith(pairs, Bus.Spy) <==> (n, Bus.Spy) in pairs {
      NamesWithMembers(pairs, Bus.Spy, n);
    }
    set n | n in NamesWith(pairs, Bus.Spy)
  }

  /** One `SendToPlayer` of `event` per name, in order. */
  function ToEach(code: string, names: seq<string>, event: CE.ClientEvent): (r: seq<Send>)
    ensures |r| == |names|
    ensures forall i :: 0 <= i < |names| ==> r[i] == ToPlayer(code, names[i], event)
  {
    if names == [] then []
    else ToEach(code, names[..|names| - 1], event) + [ToPlayer(code, names[|names| - 1], event)]
  }

  /** The AllegianceRevealed branch: Resistance players first, each told
      nothing, then every spy told the spy set. Go visits both maps in an
      unspecified order; the model takes the listing order. */
  function RevealSends(code: string, pairs: seq<(string, Bus.Allegiance)>): seq<Send> {
    ToEach(code, NamesWith(pairs, Bus.Resistance), CE.SpiesRevealed(None))
    + ToEach(code, NamesWith(pairs, Bus.Spy), CE.SpiesRevealed(Some(SpySet(pairs))))
  }

  /** What `Consume` sends for one bus message. */
  function Route(m: Bus.Message): (r: seq<Send>)
    ensures forall s :: s in r ==> s.code == m.code
  {
    var code := m.code;
    match m
    case PlayerConnected(_, p) => [ToParty(code, CE.PlayerConnected(p))]
    case PlayerDisconnected(_, p) => [ToParty(code, CE.PlayerDisconnected(p))]
    case PlayerJoined(_, p) => [ToParty(code, CE.PlayerJoined(p))]
    case AllegianceRevealed(_, pairs) => RevealSends(code, pairs)
    case LeaderStartedToSelectMembers(_, leader) => [ToParty(code, CE.LeaderStartedToSelectMembers(leader))]
    case LeaderSelectedMember(_, member) => [ToParty(code, CE.LeaderSelectedMember(member))]
    case LeaderDeselectedMember(_, member) => [ToParty(code, CE.LeaderDeselectedMember(member))]
    case LeaderConfirmedSelection(_) => [ToParty(code, CE.LeaderConfirmedSelection)]
    case PlayerVotedOnTeam(_, p, approved) =>
      [ToPlayer(code, p, CE.PlayerVotedOnTeam(p, Some(approved))),
       ToAllButPlayer(code, p, CE.PlayerVotedOnTeam(p, None))]
    case AllPlayerVotedOnTeam(_, approved, voteFailures, playerVotes) =>
      [ToParty(code, CE.AllPlayerVotedOnTeam(approved, voteFailures, playerVotes))]
    case MissionStarted(_) => [ToParty(code, CE.MissionStarted)]
    case PlayerWorkedOnMission(_, p, success) =>
      [ToPlayer(code, p, CE.PlayerWorkedOnMission(p, Some(success))),
       ToAllButPlayer(code, p, CE.PlayerWorkedOnMission(p, None))]
    case MissionCompleted(_, success, outcomes) =>
      [ToParty(code, CE.MissionCompleted(success, if false in outcomes then outcomes[false] else 0))]
    case GameEnded(_, winner) => [ToParty(code, CE.GameEnded(Bus.AllegianceName(winner), None))]
    case _ => []
  }

  /** The bus events that become exactly one party-wide send. */
  predicate IsPublic(m: Bus.Message) {
    m.PlayerConnected? || m.PlayerDisconnected? || m.PlayerJoined?
    || m.LeaderStartedToSelectMembers? || m.LeaderSelectedMember? || m.LeaderDeselectedMember?
    || m.LeaderConfirmedSelection? || m.AllPlayerVotedOnTeam? || m.MissionStarted?
    || m.MissionCompleted? || m.GameEnded?
  }

  /** The bus events the broker reacts to at all. */
  predicate IsRouted(m: Bus.Message) {
    IsPublic(m) || m.AllegianceRevealed? || m.PlayerVotedOnTeam? || m.PlayerWorkedOnMission?
  }

  /** `Consume`: the switch over the bus message, with the AllegianceRevealed
      branch's two loops written out. */
  method Consume(m: Bus.Message) returns (sends: seq<Send>)
    ensures sends == Route(m)
  {
    if m.AllegianceRevealed? {
      sends := RevealAllegiances(m.code, m.allegianceByPlayer);
    } else {
      sends := Route(m);
    }
  }

  /** One more pair of the listing adds its name to the selection iff it has
      the allegiance selected. */
  lemma NamesWithStep(pairs: seq<(string, Bus.Allegiance)>, i: nat, a: Bus.Allegiance)
    requires i < |pairs|
    ensures NamesWith(pairs[..i + 1], a) == NamesWith(pairs[..i], a) + (if pairs[i].1 == a then [pairs[i].0] else [])
  {
    assert pairs[..i + 1][..i] == pairs[..i];
  }

  /** One more name adds one send at the end. */
  lemma ToEachAppend(code: string, names: seq<string>, n: string, event: CE.ClientEvent)
    ensures ToEach(code, names + [n], event) == ToEach(code, names, event) + [ToPlayer(code, n, event)]
  {
    assert (names + [n])[..|names|] == names;
  }

  /** The spy set is the set of the spies collected in listing order. */
  lemma SpySetOfSpies(pairs: seq<(string, Bus.Allegiance)>, spies: set<string>)
    requires forall n :: n in spies <==> n in NamesWith(pairs, Bus.Spy)
    ensures spies == SpySet(pairs)
  {
    forall n ensures n in spies <==> n in SpySet(pairs) {
      NamesWithMembers(pairs, Bus.Spy, n);
    }
  }

  /** The AllegianceRevealed branch: the first loop tells each Resistance
      player nothing and collects the spies, the second tells each spy the
      collected set. */
  method RevealAllegiances(code: string, pairs: seq<(string, Bus.Allegiance)>) returns (sends: seq<Send>)
    ensures sends == RevealSends(code, pairs)
  {
    var spies, spyOrder;
    sends, spies, spyOrder := TellResistance(code, pairs);
    var toSpies := TellSpies(code, spyOrder, spies);
    sends := sends + toSpies;
  }

  /** The first loop of the AllegianceRevealed branch: a SpiesRevealed event
      with no spies to each Resistance player, in listing order, while the
      spies are collected both in order and as a set. */
  method TellResistance(code: string, pairs: seq<(string, Bus.Allegiance)>)
    returns (sends: seq<Send>, spies: set<string>, spyOrder: seq<string>)
    ensures sends == ToEach(code, NamesWith(pairs, Bus.Resistance), CE.SpiesRevealed(None))
    ensures spyOrder == NamesWith(pairs, Bus.Spy)
    ensures spies == SpySet(pairs)
  {
    spies := {};
    spyOrder := [];
    ghost var resistance: seq<string> := [];
    sends := [];
    var i := 0;
    while i < |pairs|
      invariant 0 <= i <= |pairs|
      invariant resistance == NamesWith(pairs[..i], Bus.Resistance)
      invariant spyOrder == NamesWith(pairs[..i], Bus.Spy)
      invariant sends == ToEach(code, resistance, CE.SpiesRevealed(None))
      invariant forall n :: n in spies <==> n in spyOrder
    {
      var name := pairs[i].0;
      NamesWithStep(pairs, i, Bus.Resistance);
      NamesWithStep(pairs, i, Bus.Spy);
      if pairs[i].1 == Bus.Resistance {
        ToEachAppend(code, resistance, name, CE.SpiesRevealed(None));
        sends := sends + [ToPlayer(code, name, CE.SpiesRevealed(None))];
        resistance := resistance + [name];
      } else {
        spies := spies + {name};
        spyOrder := spyOrder + [name];
      }
      i := i + 1;
    }
    assert pairs[..i] == pairs;
    SpySetOfSpies(pairs, spies);
  }

  /** The second loop of the AllegianceRevealed branch: the spy set to each
      spy, in order. */
  method TellSpies(code: string, spyOrder: seq<string>, spies: set<string>) returns (sends: seq<Send>)
    ensures sends == ToEach(code, spyOrder, CE.SpiesRevealed(Some(spies)))
  {
    sends := [];
    var j := 0;
    while j < |spyOrder|
      invariant 0 <= j <= |spyOrder|
      invariant sends == ToEach(code, spyOrder[..j], CE.SpiesRevealed(Some(spies)))
    {
      assert spyOrder[..j + 1] == spyOrder[..j] + [spyOrder[j]];
      ToEachAppend(code, spyOrder[..j], spyOrder[j], CE.SpiesRevealed(Some(spies)));
      sends := sends + [ToPlayer(code, spyOrder[j], CE.SpiesRevealed(Some(spies)))];
      j := j + 1;
    }
    assert spyOrder[..j] == spyOrder;
  }

  /** The names a list of player-addressed sends goes to. */
  function Recipients(sends: seq<Send>): (r: seq<string>)
    requires forall s :: s in sends ==> s.ToPlayer?
    ensures |r| == |sends| && forall i :: 0 <= i < |sends| ==> r[i] == sends[i].name
  {
    if sends == [] then [] else Recipients(sends[..|sends| - 1]) + [sends[|sends| - 1].name]
  }

  /** Splitting a listing by allegiance loses and adds no one. */
  lemma {:induction false} SplitByAllegiance(pairs: seq<(string, Bus.Allegiance)>)
    ensures multiset(NamesWith(pairs, Bus.Resistance)) + multiset(NamesWith(pairs, Bus.Spy))
         == multiset(Bus.Names(pairs))
  {
    if pairs != [] {
      var init := pairs[..|pairs| - 1];
      var last := pairs[|pairs| - 1];
      SplitByAllegiance(init);
      assert multiset(Bus.Names(pairs)) == multiset(Bus.Names(init)) + multiset{last.0};
      var res := NamesWith(init, Bus.Resistance);
      var spy := NamesWith(init, Bus.Spy);
      if last.1 == Bus.Resistance {
        assert multiset(NamesWith(pairs, Bus.Resistance)) == multiset(res) + multiset{last.0};
        assert NamesWith(pairs, Bus.Spy) == spy;
      } else {
        assert NamesWith(pairs, Bus.Resistance) == res;
        assert multiset(NamesWith(pairs, Bus.Spy)) == multiset(spy) + multiset{last.0};
      }
    }
  }

  /** The sends to each of a list of names go to those names. */
  lemma RecipientsOfToEach(code: string, names: seq<string>, event: CE.ClientEvent)
    ensures forall s :: s in ToEach(code, names, event) ==> s.ToPlayer? && s.event == event
    ensures Recipients(ToEach(code, names, event)) == names
  {
  }

  /** The recipients of two lists of sends, one after the other. */
  lemma RecipientsConcat(a: seq<Send>, b: seq<Send>)
    requires forall s :: s in a ==> s.ToPlayer?
    requires forall s :: s in b ==> s.ToPlayer?
    ensures Recipients(a + b) == Recipients(a) + Recipients(b)
  {
    var q := Recipients(a + b);
    assert forall i :: 0 <= i < |a| ==> (a + b)[i] == a[i];
    assert forall i :: |a| <= i < |a + b| ==> (a + b)[i] == b[i - |a|];
    assert q == Recipients(a) + Recipients(b);
  }

  /** Every send of the AllegianceRevealed branch is a SpiesRevealed event
      addressed to one player. */
  lemma RevealSendsToPlayers(code: string, pairs: seq<(string, Bus.Allegiance)>)
    ensures forall s :: s in RevealSends(code, pairs) ==> s.ToPlayer? && s.event.SpiesRevealed?
  {
    var res := NamesWith(pairs, Bus.Resistance);
    var spy := NamesWith(pairs, Bus.Spy);
    var a := ToEach(code, res, CE.SpiesRevealed(None));
    var b := ToEach(code, spy, CE.SpiesRevealed(Some(SpySet(pairs))));
    forall s | s in RevealSends(code, pairs)
      ensures s.ToPlayer? && s.event.SpiesRevealed?
    {
      assert s in a + b;
      if s in a {
        InToEach(code, res, CE.SpiesRevealed(None), s);
      } else {
        InToEach(code, spy, CE.SpiesRevealed(Some(SpySet(pairs))), s);
      }
    }
  }

  /** The AllegianceRevealed branch tells the Resistance players, then the
      spies, each by name. */
  lemma RevealRecipients(code: string, pairs: seq<(string, Bus.Allegiance)>)
    ensures forall s :: s in RevealSends(code, pairs) ==> s.ToPlayer? && s.event.SpiesRevealed?
    ensures Recipients(RevealSends(code, pairs)) == NamesWith(pairs, Bus.Resistance) + NamesWith(pairs, Bus.Spy)
  {
    var res := NamesWith(pairs, Bus.Resistance);
    var spy := NamesWith(pairs, Bus.Spy);
    var a := ToEach(code, res, CE.SpiesRevealed(None));
    var b := ToEach(code, spy, CE.SpiesRevealed(Some(SpySet(pairs))));
    RevealSendsToPlayers(code, pairs);
    RecipientsOfToEach(code, res, CE.SpiesRevealed(None));
    RecipientsOfToEach(code, spy, CE.SpiesRevealed(Some(SpySet(pairs))));
    RecipientsConcat(a, b);
  }

  /** On AllegianceRevealed every listed player is told, and as often as
      listed (once, since a Go map lists each player once); no one else is. */
  lemma EachPlayerToldOnce(code: string, pairs: seq<(string, Bus.Allegiance)>)
    ensures forall s :: s in RevealSends(code, pairs) ==> s.ToPlayer? && s.event.SpiesRevealed?
    ensures multiset(Recipients(RevealSends(code, pairs))) == multiset(Bus.Names(pairs))
  {
    RevealRecipients(code, pairs);
    SplitByAllegiance(pairs);
  }

  /** On AllegianceRevealed Resistance players learn no spies and spies learn
      exactly the spy set. */
  lemma OnlySpiesLearnSpies(code: string, pairs: seq<(string, Bus.Allegiance)>)
    requires Bus.DistinctNames(pairs)
    ensures forall s :: s in RevealSends(code, pairs) ==>
      && s.event.SpiesRevealed?
      && (s.event.spies == None <==> (s.name, Bus.Resistance) in pairs)
      && (s.event.spies != None ==> s.event.spies.value == SpySet(pairs))
  {
    var r := RevealSends(code, pairs);
    forall s | s in r
      ensures && s.event.SpiesRevealed?
              && (s.event.spies == None <==> (s.name, Bus.Resistance) in pairs)
              && (s.event.spies != None ==> s.event.spies.value == SpySet(pairs))
    {
      SpiesMatchAllegiance(code, pairs, s);
    }
  }

  /** A send of `ToEach` goes to one of its names, with its event. */
  lemma InToEach(code: string, names: seq<string>, event: CE.ClientEvent, s: Send)
    requires s in ToEach(code, names, event)
    ensures s == ToPlayer(code, s.name, event) && s.name in names
  {
    var r := ToEach(code, names, event);
    var k :| 0 <= k < |r| && r[k] == s;
    assert r[k] == ToPlayer(code, names[k], event);
  }

  /** One send of the AllegianceRevealed branch tells its recipient no spies
      exactly when the recipient is listed as Resistance, and otherwise the
      spy set. */
  lemma SpiesMatchAllegiance(code: string, pairs: seq<(string, Bus.Allegiance)>, s: Send)
    requires Bus.DistinctNames(pairs)
    requires s in RevealSends(code, pairs)
    ensures s.event.SpiesRevealed?
    ensures s.event.spies == None <==> (s.name, Bus.Resistance) in pairs
    ensures s.event.spies != None ==> s.event.spies.value == SpySet(pairs)
  {
    var res := NamesWith(pairs, Bus.Resistance);
    var spy := NamesWith(pairs, Bus.Spy);
    var a := ToEach(code, res, CE.SpiesRevealed(None));
    var b := ToEach(code, spy, CE.SpiesRevealed(Some(SpySet(pairs))));
    assert s in a + b;
    if s in a {
      InToEach(code, res, CE.SpiesRevealed(None), s);
      NamesWithMembers(pairs, Bus.Resistance, s.name);
    } else {
      InToEach(code, spy, CE.SpiesRevealed(Some(SpySet(pairs))), s);
      NamesWithMembers(pairs, Bus.Spy, s.name);
      SpyIsNotResistance(pairs, s.name);
    }
  }

  /** In a listing without repeated names no one is both spy and Resistance. */
  lemma SpyIsNotResistance(pairs: seq<(string, Bus.Allegiance)>, n: string)
    requires Bus.DistinctNames(pairs)
    requires (n, Bus.Spy) in pairs
    ensures (n, Bus.Resistance) !in pairs
  {
    var i :| 0 <= i < |pairs| && pairs[i] == (n, Bus.Spy);
    if j :| 0 <= j < |pairs| && pairs[j] == (n, Bus.Resistance) {
      assert false;
    }
  }

  /** Privacy: whatever bus message is routed, a send that reveals a vote or
      a mission card goes to that player alone, and the other players of the
      party are told only that the player acted. */
  lemma ChoicesStayPrivate(m: Bus.Message)
    ensures forall s :: s in Route(m) && s.event.PlayerVotedOnTeam? && s.event.approved.Some? ==>
              s.ToPlayer? && s.name == s.event.player
    ensures forall s :: s in Route(m) && s.event.PlayerWorkedOnMission? && s.event.success.Some? ==>
              s.ToPlayer? && s.name == s.event.player
    ensures m.PlayerVotedOnTeam? ==>
              ToPlayer(m.code, m.player, CE.PlayerVotedOnTeam(m.player, Some(m.approved))) in Route(m)
              && ToAllButPlayer(m.code, m.player, CE.PlayerVotedOnTeam(m.player, None)) in Route(m)
    ensures m.PlayerWorkedOnMission? ==>
              ToPlayer(m.code, m.player, CE.PlayerWorkedOnMission(m.player, Some(m.success))) in Route(m)
              && ToAllButPlayer(m.code, m.player, CE.PlayerWorkedOnMission(m.player, None)) in Route(m)
  {
    if m.AllegianceRevealed? {
      RevealSendsToPlayers(m.code, m.allegianceByPlayer);
    }
  }

  /** Which bus messages produce which shape of output: public ones exactly
      one party-wide send, unlisted ones (commands, PartyCreated, foreign
      messages) nothing. */
  lemma RouteShape(m: Bus.Message)
    ensures IsPublic(m) <==> |Route(m)| == 1 && Route(m)[0].ToParty?
    ensures !IsRouted(m) ==> Route(m) == []
    ensures m.PlayerVotedOnTeam? || m.PlayerWorkedOnMission? ==> |Route(m)| == 2
  {
    if m.AllegianceRevealed? {
      RevealSendsToPlayers(m.code, m.allegianceByPlayer);
    }
  }

  /** MissionCompleted reports the number of failure cards, 0 when the
      outcome map has no `false` entry; GameEnded reports the winner's
      allegiance string; AllPlayerVotedOnTeam is passed on unchanged. */
  lemma SummariesCopied(m: Bus.Message)
    ensures m.MissionCompleted? ==>
      Route(m)[0].event.succeeded == m.success
      && (false in m.outcomes ==> Route(m)[0].event.nbFails == m.outcomes[false])
      && (false !in m.outcomes ==> Route(m)[0].event.nbFails == 0)
    ensures m.GameEnded? ==>
      (Route(m)[0].event.winner == "spy" <==> m.winner == Bus.Spy)
    ensures m.AllPlayerVotedOnTeam? ==>
      Route(m)[0].event == CE.AllPlayerVotedOnTeam(m.approved, m.voteFailures, m.playerVotes)
  {
  }
}
