/** The client's decoding of the server event stream
    (client/src/stream/handler.ts, over the shape of
    client/src/stream/server-event.ts). A raw server event is a record with
    one optional field per kind; the handler looks at the fields in a fixed
    order and dispatches one typed message for the first one present. */
module StreamHandler {
  import opened Wrappers
  import opened ClientTypes
  import opened ClientMessages
  import JsCollections
  import CE = ClientEvents

  datatype RawRequirement = RawRequirement(nbPeopleOnMission: int, nbFailuresRequiredToFail: int)

  /** The `Spies` object's keys, in order; `None` when the field is missing. */
  datatype RawSpies = RawSpies(spies: Option<seq<string>>)
  datatype RawVote = RawVote(player: string, approved: Option<bool>)
  datatype RawAllVotes = RawAllVotes(approved: bool, voteFailures: int, playerVotes: map<string, bool>)
  datatype RawWork = RawWork(player: string, success: Option<bool>)
  datatype RawCompleted = RawCompleted(success: bool, nbFails: int)
  datatype RawEnded = RawEnded(winner: string, spies: Option<seq<string>>)

  /** A parsed server event. Fields whose payload is `{}` are flags. */
  datatype ServerEvent = ServerEvent(
    partyCreated: Option<string>,
    playerConnected: Option<string>,
    playerDisconnected: Option<string>,
    playerJoined: Option<string>,
    gameStarted: Option<seq<RawRequirement>>,
    spiesRevealed: Option<RawSpies>,
    leaderStartedToSelectMembers: Option<string>,
    leaderSelectedMember: Option<string>,
    leaderDeselectedMember: Option<string>,
    leaderConfirmedSelection: bool,
    playerVotedOnTeam: Option<RawVote>,
    allPlayerVotedOnTeam: Option<RawAllVotes>,
    missionStarted: bool,
    playerWorkedOnMission: Option<RawWork>,
    missionCompleted: Option<RawCompleted>,
    gameEnded: Option<RawEnded>,
    eventsReplayStarted: Option<string>,
    eventsReplayEnded: bool)

  /** What the stream connection reports to the handler. */
  datatype StreamInput = Closed | Errored | Received(event: ServerEvent)

  /** The requirements of GameStarted, converted one by one. */
  function Requirements(raw: seq<RawRequirement>): (r: seq<MissionRequirement>)
    ensures |r| == |raw|
    ensures forall i :: 0 <= i < |raw| ==>
      r[i] == MissionRequirement(raw[i].nbPeopleOnMission, raw[i].nbFailuresRequiredToFail)
  {
    if raw == [] then []
    else
      var last := raw[|raw| - 1];
      Requirements(raw[..|raw| - 1]) + [MissionRequirement(last.nbPeopleOnMission, last.nbFailuresRequiredToFail)]
  }

  /** `onEvent`: the if/else chain. */
  function OnEvent(e: ServerEvent): Option<Message> {
    if e.eventsReplayStarted.Some? then Some(EventsReplayStarted(e.eventsReplayStarted.value))
    else if e.eventsReplayEnded then Some(EventsReplayEnded)
    else if e.playerConnected.Some? then Some(PlayerConnected(e.playerConnected.value))
    else if e.playerDisconnected.Some? then Some(PlayerDisconnected(e.playerDisconnected.value))
    else if e.playerJoined.Some? then Some(PlayerJoined(e.playerJoined.value))
    else if e.gameStarted.Some? then Some(GameStarted(Requirements(e.gameStarted.value)))
    else if e.spiesRevealed.Some? then
      Some(SpiesRevealed(JsCollections.FromList(e.spiesRevealed.value.spies.GetOr([]))))
    else if e.leaderStartedToSelectMembers.Some? then
      Some(LeaderStartedToSelectMembers(e.leaderStartedToSelectMembers.value))
    else if e.leaderSelectedMember.Some? then Some(LeaderSelectedMember(e.leaderSelectedMember.value))
    else if e.leaderDeselectedMember.Some? then Some(LeaderDeselectedMember(e.leaderDeselectedMember.value))
    else if e.leaderConfirmedSelection then Some(LeaderConfirmedTeam)
    else if e.playerVotedOnTeam.Some? then
      Some(PlayerVotedOnTeam(e.playerVotedOnTeam.value.player, e.playerVotedOnTeam.value.approved))
    else if e.allPlayerVotedOnTeam.Some? then
      Some(AllPlayerVotedOnTeam(e.allPlayerVotedOnTeam.value.approved, e.allPlayerVotedOnTeam.value.playerVotes))
    else if e.missionStarted then Some(MissionStarted)
    else if e.playerWorkedOnMission.Some? then
      Some(PlayerWorkedOnMission(e.playerWorkedOnMission.value.player, e.playerWorkedOnMission.value.success))
    else if e.missionCompleted.Some? then
      Some(MissionCompleted(e.missionCompleted.value.success, e.missionCompleted.value.nbFails))
    else if e.gameEnded.Some? then
      Some(GameEnded(if e.gameEnded.value.winner == "spy" then Spies else Resistance,
                     JsCollections.FromList(e.gameEnded.value.spies.GetOr([]))))
    else None
  }

  /** Everything the handler dispatches for one input: `onClose` and
      `onError` one message each, `onEvent` at most one. */
  function Dispatched(input: StreamInput): (r: seq<Message>)
    ensures |r| <= 1
    ensures input.Closed? ==> r == [ServerConnectionClosed]
    ensures input.Errored? ==> r == [ServerConnectionErrorOccured]
    ensures input.Received? ==> (r == [] <==> OnEvent(input.event).None?)
  {
    match input
    case Closed => [ServerConnectionClosed]
    case Errored => [ServerConnectionErrorOccured]
    case Received(e) => if OnEvent(e).Some? then [OnEvent(e).value] else []
  }

  /** Whether the handled field at position `j` of the chain is present. */
  predicate Present(e: ServerEvent, j: nat) {
    if j == 0 then e.eventsReplayStarted.Some?
    else if j == 1 then e.eventsReplayEnded
    else if j == 2 then e.playerConnected.Some?
    else if j == 3 then e.playerDisconnected.Some?
    else if j == 4 then e.playerJoined.Some?
    else if j == 5 then e.gameStarted.Some?
    else if j == 6 then e.spiesRevealed.Some?
    else if j == 7 then e.leaderStartedToSelectMembers.Some?
    else if j == 8 then e.leaderSelectedMember.Some?
    else if j == 9 then e.leaderDeselectedMember.Some?
    else if j == 10 then e.leaderConfirmedSelection
    else if j == 11 then e.playerVotedOnTeam.Some?
    else if j == 12 then e.allPlayerVotedOnTeam.Some?
    else if j == 13 then e.missionStarted
    else if j == 14 then e.playerWorkedOnMission.Some?
    else if j == 15 then e.missionCompleted.Some?
    else if j == 16 then e.gameEnded.Some?
    else false
  }

  /** The position in the chain of the field a decoded message comes from. */
  function Rank(m: Message): nat {
    match m
    case EventsReplayStarted(_) => 0
    case EventsReplayEnded => 1
    case PlayerConnected(_) => 2
    case PlayerDisconnected(_) => 3
    case PlayerJoined(_) => 4
    case GameStarted(_) => 5
    case SpiesRevealed(_) => 6
    case LeaderStartedToSelectMembers(_) => 7
    case LeaderSelectedMember(_) => 8
    case LeaderDeselectedMember(_) => 9
    case LeaderConfirmedTeam => 10
    case PlayerVotedOnTeam(_, _) => 11
    case AllPlayerVotedOnTeam(_, _) => 12
    case MissionStarted => 13
    case PlayerWorkedOnMission(_, _) => 14
    case MissionCompleted(_, _) => 15
    case GameEnded(_, _) => 16
    case _ => 17
  }

  /** Nothing is dispatched exactly when no handled field is present
      (PartyCreated is not handled). */
  lemma NothingHandledNothingDispatched(e: ServerEvent)
    ensures OnEvent(e).None? <==> forall k :: 0 <= k < 17 ==> !Present(e, k)
  {
    if forall k :: 0 <= k < 17 ==> !Present(e, k) {
      assert !Present(e, 0) && !Present(e, 1) && !Present(e, 2) && !Present(e, 3) && !Present(e, 4);
      assert !Present(e, 5) && !Present(e, 6) && !Present(e, 7) && !Present(e, 8);
      assert !Present(e, 9) && !Present(e, 10) && !Present(e, 11) && !Present(e, 12);
      assert !Present(e, 13) && !Present(e, 14) && !Present(e, 15) && !Present(e, 16);
    }
  }

  /** A field of the replay and connection fields (ranks 0 to 4) is present. */
  predicate ConnectionFieldPresent(e: ServerEvent) {
    e.eventsReplayStarted.Some? || e.eventsReplayEnded || e.playerConnected.Some?
    || e.playerDisconnected.Some? || e.playerJoined.Some?
  }

  /** A field of the game start and leader fields (ranks 5 to 8) is present. */
  predicate SetupFieldPresent(e: ServerEvent) {
    e.gameStarted.Some? || e.spiesRevealed.Some? || e.leaderStartedToSelectMembers.Some?
    || e.leaderSelectedMember.Some?
  }

  /** A field of the team selection and vote fields (ranks 9 to 12) is present. */
  predicate SelectionFieldPresent(e: ServerEvent) {
    e.leaderDeselectedMember.Some? || e.leaderConfirmedSelection || e.playerVotedOnTeam.Some?
    || e.allPlayerVotedOnTeam.Some?
  }

  /** The first present field wins: the message decoded comes from a present
      field and every field tested before it is absent. */
  lemma FirstPresentFieldWins(e: ServerEvent)
    requires OnEvent(e).Some?
    ensures var k := Rank(OnEvent(e).value);
      k < 17 && Present(e, k) && forall j :: 0 <= j < k ==> !Present(e, j)
  {
    if ConnectionFieldPresent(e) {
      ConnectionFieldWins(e);
    } else if SetupFieldPresent(e) {
      SetupFieldWins(e);
    } else if SelectionFieldPresent(e) {
      SelectionFieldWins(e);
    } else {
      MissionFieldWins(e);
    }
  }

  /** FirstPresentFieldWins when the first present field is one of the replay and connection fields (ranks 0 to 4). */
  lemma ConnectionFieldWins(e: ServerEvent)
    requires ConnectionFieldPresent(e)
    ensures OnEvent(e).Some?
    ensures var k := Rank(OnEvent(e).value);
      0 <= k < 5 && Present(e, k) && forall j :: 0 <= j < k ==> !Present(e, j)
  {
    if e.eventsReplayStarted.Some? {
      assert Rank(OnEvent(e).value) == 0;
    } else if e.eventsReplayEnded {
      assert Rank(OnEvent(e).value) == 1;
    } else if e.playerConnected.Some? {
      assert Rank(OnEvent(e).value) == 2;
    } else if e.playerDisconnected.Some? {
      assert Rank(OnEvent(e).value) == 3;
    } else if e.playerJoined.Some? {
      assert Rank(OnEvent(e).value) == 4;
    }
  }

  /** FirstPresentFieldWins when the first present field is one of the game start and leader fields (ranks 5 to 8). */
  lemma SetupFieldWins(e: ServerEvent)
    requires !ConnectionFieldPresent(e) && SetupFieldPresent(e)
    ensures OnEvent(e).Some?
    ensures var k := Rank(OnEvent(e).value);
      5 <= k < 9 && Present(e, k) && forall j :: 0 <= j < k ==> !Present(e, j)
  {
    if e.gameStarted.Some? {
      assert Rank(OnEvent(e).value) == 5;
    } else if e.spiesRevealed.Some? {
      assert Rank(OnEvent(e).value) == 6;
    } else if e.leaderStartedToSelectMembers.Some? {
      assert Rank(OnEvent(e).value) == 7;
    } else if e.leaderSelectedMember.Some? {
      assert Rank(OnEvent(e).value) == 8;
    }
  }

  /** FirstPresentFieldWins when the first present field is one of the team selection and vote fields (ranks 9 to 12). */
  lemma SelectionFieldWins(e: ServerEvent)
    requires !ConnectionFieldPresent(e) && !SetupFieldPresent(e) && SelectionFieldPresent(e)
    ensures OnEvent(e).Some?
    ensures var k := Rank(OnEvent(e).value);
      9 <= k < 13 && Present(e, k) && forall j :: 0 <= j < k ==> !Present(e, j)
  {
    if e.leaderDeselectedMember.Some? {
      assert Rank(OnEvent(e).value) == 9;
    } else if e.leaderConfirmedSelection {
      assert Rank(OnEvent(e).value) == 10;
    } else if e.playerVotedOnTeam.Some? {
      assert Rank(OnEvent(e).value) == 11;
    } else if e.allPlayerVotedOnTeam.Some? {
      assert Rank(OnEvent(e).value) == 12;
    }
  }

  /** FirstPresentFieldWins when the first present field is one of the mission and end fields (ranks 13 to 16). */
  lemma MissionFieldWins(e: ServerEvent)
    requires OnEvent(e).Some? && !ConnectionFieldPresent(e) && !SetupFieldPresent(e) && !SelectionFieldPresent(e)
    ensures var k := Rank(OnEvent(e).value);
      13 <= k < 17 && Present(e, k) && forall j :: 0 <= j < k ==> !Present(e, j)
  {
    if e.missionStarted {
      assert Rank(OnEvent(e).value) == 13;
    } else if e.playerWorkedOnMission.Some? {
      assert Rank(OnEvent(e).value) == 14;
    } else if e.missionCompleted.Some? {
      assert Rank(OnEvent(e).value) == 15;
    } else if e.gameEnded.Some? {
      assert Rank(OnEvent(e).value) == 16;
    }
  }

  /** The decoded payloads: spies become the set of the listed names (empty
      when the field is missing); a vote or card is kept only when present;
      AllPlayerVotedOnTeam keeps the votes and drops the failure count;
      GameEnded's winner is Spies exactly for "spy". */
  lemma PayloadsDecoded(e: ServerEvent)
    ensures OnEvent(e).Some? && OnEvent(e).value.SpiesRevealed? ==>
      var spies := OnEvent(e).value.spies;
      JsCollections.Distinct(spies)
      && (forall n :: n in spies <==> e.spiesRevealed.value.spies.Some? && n in e.spiesRevealed.value.spies.value)
    ensures OnEvent(e).Some? && OnEvent(e).value.PlayerVotedOnTeam? ==>
      OnEvent(e).value.approved == e.playerVotedOnTeam.value.approved
    ensures OnEvent(e).Some? && OnEvent(e).value.AllPlayerVotedOnTeam? ==>
      OnEvent(e).value.playerVotes == e.allPlayerVotedOnTeam.value.playerVotes
    ensures OnEvent(e).Some? && OnEvent(e).value.GameEnded? ==>
      (OnEvent(e).value.winner == Spies <==> e.gameEnded.value.winner == "spy")
      && (forall n :: n in OnEvent(e).value.spies <==> e.gameEnded.value.spies.Some? && n in e.gameEnded.value.spies.value)
  {
  }

  /** The event with no field set. */
  const NoFields := ServerEvent(None, None, None, None, None, None, None, None, None, false,
                                None, None, false, None, None, None, None, false)

  /** Some listing of a set, as JSON lists the keys of a Go map. */
  ghost function Listing(s: set<string>): (r: seq<string>)
    ensures JsCollections.Distinct(r)
    ensures forall x :: x in r <==> x in s
    decreases |s|
  {
    if s == {} then []
    else
      var x :| x in s;
      [x] + Listing(s - {x})
  }

  /** The parsed form of what the server's broker sends: each kind sets the
      field of the same name (the JSON text in between is not modelled). */
  ghost function FromServer(ce: CE.ClientEvent): ServerEvent {
    match ce
    case PlayerConnected(name) => NoFields.(playerConnected := Some(name))
    case PlayerDisconnected(name) => NoFields.(playerDisconnected := Some(name))
    case PlayerJoined(name) => NoFields.(playerJoined := Some(name))
    case GameStarted(reqs) =>
      NoFields.(gameStarted := Some(seq(|reqs|, i requires 0 <= i < |reqs| =>
        RawRequirement(reqs[i].nbPeopleOnMission, reqs[i].nbFailuresRequiredToFail))))
    case SpiesRevealed(spies) =>
      NoFields.(spiesRevealed := Some(RawSpies(if spies.Some? then Some(Listing(spies.value)) else None)))
    case LeaderStartedToSelectMembers(leader) => NoFields.(leaderStartedToSelectMembers := Some(leader))
    case LeaderSelectedMember(member) => NoFields.(leaderSelectedMember := Some(member))
    case LeaderDeselectedMember(member) => NoFields.(leaderDeselectedMember := Some(member))
    case LeaderConfirmedSelection => NoFields.(leaderConfirmedSelection := true)
    case PlayerVotedOnTeam(player, approved) => NoFields.(playerVotedOnTeam := Some(RawVote(player, approved)))
    case AllPlayerVotedOnTeam(approved, voteFailures, playerVotes) =>
      NoFields.(allPlayerVotedOnTeam := Some(RawAllVotes(approved, voteFailures, playerVotes)))
    case MissionStarted => NoFields.(missionStarted := true)
    case PlayerWorkedOnMission(player, success) => NoFields.(playerWorkedOnMission := Some(RawWork(player, success)))
    case MissionCompleted(success, nbFails) => NoFields.(missionCompleted := Some(RawCompleted(success, nbFails)))
    case GameEnded(winner, spies) => NoFields.(gameEnded := Some(RawEnded(winner, spies)))
    case EventsReplayStarted(player) => NoFields.(eventsReplayStarted := Some(player))
    case EventsReplayEnded => NoFields.(eventsReplayEnded := true)
  }

  /** Every event the server streams is understood by the client, and what
      the server keeps private stays private: another player's vote or card
      arrives as `null`, and a Resistance player's SpiesRevealed as an empty
      set. */
  lemma ClientUnderstandsServer(ce: CE.ClientEvent)
    ensures OnEvent(FromServer(ce)).Some?
    ensures ce.PlayerVotedOnTeam? ==>
      OnEvent(FromServer(ce)) == Some(PlayerVotedOnTeam(ce.player, ce.approved))
    ensures ce.PlayerWorkedOnMission? ==>
      OnEvent(FromServer(ce)) == Some(PlayerWorkedOnMission(ce.player, ce.success))
    ensures ce.SpiesRevealed? ==>
      OnEvent(FromServer(ce)).value.SpiesRevealed?
      && (ce.spies.None? ==> OnEvent(FromServer(ce)).value.spies == [])
      && (ce.spies.Some? ==> forall n :: n in OnEvent(FromServer(ce)).value.spies <==> n in ce.spies.value)
    ensures ce.GameEnded? ==>
      OnEvent(FromServer(ce)).value.GameEnded?
      && (OnEvent(FromServer(ce)).value.winner == Spies <==> ce.winner == "spy")
  {
  }
}
