/** The game hub of server/gamehub/gamehub.go: it keeps one game per party
    code, routes each command to its handler, stores the handler's game and
    then dispatches the handler's events in order. The code generator is
    represented by the code it returned, and the message dispatcher by the
    log of dispatched events. */
module GameHub {
  import opened GameRulesInterface
  import opened HubMessages

  /** A handler's `(updatedGame, messagesToDispatch)`. */
  datatype Handled<G> = Handled(updated: G, toDispatch: seq<Event>)

  /** `handleJoinPartyCommand`. Go's named result is reassigned by
      `updatedGame, err := ...`, so the game the rules return is kept even
      when they refuse the player. */
  function HandleJoinParty<G>(rules: Rules<G>, current: G, code: string, user: string): Handled<G> {
    var step := rules.addPlayer(current, user);
    Handled(step.game, if step.ok then [PlayerJoined(code, user)] else [])
  }

  /** `handleStartGameCommand`: announces the first leader of the started
      game. */
  function HandleStartGame<G>(rules: Rules<G>, current: G, code: string): Handled<G> {
    var step := rules.start(current);
    Handled(step.game, if step.ok then [LeaderStartedToSelectMembers(code, rules.leader(step.game))] else [])
  }

  /** `handleLeaderSelectsMember`. */
  function HandleLeaderSelectsMember<G>(rules: Rules<G>, current: G, code: string, leader: string, member: string): Handled<G> {
    if leader != rules.leader(current) then Handled(current, [])
    else
      var step := rules.leaderSelectsMember(current, member);
      Handled(step.game, if step.ok then [LeaderSelectedMember(code, member)] else [])
  }

  /** `handleLeaderDeselectsMember`. */
  function HandleLeaderDeselectsMember<G>(rules: Rules<G>, current: G, code: string, leader: string, member: string): Handled<G> {
    if leader != rules.leader(current) then Handled(current, [])
    else
      var step := rules.leaderDeselectsMember(current, member);
      Handled(step.game, if step.ok then [LeaderDeselectedMember(code, member)] else [])
  }

  /** `handleLeaderConfirmsTeamSelection`. */
  function HandleLeaderConfirmsTeamSelection<G>(rules: Rules<G>, current: G, code: string, leader: string): Handled<G> {
    if leader != rules.leader(current) then Handled(current, [])
    else
      var step := rules.leaderConfirmsTeamSelection(current);
      Handled(step.game, if step.ok then [LeaderConfirmedSelection(code)] else [])
  }

  /** `commonVoteOutgoingMessages`: what follows a vote, by the state the
      vote left the game in. */
  function CommonVoteOutgoingMessages<G>(rules: Rules<G>, updated: G, code: string): (r: seq<Event>)
    ensures |r| == 0 || |r| == 2
    ensures |r| == 2 <==> rules.state(updated) in {SelectingTeam, ConductingMission, GameOver}
    ensures |r| == 2 ==> r[0].AllPlayerVotedOnTeam? && (r[0].approved <==> rules.state(updated) == ConductingMission)
  {
    match rules.state(updated)
    case SelectingTeam =>
      [AllPlayerVotedOnTeam(code, false, rules.voteFailures(updated)),
       LeaderStartedToSelectMembers(code, rules.leader(updated))]
    case ConductingMission =>
      [AllPlayerVotedOnTeam(code, true, 0), MissionStarted(code)]
    case GameOver =>
      [AllPlayerVotedOnTeam(code, false, rules.voteFailures(updated)), GameEnded(code, HubMessages.Spy)]
    case _ => []
  }

  /** A vote handler (`handleApproveTeam`, `handleRejectTeam`): a refused
      vote restores the current game. */
  function HandleVote<G>(rules: Rules<G>, current: G, code: string, player: string, approve: bool): Handled<G> {
    var step := if approve then rules.approveTeamBy(current, player) else rules.rejectTeamBy(current, player);
    if !step.ok then Handled(current, [])
    else Handled(step.game, [PlayerVotedOnTeam(code, player, approve)] + CommonVoteOutgoingMessages(rules, step.game, code))
  }

  /** The outcome of the mission just closed: Go reads the results map at
      `CurrentMission()-1`, and an absent key reads as false. */
  function LastMissionSuccess<G>(rules: Rules<G>, updated: G): bool {
    var results := rules.missionResults(updated);
    var last := rules.currentMission(updated) - 1;
    last in results && results[last]
  }

  /** The hub's allegiance for the rules' winner; anything but the two
      sides is the empty zero value. */
  function WinnerOf(winner: GameRulesInterface.Allegiance): (a: HubMessages.Allegiance)
    ensures a == HubMessages.Spy <==> winner == GameRulesInterface.Spy
    ensures a == HubMessages.Resistance <==> winner == GameRulesInterface.Resistance
  {
    if winner == GameRulesInterface.Resistance then HubMessages.Resistance
    else if winner == GameRulesInterface.Spy then HubMessages.Spy
    else NoAllegiance
  }

  /** `commonMissionOutgoingMessages`. */
  function CommonMissionOutgoingMessages<G>(rules: Rules<G>, updated: G, code: string): (r: seq<Event>)
    ensures |r| == 0 || |r| == 2
    ensures |r| == 2 <==> rules.state(updated) in {SelectingTeam, GameOver}
    ensures |r| == 2 ==> r[0] == MissionCompleted(code, LastMissionSuccess(rules, updated))
  {
    match rules.state(updated)
    case SelectingTeam =>
      [MissionCompleted(code, LastMissionSuccess(rules, updated)),
       LeaderStartedToSelectMembers(code, rules.leader(updated))]
    case GameOver =>
      [MissionCompleted(code, LastMissionSuccess(rules, updated)),
       GameEnded(code, WinnerOf(rules.winner(updated)))]
    case _ => []
  }

  /** A mission handler (`handleSucceedMission`, `handleFailMission`). */
  function HandleMission<G>(rules: Rules<G>, current: G, code: string, player: string, success: bool): Handled<G> {
    var step := if success then rules.succeedMissionBy(current, player) else rules.failMissionBy(current, player);
    if !step.ok then Handled(current, [])
    else Handled(step.game, [PlayerWorkedOnMission(code, player, success)] + CommonMissionOutgoingMessages(rules, step.game, code))
  }

  /** The handler `HandleMessage` picks for a command it handles. */
  function Handle<G>(rules: Rules<G>, current: G, m: Command): Handled<G>
    requires !m.Unhandled?
  {
    match m
    case JoinParty(code, user) => HandleJoinParty(rules, current, code, user)
    case StartGame(code) => HandleStartGame(rules, current, code)
    case LeaderSelectsMember(code, leader, member) => HandleLeaderSelectsMember(rules, current, code, leader, member)
    case LeaderDeselectsMember(code, leader, member) => HandleLeaderDeselectsMember(rules, current, code, leader, member)
    case LeaderConfirmsTeamSelection(code, leader) => HandleLeaderConfirmsTeamSelection(rules, current, code, leader)
    case ApproveTeam(code, player) => HandleVote(rules, current, code, player, true)
    case RejectTeam(code, player) => HandleVote(rules, current, code, player, false)
    case SucceedMission(code, player) => HandleMission(rules, current, code, player, true)
    case FailMission(code, player) => HandleMission(rules, current, code, player, false)
  }

  predicate IsLeaderCommand(m: Command) {
    m.LeaderSelectsMember? || m.LeaderDeselectsMember? || m.LeaderConfirmsTeamSelection?
  }

  predicate IsVote(m: Command) {
    m.ApproveTeam? || m.RejectTeam?
  }

  predicate IsMissionAction(m: Command) {
    m.SucceedMission? || m.FailMission?
  }

  /** The rules' answer to a vote or mission action. */
  function PlayerStep<G>(rules: Rules<G>, current: G, m: Command): Step<G>
    requires IsVote(m) || IsMissionAction(m)
  {
    match m
    case ApproveTeam(_, p) => rules.approveTeamBy(current, p)
    case RejectTeam(_, p) => rules.rejectTeamBy(current, p)
    case SucceedMission(_, p) => rules.succeedMissionBy(current, p)
    case FailMission(_, p) => rules.failMissionBy(current, p)
  }

  /** Every event a handler emits belongs to the command's party. */
  lemma EventsCarryPartyCode<G>(rules: Rules<G>, current: G, m: Command)
    requires !m.Unhandled?
    ensures forall e :: e in Handle(rules, current, m).toDispatch ==> e.code == m.code
    ensures |Handle(rules, current, m).toDispatch| <= 3
  {
    if IsVote(m) {
      CommonEventsCarryCode(rules, PlayerStep(rules, current, m).game, m.code);
    } else if IsMissionAction(m) {
      CommonEventsCarryCode(rules, PlayerStep(rules, current, m).game, m.code);
    }
  }

  /** The events that follow a vote or a mission action belong to the
      given party. */
  lemma CommonEventsCarryCode<G>(rules: Rules<G>, updated: G, code: string)
    ensures forall e :: e in CommonVoteOutgoingMessages(rules, updated, code) ==> e.code == code
    ensures forall e :: e in CommonMissionOutgoingMessages(rules, updated, code) ==> e.code == code
  {
  }

  /** Select, deselect and confirm from anyone but the leader change
      nothing and emit nothing. */
  lemma NonLeaderIsIgnored<G>(rules: Rules<G>, current: G, m: Command)
    requires IsLeaderCommand(m) && m.leader != rules.leader(current)
    ensures Handle(rules, current, m) == Handled(current, [])
  {
  }

  /** From the leader, a select, deselect or confirm emits exactly its one
      event when the rules accept it and nothing otherwise. */
  lemma LeaderCommandOutcome<G>(rules: Rules<G>, current: G, m: Command)
    requires IsLeaderCommand(m) && m.leader == rules.leader(current)
    ensures m.LeaderSelectsMember? ==>
              var step := rules.leaderSelectsMember(current, m.memberToSelect);
              Handle(rules, current, m) == Handled(step.game, if step.ok then [LeaderSelectedMember(m.code, m.memberToSelect)] else [])
    ensures m.LeaderDeselectsMember? ==>
              var step := rules.leaderDeselectsMember(current, m.memberToDeselect);
              Handle(rules, current, m) == Handled(step.game, if step.ok then [LeaderDeselectedMember(m.code, m.memberToDeselect)] else [])
    ensures m.LeaderConfirmsTeamSelection? ==>
              var step := rules.leaderConfirmsTeamSelection(current);
              Handle(rules, current, m) == Handled(step.game, if step.ok then [LeaderConfirmedSelection(m.code)] else [])
  {
  }

  /** A join or start the rules refuse emits nothing, but the game the
      rules returned replaces the current one. */
  lemma RefusedJoinOrStartKeepsRulesGame<G>(rules: Rules<G>, current: G, m: Command)
    requires m.JoinParty? || m.StartGame?
    ensures m.JoinParty? && !rules.addPlayer(current, m.user).ok ==>
              Handle(rules, current, m) == Handled(rules.addPlayer(current, m.user).game, [])
    ensures m.StartGame? && !rules.start(current).ok ==>
              Handle(rules, current, m) == Handled(rules.start(current).game, [])
    ensures m.JoinParty? && rules.addPlayer(current, m.user).ok ==>
              Handle(rules, current, m).toDispatch == [PlayerJoined(m.code, m.user)]
    ensures m.StartGame? && rules.start(current).ok ==>
              Handle(rules, current, m).toDispatch == [LeaderStartedToSelectMembers(m.code, rules.leader(rules.start(current).game))]
  {
  }

  /** A vote or mission action the rules refuse restores the current game
      and emits nothing. */
  lemma RefusedPlayerActionRestoresGame<G>(rules: Rules<G>, current: G, m: Command)
    requires (IsVote(m) || IsMissionAction(m)) && !PlayerStep(rules, current, m).ok
    ensures Handle(rules, current, m) == Handled(current, [])
  {
  }

  /** An accepted vote announces the voter's choice, then what the new
      state calls for. */
  lemma AcceptedVoteEvents<G>(rules: Rules<G>, current: G, m: Command)
    requires IsVote(m) && PlayerStep(rules, current, m).ok
    ensures var g := PlayerStep(rules, current, m).game;
            var r := Handle(rules, current, m);
            && r.updated == g
            && r.toDispatch[0] == PlayerVotedOnTeam(m.code, m.player, m.ApproveTeam?)
            && (rules.state(g) == SelectingTeam ==>
                  r.toDispatch[1..] == [AllPlayerVotedOnTeam(m.code, false, rules.voteFailures(g)),
                                        LeaderStartedToSelectMembers(m.code, rules.leader(g))])
            && (rules.state(g) == ConductingMission ==>
                  r.toDispatch[1..] == [AllPlayerVotedOnTeam(m.code, true, 0), MissionStarted(m.code)])
            && (rules.state(g) == GameOver ==>
                  r.toDispatch[1..] == [AllPlayerVotedOnTeam(m.code, false, rules.voteFailures(g)), GameEnded(m.code, HubMessages.Spy)])
            && (rules.state(g) in {NotStarted, VotingOnTeam} ==> r.toDispatch == [r.toDispatch[0]])
  {
  }

  /** An accepted mission action announces the player's card, then, if the
      mission closed, its outcome followed by the next leader or the
      winner. */
  lemma AcceptedMissionEvents<G>(rules: Rules<G>, current: G, m: Command)
    requires IsMissionAction(m) && PlayerStep(rules, current, m).ok
    ensures var g := PlayerStep(rules, current, m).game;
            var r := Handle(rules, current, m);
            && r.updated == g
            && r.toDispatch[0] == PlayerWorkedOnMission(m.code, m.player, m.SucceedMission?)
            && (rules.state(g) == SelectingTeam ==>
                  r.toDispatch[1..] == [MissionCompleted(m.code, LastMissionSuccess(rules, g)),
                                        LeaderStartedToSelectMembers(m.code, rules.leader(g))])
            && (rules.state(g) == GameOver ==>
                  r.toDispatch[1..] == [MissionCompleted(m.code, LastMissionSuccess(rules, g)),
                                        GameEnded(m.code, WinnerOf(rules.winner(g)))])
            && (rules.state(g) !in {SelectingTeam, GameOver} ==> r.toDispatch == [r.toDispatch[0]])
  {
  }

  class Hub<G> {
    const rules: Rules<G>
    var gamesByPartyCode: map<string, G>
    /** Every event handed to the message dispatcher, in order. */
    var dispatched: seq<Event>

    /** `New`. */
    constructor (rules: Rules<G>)
      ensures this.rules == rules && gamesByPartyCode == map[] && dispatched == []
    {
      this.rules := rules;
      gamesByPartyCode := map[];
      dispatched := [];
    }

    /** `getGameForPartyCode`: the stored game, or the zero game. */
    function GameFor(code: string): (g: G)
      reads this
      ensures code in gamesByPartyCode ==> g == gamesByPartyCode[code]
      ensures code !in gamesByPartyCode ==> g == rules.zero
    {
      if code in gamesByPartyCode then gamesByPartyCode[code] else rules.zero
    }

    /** `CreateParty`, given the code the generator produced: a new game is
        stored under it. */
    method CreateParty(generated: string) returns (code: string)
      modifies this`gamesByPartyCode
      ensures code == generated
      ensures gamesByPartyCode == old(gamesByPartyCode)[generated := rules.newGame]
      ensures GameFor(code) == rules.newGame
    {
      code := generated;
      gamesByPartyCode := gamesByPartyCode[code := rules.newGame];
    }

    /** `HandleMessage`: the handler's game is stored under the command's
        code (even if no party had that code), and only then are its events
        dispatched, in order. Unhandled messages change nothing. */
    method HandleMessage(m: Command)
      modifies this`gamesByPartyCode, this`dispatched
      ensures m.Unhandled? ==> gamesByPartyCode == old(gamesByPartyCode) && dispatched == old(dispatched)
      ensures !m.Unhandled? ==>
                var h := Handle(rules, old(GameFor(m.code)), m);
                && gamesByPartyCode == old(gamesByPartyCode)[m.code := h.updated]
                && dispatched == old(dispatched) + h.toDispatch
      ensures forall c :: c != m.code ==> GameFor(c) == old(GameFor(c))
    {
      if m.Unhandled? {
        return;
      }
      var h := Handle(rules, GameFor(m.code), m);
      gamesByPartyCode := gamesByPartyCode[m.code := h.updated];
      DispatchAll(h.toDispatch);
    }

    /** The dispatch loop of `HandleMessage`: each event in order. */
    method DispatchAll(events: seq<Event>)
      modifies this`dispatched
      ensures dispatched == old(dispatched) + events
    {
      var i := 0;
      while i < |events|
        invariant 0 <= i <= |events|
        invariant dispatched == old(dispatched) + events[..i]
      {
        assert events[..i + 1] == events[..i] + [events[i]];
        dispatched := dispatched + [events[i]];
        i := i + 1;
      }
      assert events[..i] == events;
    }
  }
}
