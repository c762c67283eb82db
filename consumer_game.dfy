/** The game consumer (client/src/consumers/game.ts): a stateless chain of
    `instanceof` tests turning each game event into calls on the game
    store. The store is an interface; its calls are returned in order. */
module GameConsumer {
  import opened Wrappers
  import opened ClientTypes
  import CM = ClientMessages

  /** The methods of the `GameStore` interface. */
  datatype GameStoreCall =
    | SetMissionRequirements(requirements: seq<MissionRequirement>)
    | StartTeamSelection
    | AssignLeader(leader: string)
    | SelectPlayer(player: string)
    | DeselectPlayer(player: string)
    | StartTeamVote
    | MakePlayerVote(player: string, approval: Option<bool>)
    | SaveTeamVoteResult(approved: bool, playerVotes: map<string, bool>)
    | StartMission
    | MakePlayerWorkOnMission(player: string, success: Option<bool>)
    | SaveMissionResult(missionSuccess: bool, nbFails: int)

  /** `GameManager.consume`. Every recognised event reaches the store
      whole: its calls carry exactly the event's content, unchanged (the
      requirements list, the leader, the vote, the result), so the event can
      be read back from them; every other message makes no call. A new
      leader is announced by starting the team selection first and assigning
      the leader second, the only event making two calls. */
  function Consume(m: CM.Message): (calls: seq<GameStoreCall>)
    ensures IsGameEvent(m) ==> Origin(calls) == Some(m)
    ensures !IsGameEvent(m) <==> calls == []
    ensures |calls| <= 2
    ensures |calls| == 2 <==> m.LeaderStartedToSelectMembers?
    ensures m.LeaderStartedToSelectMembers? ==> calls == [StartTeamSelection, AssignLeader(m.leader)]
  {
    match m
    case LeaderStartedToSelectMembers(leader) => [StartTeamSelection, AssignLeader(leader)]
    case LeaderSelectedMember(member) => [SelectPlayer(member)]
    case LeaderDeselectedMember(member) => [DeselectPlayer(member)]
    case GameStarted(requirements) => [SetMissionRequirements(requirements)]
    case LeaderConfirmedTeam => [StartTeamVote]
    case PlayerVotedOnTeam(player, approved) => [MakePlayerVote(player, approved)]
    case AllPlayerVotedOnTeam(approved, playerVotes) => [SaveTeamVoteResult(approved, playerVotes)]
    case MissionStarted => [StartMission]
    case PlayerWorkedOnMission(player, success) => [MakePlayerWorkOnMission(player, success)]
    case MissionCompleted(success, nbFails) => [SaveMissionResult(success, nbFails)]
    case _ => []
  }

  /** The ten events the game consumer recognises. */
  predicate IsGameEvent(m: CM.Message) {
    m.LeaderStartedToSelectMembers? || m.LeaderSelectedMember? || m.LeaderDeselectedMember?
    || m.GameStarted? || m.LeaderConfirmedTeam? || m.PlayerVotedOnTeam?
    || m.AllPlayerVotedOnTeam? || m.MissionStarted? || m.PlayerWorkedOnMission?
    || m.MissionCompleted?
  }

  /** The event a sequence of store calls stands for, when it stands for one. */
  function Origin(calls: seq<GameStoreCall>): Option<CM.Message> {
    if |calls| == 2 && calls[0].StartTeamSelection? && calls[1].AssignLeader? then
      Some(CM.LeaderStartedToSelectMembers(calls[1].leader))
    else if |calls| != 1 then None
    else match calls[0]
      case SetMissionRequirements(requirements) => Some(CM.GameStarted(requirements))
      case SelectPlayer(player) => Some(CM.LeaderSelectedMember(player))
      case DeselectPlayer(player) => Some(CM.LeaderDeselectedMember(player))
      case StartTeamVote => Some(CM.LeaderConfirmedTeam)
      case MakePlayerVote(player, approval) => Some(CM.PlayerVotedOnTeam(player, approval))
      case SaveTeamVoteResult(approved, playerVotes) => Some(CM.AllPlayerVotedOnTeam(approved, playerVotes))
      case StartMission => Some(CM.MissionStarted)
      case MakePlayerWorkOnMission(player, success) => Some(CM.PlayerWorkedOnMission(player, success))
      case SaveMissionResult(success, nbFails) => Some(CM.MissionCompleted(success, nbFails))
      case _ => None
  }

  /** Two recognised events with the same calls are the same event. */
  lemma ConsumeIsInjective(m1: CM.Message, m2: CM.Message)
    requires IsGameEvent(m1) && IsGameEvent(m2)
    requires Consume(m1) == Consume(m2)
    ensures m1 == m2
  {
    assert Origin(Consume(m1)) == Some(m1);
  }
}
