/** The action service of server/playeractions/actions.go: each player
    action becomes exactly one bus command. The commands are built without a
    party, so their code is Go's empty string. Each function returns the one
    message the method hands to the dispatcher. */
module ActionService {
  import opened BusMessages

  /** `StartGame`. */
  function StartGameCommand(): (m: Message)
    ensures m.StartGame? && m.code == ""
  {
    StartGame("")
  }

  /** `LeaderSelectsMember`. */
  function LeaderSelectsMemberCommand(leader: string, member: string): (m: Message)
    ensures m.LeaderSelectsMember? && m.code == "" && m.leader == leader && m.memberToSelect == member
  {
    LeaderSelectsMember("", leader, member)
  }

  /** `LeaderDeselectsMember`. */
  function LeaderDeselectsMemberCommand(leader: string, member: string): (m: Message)
    ensures m.LeaderDeselectsMember? && m.code == "" && m.leader == leader && m.memberToDeselect == member
  {
    LeaderDeselectsMember("", leader, member)
  }

  /** `LeaderConfirmsTeam`. */
  function LeaderConfirmsTeamCommand(leader: string): (m: Message)
    ensures m.LeaderConfirmsTeamSelection? && m.code == "" && m.leader == leader
  {
    LeaderConfirmsTeamSelection("", leader)
  }

  /** `ApproveTeam`. */
  function ApproveTeamCommand(player: string): (m: Message)
    ensures m.ApproveTeam? && m.code == "" && m.player == player
  {
    ApproveTeam("", player)
  }

  /** `RejectTeam`. */
  function RejectTeamCommand(player: string): (m: Message)
    ensures m.RejectTeam? && m.code == "" && m.player == player
  {
    RejectTeam("", player)
  }

  /** `SucceedMission`. */
  function SucceedMissionCommand(player: string): (m: Message)
    ensures m.SucceedMission? && m.code == "" && m.player == player
  {
    SucceedMission("", player)
  }

  /** `FailMission`. */
  function FailMissionCommand(player: string): (m: Message)
    ensures m.FailMission? && m.code == "" && m.player == player
  {
    FailMission("", player)
  }

  /** Every action yields a command, never an event, and distinct actions
      yield distinct commands. */
  lemma ActionsAreDistinctCommands(leader: string, member: string, player: string)
    ensures forall m :: m in [StartGameCommand(), LeaderSelectsMemberCommand(leader, member),
                              LeaderDeselectsMemberCommand(leader, member), LeaderConfirmsTeamCommand(leader),
                              ApproveTeamCommand(player), RejectTeamCommand(player),
                              SucceedMissionCommand(player), FailMissionCommand(player)]
                       ==> TypeOf(m) == CommandMessage
    ensures ApproveTeamCommand(player) != RejectTeamCommand(player)
    ensures SucceedMissionCommand(player) != FailMissionCommand(player)
    ensures LeaderSelectsMemberCommand(leader, member) != LeaderDeselectsMemberCommand(leader, member)
  {
  }
}
