/** The commands the game hub handles and the events it emits
    (server/gamehub/events.go and the hub's command types). Every message
    carries the code of its party. */
module HubMessages {

  datatype Command =
    | JoinParty(code: string, user: string)
    | StartGame(code: string)
    | LeaderSelectsMember(code: string, leader: string, memberToSelect: string)
    | LeaderDeselectsMember(code: string, leader: string, memberToDeselect: string)
    | LeaderConfirmsTeamSelection(code: string, leader: string)
    | ApproveTeam(code: string, player: string)
    | RejectTeam(code: string, player: string)
    | SucceedMission(code: string, player: string)
    | FailMission(code: string, player: string)
      /** Any message type the hub has no handler for. */
    | Unhandled(code: string)

  /** `Allegiance`: "Spy", "Resistance", or the empty zero value. */
  datatype Allegiance = Spy | Resistance | NoAllegiance

  datatype Event =
    | PlayerJoined(code: string, user: string)
    | LeaderStartedToSelectMembers(code: string, leader: string)
    | LeaderSelectedMember(code: string, selectedMember: string)
    | LeaderDeselectedMember(code: string, deselectedMember: string)
    | LeaderConfirmedSelection(code: string)
    | PlayerVotedOnTeam(code: string, player: string, approved: bool)
    | AllPlayerVotedOnTeam(code: string, approved: bool, voteFailures: int)
    | MissionStarted(code: string)
    | MissionCompleted(code: string, success: bool)
    | PlayerWorkedOnMission(code: string, player: string, success: bool)
    | GameEnded(code: string, winner: Allegiance)
}
