/** The messages of the browser client's message bus: the events of
    client/src/messages/events.ts, the commands of
    client/src/messages/commands.ts, and `CreatePartyClicked` of
    client/src/messagebus.ts. `PartyCreated` is imported by the page consumer
    but not declared in the shown events.ts; it carries the party code. */
module ClientMessages {
  import opened Wrappers
  import opened ClientTypes

  datatype Message =
      // events
    | AppLoaded
    | JoinPartySucceeded
    | ServerConnectionClosed
    | ServerConnectionErrorOccured
    | EventsReplayStarted(playerName: string)
    | EventsReplayEnded
    | PartyCreated(partyCode: string)
    | PlayerConnected(name: string)
    | PlayerDisconnected(name: string)
    | PlayerJoined(name: string)
    | GameStarted(requirements: seq<MissionRequirement>)
    | SpiesRevealed(spies: seq<string>)
    | LeaderStartedToSelectMembers(leader: string)
    | LeaderSelectedMember(member: string)
    | LeaderDeselectedMember(member: string)
    | LeaderConfirmedTeam
      /** `approved` is `null` (`None`) for other players' votes. */
    | PlayerVotedOnTeam(player: string, approved: Option<bool>)
    | AllPlayerVotedOnTeam(teamApproved: bool, playerVotes: map<string, bool>)
    | MissionStarted
      /** `success` is `null` (`None`) for other players' cards. */
    | PlayerWorkedOnMission(player: string, success: Option<bool>)
    | MissionCompleted(missionSuccess: bool, nbFails: int)
    | GameEnded(winner: Allegiance, spies: seq<string>)
      // commands
    | JoinParty(name: string)
    | StartGame
    | LeaderSelectsMember(member: string)
    | LeaderDeselectsMember(member: string)
    | LeaderConfirmsTeam
    | ApproveTeam
    | RejectTeam
    | SucceedMission
    | FailMission
    | ViewIdentity
    | ViewMissionDetails(mission: int)
    | CloseDialog
    | CreatePartyClicked(name: string)
}
