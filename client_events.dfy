/** The events the server streams to browser clients
    (server/clientstream/client_events.go). The Go struct has one nil-able
    field per kind, of which exactly one is set; here each kind is a
    constructor. Fields tagged `omitempty` whose absence carries meaning are
    `Option`s. */
module ClientEvents {
  import opened Wrappers

  datatype MissionRequirement = MissionRequirement(nbPeopleOnMission: int, nbFailuresRequiredToFail: int)

  datatype ClientEvent =
    | PlayerConnected(name: string)
    | PlayerDisconnected(name: string)
    | PlayerJoined(name: string)
    | GameStarted(missionRequirements: seq<MissionRequirement>)
      /** `None` is the omitted (nil) spy map Resistance players receive. */
    | SpiesRevealed(spies: Option<set<string>>)
    | LeaderStartedToSelectMembers(leader: string)
    | LeaderSelectedMember(selectedMember: string)
    | LeaderDeselectedMember(deselectedMember: string)
    | LeaderConfirmedSelection
      /** `approved` is omitted for everyone but the voter. */
    | PlayerVotedOnTeam(player: string, approved: Option<bool>)
    | AllPlayerVotedOnTeam(teamApproved: bool, voteFailures: int, playerVotes: map<string, bool>)
    | MissionStarted
      /** `success` is omitted for everyone but the mission member. */
    | PlayerWorkedOnMission(player: string, success: Option<bool>)
    | MissionCompleted(succeeded: bool, nbFails: int)
      /** `spies` is a nil slice (`None`) unless a sender fills it. */
    | GameEnded(winner: string, spyList: Option<seq<string>>)
    | EventsReplayStarted(player: string)
    | EventsReplayEnded
}
