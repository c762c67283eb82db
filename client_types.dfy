/** The browser client's shared value types (client/src/types/types.ts).
    `Allegiance` is used by the client but not declared in the shown
    types.ts; its two values are the ones the client code names. */
module ClientTypes {

  datatype Page = Loading | Lobby | PartyRoom | Game

  datatype GamePhase = TeamSelection | TeamVote | Mission

  datatype Dialog = Identity | MissionDetails | LastMissionResult

  datatype Allegiance = Spies | Resistance

  datatype MissionResult = MissionResult(success: bool, nbFails: int)

  /** A JavaScript `Set<string>` is modelled as the sequence of its elements
      in insertion order, without repeats; `Map<string, boolean>` as a map. */
  datatype TeamVote = TeamVote(team: seq<string>, approved: bool, playerVotes: map<string, bool>)

  datatype TeamVotes = TeamVotes(votes: seq<TeamVote>)

  datatype MissionRequirement = MissionRequirement(nbPeopleOnMission: int, nbFailuresRequiredToFail: int)
}
