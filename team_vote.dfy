/** The team vote of the game page (client/src/components/TeamVote-service.ts):
    the proposed team, who has voted, and the two ballots. */
module TeamVoteService {
  import opened Wrappers
  import opened JsCollections
  import CM = ClientMessages
  import PlayerActionsClient
  import MissionConducting

  datatype TeamVoteValues = TeamVoteValues(
    player: string,
    players: seq<string>,
    currentTeam: JsSet,
    peopleThatVotedOnTeam: JsSet,
    playerVote: bool)

  /** `currentTeamAsString`: the same "a, b and c" text the mission phase
      shows for the same team. */
  function CurrentTeamAsString(v: TeamVoteValues): (s: string)
    ensures s == MissionConducting.CurrentTeamAsString(
      MissionConducting.MissionConductingValues(v.player, v.currentTeam, [], false))
  {
    AndJoin(v.currentTeam)
  }

  predicate HasGivenPlayerVoted(v: TeamVoteValues, p: string) {
    p in v.peopleThatVotedOnTeam
  }

  predicate HasCurrentPlayerVoted(v: TeamVoteValues) {
    HasGivenPlayerVoted(v, v.player)
  }

  /** `approveTeam` and `rejectTeam`: the command dispatched, each posted
      once to its own action. */
  function Ballot(approve: bool): (c: CM.Message)
    ensures PlayerActionsClient.Consume(c)
         == Some(PlayerActionsClient.Post(if approve then "/actions/approve-team" else "/actions/reject-team", None))
  {
    if approve then CM.ApproveTeam else CM.RejectTeam
  }
}
