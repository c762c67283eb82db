/** The mission phase of the game page
    (client/src/components/game-phases/mission-conducting-service.ts): who is
    on the mission, who has played a card, and the two cards. */
module MissionConducting {
  import opened Wrappers
  import opened JsCollections
  import CM = ClientMessages
  import PlayerActionsClient

  datatype MissionConductingValues = MissionConductingValues(
    player: string,
    currentTeam: JsSet,
    peopleThatWorkedOnMission: JsSet,
    playerMissionSuccess: bool)

  /** `currentTeam`: the team in the order its members were selected. */
  function CurrentTeam(v: MissionConductingValues): (team: seq<string>)
    ensures Distinct(team) && |team| == |v.currentTeam|
    ensures forall i :: 0 <= i < |team| ==> team[i] == v.currentTeam[i]
  {
    v.currentTeam
  }

  /** `currentTeamAsString`: "a, b and c"; a one-member team gives " and a". */
  function CurrentTeamAsString(v: MissionConductingValues): (s: string)
    ensures |v.currentTeam| >= 2 ==>
      s == Join(v.currentTeam[..|v.currentTeam| - 1], ", ") + " and " + v.currentTeam[|v.currentTeam| - 1]
    ensures |v.currentTeam| == 1 ==> s == " and " + v.currentTeam[0]
  {
    var team := CurrentTeam(v);
    if |team| >= 2 then
      var n := |team|;
      assert team[..n - 1] == team[..n - 2] + [team[n - 2]];
      assert n > 2 ==> Join(team[..n - 1], ", ") == Join(team[..n - 2], ", ") + ", " + team[n - 2] by {
        if n > 2 {
          JoinConcat(team[..n - 2], [team[n - 2]], ", ");
        }
      }
      AndJoin(team)
    else AndJoin(team)
  }

  predicate HasGivenPlayerWorkedOnMission(v: MissionConductingValues, p: string) {
    p in v.peopleThatWorkedOnMission
  }

  predicate IsPlayerInCurrentMission(v: MissionConductingValues) {
    v.player in v.currentTeam
  }

  predicate HasPlayerWorkedOnMission(v: MissionConductingValues) {
    HasGivenPlayerWorkedOnMission(v, v.player)
  }

  /** `succeedMission` and `failMission`: the command dispatched, each posted
      once to its own action. */
  function PlayCard(success: bool): (c: CM.Message)
    ensures PlayerActionsClient.Consume(c)
         == Some(PlayerActionsClient.Post(if success then "/actions/succeed-mission" else "/actions/fail-mission", None))
  {
    if success then CM.SucceedMission else CM.FailMission
  }
}
