/** The mission details dialog (client/src/components/MissionDetails-service.ts):
    the team votes of a mission and, once it is played, its result. */
module MissionDetails {
  import opened JsCollections
  import opened ClientTypes
  import opened Wrappers

  /** Where a mission stands relative to the current one. */
  datatype MissionTimeline = Past | Current | Future

  /** The values the dialog reads. The votes, the result and the failure
      count are getters the dialog only calls when it shows them; each is
      None when there is nothing to read (undefined in JavaScript). */
  datatype MissionDetailsValues = MissionDetailsValues(
    mission: int,
    missionTimeline: MissionTimeline,
    teamVotes: Option<TeamVotes>,
    missionRequirement: MissionRequirement,
    missionResult: Option<bool>,
    nbFailures: Option<int>)

  function TeamSize(v: MissionDetailsValues): int {
    v.missionRequirement.nbPeopleOnMission
  }

  function NbFailuresRequiredToFail(v: MissionDetailsValues): int {
    v.missionRequirement.nbFailuresRequiredToFail
  }

  /** `teamFromVoteAsString`: the team of one vote joined with ", ". */
  function TeamFromVoteAsString(v: MissionDetailsValues, vote: nat): (s: string)
    requires v.teamVotes.Some? && vote < |v.teamVotes.value.votes|
    ensures s == Join(v.teamVotes.value.votes[vote].team, ", ")
  {
    Join(v.teamVotes.value.votes[vote].team, ", ")
  }

  /** `nbSuccesses`: every member not failing the mission succeeded it. */
  function NbSuccesses(v: MissionDetailsValues): (n: int)
    requires v.nbFailures.Some?
    ensures n + v.nbFailures.value == TeamSize(v)
  {
    TeamSize(v) - v.nbFailures.value
  }

  predicate ShouldShowVotes(v: MissionDetailsValues) {
    v.missionTimeline == Current || v.missionTimeline == Past
  }

  predicate ShouldShowMissionResult(v: MissionDetailsValues) {
    v.missionTimeline == Past
  }

  /** Votes are shown from the current mission on back, results only for
      played missions; so a result is never shown without its votes, and a
      future mission shows neither. */
  lemma ResultOnlyWithVotes(v: MissionDetailsValues)
    ensures ShouldShowMissionResult(v) ==> ShouldShowVotes(v)
    ensures ShouldShowVotes(v) <==> v.missionTimeline != Future
    ensures ShouldShowVotes(v) && !ShouldShowMissionResult(v) <==> v.missionTimeline == Current
  {
  }
}
