/** The mission tracker of the game page
    (client/src/components/MissionTracker-service.ts): one tag per mission,
    showing its outcome once played and the team size otherwise. The two
    older copies, client/src/components/mission-tracker-service.ts and
    client/src/components/game-service.ts, compute the same tags and add
    the border and text-colour predicates. The current mission is the
    number of results so far; indexing past the end of a list raises a
    TypeError in the source, which the preconditions rule out. */
module MissionTracker {
  import opened ClientTypes

  datatype MissionTrackerValues = MissionTrackerValues(
    missionRequirements: seq<MissionRequirement>,
    missionResults: seq<MissionResult>)

  function CurrentMission(v: MissionTrackerValues): nat {
    |v.missionResults|
  }

  predicate IsCurrentMission(v: MissionTrackerValues, mission: nat) {
    CurrentMission(v) == mission
  }

  predicate ShowsSuccess(v: MissionTrackerValues, mission: nat) {
    mission < CurrentMission(v) && v.missionResults[mission].success
  }

  predicate ShowsFailure(v: MissionTrackerValues, mission: nat) {
    mission < CurrentMission(v) && !v.missionResults[mission].success
  }

  predicate ShowsNbOfPeople(v: MissionTrackerValues, mission: nat) {
    mission >= CurrentMission(v)
  }

  /** Only in the older copies. */
  predicate HasNoBorder(v: MissionTrackerValues, mission: nat) {
    mission <= CurrentMission(v)
  }

  /** Only in the older copies. */
  predicate TextIsGray(v: MissionTrackerValues, mission: nat) {
    mission <= CurrentMission(v)
  }

  function NumberPeopleOnMission(v: MissionTrackerValues, mission: nat): (n: int)
    requires mission < |v.missionRequirements|
    ensures n == v.missionRequirements[mission].nbPeopleOnMission
  {
    v.missionRequirements[mission].nbPeopleOnMission
  }

  /** The five missions of a game. */
  const Missions: seq<nat> := [0, 1, 2, 3, 4]

  predicate NeedsMoreThanOneFail(v: MissionTrackerValues, mission: nat)
    requires mission < |v.missionRequirements|
  {
    v.missionRequirements[mission].nbFailuresRequiredToFail > 1
  }

  /** The team size the leader must pick now. */
  function NbPeopleRequiredOnCurrentMission(v: MissionTrackerValues): (n: int)
    requires CurrentMission(v) < |v.missionRequirements|
    ensures n == NumberPeopleOnMission(v, CurrentMission(v))
  {
    v.missionRequirements[|v.missionResults|].nbPeopleOnMission
  }

  /** Every mission shows exactly one of its three tags: an outcome once it
      is played (success or failure as recorded), the team size from the
      current mission on. */
  lemma ExactlyOneTag(v: MissionTrackerValues, mission: nat)
    ensures ShowsSuccess(v, mission) || ShowsFailure(v, mission) || ShowsNbOfPeople(v, mission)
    ensures !(ShowsSuccess(v, mission) && ShowsFailure(v, mission))
    ensures !(ShowsSuccess(v, mission) && ShowsNbOfPeople(v, mission))
    ensures !(ShowsFailure(v, mission) && ShowsNbOfPeople(v, mission))
    ensures ShowsNbOfPeople(v, mission) <==> !IsPlayed(v, mission)
    ensures IsPlayed(v, mission) ==>
      (ShowsSuccess(v, mission) <==> v.missionResults[mission].success)
  {
  }

  /** A mission is played once its result is recorded. */
  predicate IsPlayed(v: MissionTrackerValues, mission: nat) {
    mission < |v.missionResults|
  }

  /** Played missions and the current one drop their border and grey their
      text; the current mission is the one played missions lead up to. */
  lemma BorderAndColour(v: MissionTrackerValues, mission: nat)
    ensures HasNoBorder(v, mission) <==> IsPlayed(v, mission) || IsCurrentMission(v, mission)
    ensures TextIsGray(v, mission) <==> HasNoBorder(v, mission)
    ensures IsCurrentMission(v, mission) <==> ShowsNbOfPeople(v, mission) && HasNoBorder(v, mission)
  {
  }

  /** Recording one more result moves the current mission on by one, and
      the tag of the mission just played shows its outcome. */
  lemma RecordingAResult(v: MissionTrackerValues, r: MissionResult)
    ensures var v' := v.(missionResults := v.missionResults + [r]);
      CurrentMission(v') == CurrentMission(v) + 1
      && (r.success ==> ShowsSuccess(v', CurrentMission(v)))
      && (!r.success ==> ShowsFailure(v', CurrentMission(v)))
      && (forall m: nat :: m < CurrentMission(v) ==>
            ShowsSuccess(v', m) == ShowsSuccess(v, m) && ShowsFailure(v', m) == ShowsFailure(v, m))
  {
    var v' := v.(missionResults := v.missionResults + [r]);
    assert v'.missionResults[CurrentMission(v)] == r;
  }
}
