/** The read-only views of the store that the components receive
    (client/src/values-brokers.ts). Every broker holds the same store values
    and only reads them; a getter is modelled as a function of those values,
    and a broker handed to a component as the record of what it reads. The
    store values here are those the brokers read, richer than the page store
    of client/src/store/store.ts. */
module ValueBrokers {
  import opened Wrappers
  import opened ClientTypes
  import opened JsCollections
  import MissionTracker
  import MissionDetails
  import TeamSelection
  import TeamVoteService
  import MissionConducting
  import EndGame
  import Identity
  import PartyRoom
  import GamePhaseService

  datatype StoreValues = StoreValues(
    player: string,
    revealedSpies: JsSet,
    missionRequirements: seq<MissionRequirement>,
    missionResults: seq<MissionResult>,
    currentMission: int,
    missionDetailsShown: int,
    teamVoteResults: seq<TeamVotes>,
    currentTeam: JsSet,
    leader: string,
    currentTeamVoteNb: int,
    players: seq<string>,
    peopleThatVotedOnTeam: JsSet,
    playerVote: bool,
    peopleThatWorkedOnMission: JsSet,
    playerMissionSuccess: bool,
    winner: Allegiance,
    currentGamePhase: Option<GamePhase>,
    dialogShown: Option<Dialog>,
    pageToShow: Page)

  /** `MissionDetailsValuesBroker.missionTimeline`: exactly one of past,
      current and future, by comparing the mission shown with the current
      one. */
  function MissionTimeline(sv: StoreValues): (t: MissionDetails.MissionTimeline)
    ensures t == MissionDetails.Past <==> sv.missionDetailsShown < sv.currentMission
    ensures t == MissionDetails.Current <==> sv.missionDetailsShown == sv.currentMission
    ensures t == MissionDetails.Future <==> sv.missionDetailsShown > sv.currentMission
  {
    if sv.missionDetailsShown < sv.currentMission then MissionDetails.Past
    else if sv.missionDetailsShown == sv.currentMission then MissionDetails.Current
    else MissionDetails.Future
  }

  /** The mission shown has a requirement, which the dialog always reads. */
  predicate DetailsInRange(sv: StoreValues) {
    0 <= sv.missionDetailsShown < |sv.missionRequirements|
  }

  /** `MissionDetailsValuesBroker`: everything about the mission shown. The
      votes and the result are read only when the store holds an entry for
      that mission; otherwise they are None. */
  function MissionDetailsValues(sv: StoreValues): (v: MissionDetails.MissionDetailsValues)
    requires DetailsInRange(sv)
    ensures v.mission == sv.missionDetailsShown
    ensures v.missionRequirement == sv.missionRequirements[sv.missionDetailsShown]
    ensures v.teamVotes.Some? <==> sv.missionDetailsShown < |sv.teamVoteResults|
    ensures v.teamVotes.Some? ==> v.teamVotes.value == sv.teamVoteResults[sv.missionDetailsShown]
    ensures v.missionResult.Some? <==> sv.missionDetailsShown < |sv.missionResults|
    ensures v.missionResult.Some? ==> v.missionResult.value == sv.missionResults[sv.missionDetailsShown].success
    ensures v.nbFailures.Some? <==> sv.missionDetailsShown < |sv.missionResults|
    ensures v.nbFailures.Some? ==> v.nbFailures.value == sv.missionResults[sv.missionDetailsShown].nbFails
  {
    var i := sv.missionDetailsShown;
    MissionDetails.MissionDetailsValues(
      i, MissionTimeline(sv),
      if i < |sv.teamVoteResults| then Some(sv.teamVoteResults[i]) else None,
      sv.missionRequirements[i],
      if i < |sv.missionResults| then Some(sv.missionResults[i].success) else None,
      if i < |sv.missionResults| then Some(sv.missionResults[i].nbFails) else None)
  }

  /** The details dialog shows the votes of the current and earlier
      missions and the result of earlier ones only. In a store that holds a
      result for every mission before the current one, a result shown is
      always there to read; and votes shown are there whenever the store
      holds the votes up to the current mission. */
  lemma DetailsShownByTimeline(sv: StoreValues)
    requires DetailsInRange(sv)
    ensures MissionDetails.ShouldShowVotes(MissionDetailsValues(sv)) <==> sv.missionDetailsShown <= sv.currentMission
    ensures MissionDetails.ShouldShowMissionResult(MissionDetailsValues(sv)) <==> sv.missionDetailsShown < sv.currentMission
    ensures sv.currentMission <= |sv.missionResults| && MissionDetails.ShouldShowMissionResult(MissionDetailsValues(sv)) ==>
      MissionDetailsValues(sv).missionResult.Some? && MissionDetailsValues(sv).nbFailures.Some?
    ensures sv.currentMission < |sv.teamVoteResults| && MissionDetails.ShouldShowVotes(MissionDetailsValues(sv)) ==>
      MissionDetailsValues(sv).teamVotes.Some?
  {
  }

  /** The dialog of the mission being played, in a store holding the results
      of the earlier missions only: its votes are shown and its result, which
      does not exist yet, is not. */
  lemma CurrentMissionDetails(sv: StoreValues)
    requires DetailsInRange(sv)
    requires sv.missionDetailsShown == sv.currentMission == |sv.missionResults|
    ensures MissionDetails.ShouldShowVotes(MissionDetailsValues(sv))
    ensures !MissionDetails.ShouldShowMissionResult(MissionDetailsValues(sv))
    ensures MissionDetailsValues(sv).missionResult.None?
  {
  }

  /** `LastMissionResultValuesBroker.success`: the latest result; the list
      must not be empty. */
  function LastMissionSuccess(sv: StoreValues): (success: bool)
    requires sv.missionResults != []
    ensures success == sv.missionResults[|sv.missionResults| - 1].success
  {
    sv.missionResults[|sv.missionResults| - 1].success
  }

  function MissionTrackerValues(sv: StoreValues): MissionTracker.MissionTrackerValues {
    MissionTracker.MissionTrackerValues(sv.missionRequirements, sv.missionResults)
  }

  /** The last-result dialog agrees with the tracker's tag of the last
      mission played. */
  lemma LastResultMatchesTracker(sv: StoreValues)
    requires sv.missionResults != []
    ensures var last := |sv.missionResults| - 1;
      LastMissionSuccess(sv) <==> MissionTracker.ShowsSuccess(MissionTrackerValues(sv), last)
  {
  }

  /** `TeamSelectionValuesBroker.nbPeopleRequiredOnMission`: the size of the
      current mission's team. */
  function NbPeopleRequiredOnMission(sv: StoreValues): (n: int)
    requires 0 <= sv.currentMission < |sv.missionRequirements|
    ensures n == sv.missionRequirements[sv.currentMission].nbPeopleOnMission
  {
    sv.missionRequirements[sv.currentMission].nbPeopleOnMission
  }

  function TeamSelectionValues(sv: StoreValues): TeamSelection.TeamSelectionValues
    requires 0 <= sv.currentMission < |sv.missionRequirements|
  {
    TeamSelection.TeamSelectionValues(sv.currentTeam, sv.player, sv.leader,
      sv.currentTeamVoteNb, sv.players, NbPeopleRequiredOnMission(sv))
  }

  /** The broker reads the team size at the store's current mission, the
      tracker at the number of results: the two selection services agree
      whenever those are the same mission. */
  lemma SelectionCopiesAgree(sv: StoreValues, p: string)
    requires 0 <= sv.currentMission < |sv.missionRequirements|
    requires sv.currentMission == |sv.missionResults|
    ensures TeamSelection.PhaseSelectable(TeamSelectionValues(sv), MissionTrackerValues(sv), p)
         == TeamSelection.IsGivenPlayerSelectableForTeam(TeamSelectionValues(sv), p)
    ensures TeamSelection.PhaseCanConfirm(TeamSelectionValues(sv), MissionTrackerValues(sv))
         == TeamSelection.CanConfirmTeam(TeamSelectionValues(sv))
  {
    TeamSelection.CopiesAgree(TeamSelectionValues(sv), MissionTrackerValues(sv), p);
  }

  function TeamVoteValues(sv: StoreValues): TeamVoteService.TeamVoteValues {
    TeamVoteService.TeamVoteValues(sv.player, sv.players, sv.currentTeam, sv.peopleThatVotedOnTeam, sv.playerVote)
  }

  function MissionConductingValues(sv: StoreValues): MissionConducting.MissionConductingValues {
    MissionConducting.MissionConductingValues(sv.player, sv.currentTeam, sv.peopleThatWorkedOnMission, sv.playerMissionSuccess)
  }

  function IdentityValues(sv: StoreValues): Identity.IdentityValues {
    Identity.IdentityValues(sv.player, sv.revealedSpies)
  }

  /** `EndGameValuesBroker`: its spies are the revealed spies. */
  function EndGameValues(sv: StoreValues): EndGame.EndGameValues {
    EndGame.EndGameValues(sv.player, sv.winner, sv.revealedSpies)
  }

  /** The end screen and the identity dialog read the same spies: a player
      told they are a spy wins exactly when the spies win. */
  lemma EndGameAgreesWithIdentity(sv: StoreValues)
    ensures EndGameValues(sv).spies == IdentityValues(sv).revealedSpies
    ensures EndGame.PlayerHasWon(EndGameValues(sv))
        <==> (Identity.IsPlayerASpy(IdentityValues(sv)) <==> sv.winner == Spies)
  {
    EndGame.WinnerSide(EndGameValues(sv));
  }

  /** `PartyRoomValuesBroker`: `hasPlayerJoined` is the player's membership
      in the party's players. */
  function PartyRoomValues(sv: StoreValues): (v: PartyRoom.PartyRoomValues)
    ensures v.players == sv.players
    ensures v.hasPlayerJoined <==> sv.player in sv.players
  {
    PartyRoom.PartyRoomValues(sv.players, sv.player in sv.players)
  }

  function GameValues(sv: StoreValues): GamePhaseService.GameValues {
    GamePhaseService.GameValues(sv.currentGamePhase, sv.dialogShown)
  }
}
