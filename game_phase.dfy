/** The game page's phase and dialog (client/src/components/Game-service.ts).
    The store starts without a phase or a dialog, so both are optional. */
module GamePhaseService {
  import opened Wrappers
  import opened ClientTypes
  import CM = ClientMessages
  import PageConsumer

  datatype GameValues = GameValues(currentGamePhase: Option<GamePhase>, dialogShown: Option<Dialog>)

  predicate IsPhase(v: GameValues, phase: GamePhase) {
    v.currentGamePhase == Some(phase)
  }

  predicate IsTeamSelectionPhase(v: GameValues) { IsPhase(v, GamePhase.TeamSelection) }
  predicate IsTeamVotePhase(v: GameValues) { IsPhase(v, GamePhase.TeamVote) }
  predicate IsMissionConductingPhase(v: GameValues) { IsPhase(v, GamePhase.Mission) }

  predicate IsDialogShownIdentity(v: GameValues) {
    v.dialogShown == Some(Identity)
  }

  /** At most one phase shows, and none before the game has a phase. */
  lemma AtMostOnePhase(v: GameValues)
    ensures !(IsTeamSelectionPhase(v) && IsTeamVotePhase(v))
    ensures !(IsTeamSelectionPhase(v) && IsMissionConductingPhase(v))
    ensures !(IsTeamVotePhase(v) && IsMissionConductingPhase(v))
    ensures v.currentGamePhase.None? ==>
      !IsTeamSelectionPhase(v) && !IsTeamVotePhase(v) && !IsMissionConductingPhase(v)
    ensures v.currentGamePhase.Some? ==>
      IsTeamSelectionPhase(v) || IsTeamVotePhase(v) || IsMissionConductingPhase(v)
  {
    if v.currentGamePhase.Some? {
      match v.currentGamePhase.value
      case TeamSelection =>
      case TeamVote =>
      case Mission =>
    }
  }

  /** `viewIdentity`: the command dispatched, which the page consumer turns
      into showing the identity dialog and nothing else. */
  function ViewIdentity(): (c: CM.Message)
    ensures PageConsumer.Consume(c) == [PageConsumer.ShowIdentity]
  {
    CM.ViewIdentity
  }
}
