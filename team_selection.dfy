/** The leader's team selection
    (client/src/components/TeamSelection-service.ts, with the same
    predicates in client/src/components/game-phases/TeamSelection-service.ts,
    which asks the mission tracker for the team size, and
    client/src/components/game-phases/team-selection-service.ts, which has
    only the membership and leader predicates). A player can be picked while
    the team is not full; a member can always be dropped. */
module TeamSelection {
  import opened Wrappers
  import opened JsCollections
  import CM = ClientMessages
  import MissionTracker
  import PlayerActionsClient

  datatype TeamSelectionValues = TeamSelectionValues(
    currentTeam: JsSet,
    player: string,
    leader: string,
    currentTeamVoteNb: int,
    players: seq<string>,
    nbPeopleRequiredOnMission: int)

  predicate IsGivenPlayerInTeam(v: TeamSelectionValues, p: string) {
    p in v.currentTeam
  }

  predicate IsPlayerTheLeader(v: TeamSelectionValues) {
    v.player == v.leader
  }

  /** Whether `p` can be toggled, for a team that must have `required`
      members. */
  predicate Selectable(team: JsSet, p: string, required: int) {
    p in team || |team| < required
  }

  /** Whether the team can be confirmed. */
  predicate Confirmable(team: JsSet, required: int) {
    |team| == required
  }

  predicate IsGivenPlayerSelectableForTeam(v: TeamSelectionValues, p: string) {
    Selectable(v.currentTeam, p, v.nbPeopleRequiredOnMission)
  }

  predicate CanConfirmTeam(v: TeamSelectionValues) {
    Confirmable(v.currentTeam, v.nbPeopleRequiredOnMission)
  }

  /** `togglePlayerSelection`: the one command dispatched. */
  function TogglePlayerSelection(v: TeamSelectionValues, p: string): (c: CM.Message)
    ensures c == CM.LeaderDeselectsMember(p) <==> p in v.currentTeam
    ensures c == CM.LeaderSelectsMember(p) <==> p !in v.currentTeam
  {
    if IsGivenPlayerInTeam(v, p) then CM.LeaderDeselectsMember(p) else CM.LeaderSelectsMember(p)
  }

  /** `confirmTeam`: the one command dispatched. */
  const ConfirmTeam: CM.Message := CM.LeaderConfirmsTeam

  /** The team `p`'s toggle asks for: `p` added or removed. */
  function Toggled(team: JsSet, c: CM.Message): JsSet
    requires c.LeaderSelectsMember? || c.LeaderDeselectsMember?
  {
    if c.LeaderDeselectsMember? then
      WithoutDistinct(team, c.member);
      Without(team, c.member)
    else if c.member in team then team
    else
      assert Distinct(team + [c.member]) by {
        forall i, j | 0 <= i < j < |team| + 1 ensures (team + [c.member])[i] != (team + [c.member])[j] {
          if j == |team| { assert team[i] in team; }
        }
      }
      team + [c.member]
  }

  /** A full team locks out everyone else, while its members stay
      selectable so they can be swapped out; below the required size every
      player is selectable and the team cannot be confirmed. */
  lemma FullTeamLocksOthersOut(team: JsSet, required: int, p: string)
    ensures p in team ==> Selectable(team, p, required)
    ensures Confirmable(team, required) && p !in team ==> !Selectable(team, p, required)
    ensures |team| < required ==> Selectable(team, p, required) && !Confirmable(team, required)
  {
  }

  /** A toggle flips exactly `p`'s membership: a member is removed and the
      team shrinks by one, anyone else is added at the end. */
  lemma {:induction false} ToggleFlipsMembership(v: TeamSelectionValues, p: string)
    ensures var t := Toggled(v.currentTeam, TogglePlayerSelection(v, p));
      (p in t <==> p !in v.currentTeam)
      && (forall q :: q != p ==> (q in t <==> q in v.currentTeam))
      && |t| == if p in v.currentTeam then |v.currentTeam| - 1 else |v.currentTeam| + 1
  {
    WithoutDistinct(v.currentTeam, p);
  }

  /** Toggling posts one action naming `p`: to deselect a member, to select
      anyone else; confirming posts the confirmation. */
  lemma SelectionIsPosted(v: TeamSelectionValues, p: string)
    ensures PlayerActionsClient.Consume(TogglePlayerSelection(v, p))
         == Some(PlayerActionsClient.Post(
              if p in v.currentTeam then "/actions/leader-deselects-member" else "/actions/leader-selects-member",
              Some(p)))
    ensures PlayerActionsClient.Consume(ConfirmTeam)
         == Some(PlayerActionsClient.Post("/actions/leader-confirms-team", None))
  {
  }

  /** The game-phase copy's selectability, with the team size asked of the
      mission tracker. */
  predicate PhaseSelectable(v: TeamSelectionValues, tracker: MissionTracker.MissionTrackerValues, p: string)
    requires MissionTracker.CurrentMission(tracker) < |tracker.missionRequirements|
  {
    Selectable(v.currentTeam, p, MissionTracker.NbPeopleRequiredOnCurrentMission(tracker))
  }

  /** The game-phase copy's confirmability. */
  predicate PhaseCanConfirm(v: TeamSelectionValues, tracker: MissionTracker.MissionTrackerValues)
    requires MissionTracker.CurrentMission(tracker) < |tracker.missionRequirements|
  {
    Confirmable(v.currentTeam, MissionTracker.NbPeopleRequiredOnCurrentMission(tracker))
  }

  /** The two copies agree whenever the team size they are given is the
      tracker's size for the current mission. */
  lemma CopiesAgree(v: TeamSelectionValues, tracker: MissionTracker.MissionTrackerValues, p: string)
    requires MissionTracker.CurrentMission(tracker) < |tracker.missionRequirements|
    requires v.nbPeopleRequiredOnMission == MissionTracker.NbPeopleRequiredOnCurrentMission(tracker)
    ensures PhaseSelectable(v, tracker, p) == IsGivenPlayerSelectableForTeam(v, p)
    ensures PhaseCanConfirm(v, tracker) == CanConfirmTeam(v)
  {
  }
}
