/** The game-rules value that server/gamehub/gamehub.go drives. Its
    implementation is not part of this model: each transition is an
    uninterpreted total function returning the next game and whether the
    rules accepted the move (Go's `err == nil`), and the observers are
    uninterpreted functions of the game. */
module GameRulesInterface {

  datatype State = NotStarted | SelectingTeam | VotingOnTeam | ConductingMission | GameOver

  /** The rules' allegiance type; `Undecided` stands for any other value
      `Winner()` may return. */
  datatype Allegiance = Resistance | Spy | Undecided

  /** A transition's result: the game the rules return, and `ok` when the
      returned error is nil. */
  datatype Step<G> = Step(game: G, ok: bool)

  datatype Rules<!G> = Rules(
    /** `gamerules.NewGame()`. */
    newGame: G,
    /** The zero `Game` value, read from a map at an absent key. */
    zero: G,
    addPlayer: (G, string) -> Step<G>,
    /** `Start`; the allegiance generator it is given is folded in. */
    start: G -> Step<G>,
    leaderSelectsMember: (G, string) -> Step<G>,
    leaderDeselectsMember: (G, string) -> Step<G>,
    leaderConfirmsTeamSelection: G -> Step<G>,
    approveTeamBy: (G, string) -> Step<G>,
    rejectTeamBy: (G, string) -> Step<G>,
    succeedMissionBy: (G, string) -> Step<G>,
    failMissionBy: (G, string) -> Step<G>,
    leader: G -> string,
    state: G -> State,
    voteFailures: G -> int,
    /** `GetMissionResults()`: mission number to success. */
    missionResults: G -> map<int, bool>,
    currentMission: G -> int,
    winner: G -> Allegiance
  )
}
