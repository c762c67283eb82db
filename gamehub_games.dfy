/** The party-code to game registry of server/gamehub/games.go. The lock is
    not modelled. */
module GameRegistry {

  class Games<G> {
    /** The game `gamerules.NewGame()` returns. */
    const newGame: G
    /** The zero game, returned for an absent code. */
    const zero: G
    var gamesByCode: map<string, G>

    /** `newGames`. */
    constructor (newGame: G, zero: G)
      ensures this.newGame == newGame && this.zero == zero && gamesByCode == map[]
    {
      this.newGame := newGame;
      this.zero := zero;
      gamesByCode := map[];
    }

    /** `create`: a new game under `code`, replacing any earlier one. */
    method Create(code: string)
      modifies this`gamesByCode
      ensures gamesByCode == old(gamesByCode)[code := newGame]
    {
      gamesByCode := gamesByCode[code := newGame];
    }

    /** `get`: the game and whether the code is known. */
    method Get(code: string) returns (game: G, exists_: bool)
      ensures exists_ <==> code in gamesByCode
      ensures exists_ ==> game == gamesByCode[code]
      ensures !exists_ ==> game == zero
    {
      if code in gamesByCode {
        return gamesByCode[code], true;
      }
      return zero, false;
    }

    /** `set`. */
    method Set(code: string, game: G)
      modifies this`gamesByCode
      ensures gamesByCode == old(gamesByCode)[code := game]
    {
      gamesByCode := gamesByCode[code := game];
    }
  }

  /** After `create(c)` then `set(d, g)`, `get` reads `g` at `d`, the new
      game at `c` when `c != d`, and nothing else changed. */
  method CreateThenSet<G>(games: Games<G>, c: string, d: string, g: G)
      returns (atC: G, atD: G, knownC: bool, knownD: bool)
    modifies games
    ensures knownC && knownD
    ensures atD == g
    ensures c != d ==> atC == games.newGame
    ensures forall other :: other != c && other != d ==>
              (other in games.gamesByCode <==> other in old(games.gamesByCode))
    ensures forall other :: other != c && other != d && other in old(games.gamesByCode) ==>
              games.gamesByCode[other] == old(games.gamesByCode)[other]
  {
    games.Create(c);
    games.Set(d, g);
    atC, knownC := games.Get(c);
    atD, knownD := games.Get(d);
  }
}
