/** The end-of-game screen (client/src/components/EndGame-service.ts): who
    the spies were and whether this player won. */
module EndGame {
  import opened JsCollections
  import opened ClientTypes

  datatype EndGameValues = EndGameValues(player: string, winner: Allegiance, spies: JsSet)

  /** `spiesAsString`: the spies in reveal order, joined with ", ". */
  function SpiesAsString(v: EndGameValues): (s: string)
    ensures s == Join(v.spies, ", ")
    ensures |s| == TotalLength(v.spies) + (if v.spies == [] then 0 else (|v.spies| - 1) * 2)
  {
    assert v.spies != [] ==> |Join(v.spies, ", ")| == TotalLength(v.spies) + (|v.spies| - 1) * 2 by {
      if v.spies != [] {
        JoinLength(v.spies, ", ");
      }
    }
    Join(v.spies, ", ")
  }

  /** One more spy revealed adds ", " and that spy's name at the end of the
      text. */
  lemma AnotherSpyAppended(v: EndGameValues, x: string)
    requires v.spies != [] && x !in v.spies
    ensures SpiesAsString(v.(spies := v.spies + [x])) == SpiesAsString(v) + ", " + x
  {
    JoinConcat(v.spies, [x], ", ");
  }

  /** The spies "a", "b", "c" are shown as "a, b, c". */
  lemma ThreeSpiesAsString(v: EndGameValues)
    requires v.spies == ["a", "b", "c"]
    ensures SpiesAsString(v) == "a, b, c"
  {
    var s: seq<string> := ["a", "b", "c"];
    assert s[..2] == ["a", "b"] && s[..2][..1] == ["a"];
    assert Join(s, ", ") == Join(["a", "b"], ", ") + ", " + "c";
  }

  predicate SpiesHaveWon(v: EndGameValues) {
    v.winner == Spies
  }

  /** The player is a spy exactly when listed among the spies. */
  function PlayerAllegiance(v: EndGameValues): (a: Allegiance)
    ensures a == Spies <==> v.player in v.spies
  {
    if v.player in v.spies then Spies else Resistance
  }

  /** `playerHasWon`: the winner is the player's own side. */
  predicate PlayerHasWon(v: EndGameValues) {
    PlayerAllegiance(v) == v.winner
  }

  /** A spy wins exactly when the spies won, and anyone else exactly when
      they lost: all four cases. */
  lemma WinnerSide(v: EndGameValues)
    ensures PlayerHasWon(v) <==> ((v.player in v.spies) <==> SpiesHaveWon(v))
  {
  }
}
