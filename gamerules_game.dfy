/** The earlier game value of server/gamerules/game.go: an id, a state and a
    player slice, with value-receiver methods that return modified copies. */
module GameRulesGame {
  import opened Wrappers
  import GameRulesPlayers

  datatype GameState = NotStarted

  datatype GameError = PlayerNotFound

  datatype Game = Game(id: string, state: GameState, players: seq<string>)

  /** The slice with the first occurrence of `name` cut out, or `p` itself
      when the name is absent. */
  function WithoutFirst(p: seq<string>, name: string): seq<string> {
    match GameRulesPlayers.FirstIndex(p, name)
    case None => p
    case Some(i) => p[..i] + p[i + 1..]
  }

  /** `newGame`. */
  function NewGame(id: string): (g: Game)
    ensures g.id == id && g.state == NotStarted && g.players == []
  {
    Game(id, NotStarted, [])
  }

  /** `game.addPlayer`: no duplicate and no size check. */
  function AddPlayer(g: Game, name: string): (r: Game)
    ensures r.id == g.id && r.state == g.state
    ensures r.players == g.players + [name] && r.players[|g.players|] == name
  {
    g.(players := g.players + [name])
  }

  /** `players.remove`: a search that records the first match in
      `index`/`found` and stops; the result is a new slice, the argument is
      left as it was. */
  method RemoveFromPlayers(p: seq<string>, name: string) returns (r: seq<string>, err: Option<GameError>)
    ensures name !in p ==> r == p && err == Some(PlayerNotFound)
    ensures name in p ==> err == None && |r| == |p| - 1
    ensures name in p ==> exists i :: 0 <= i < |p| && p[i] == name && name !in p[..i]
                                   && r == p[..i] + p[i + 1..]
    ensures r == WithoutFirst(p, name)
  {
    var index, found := FindPlayer(p, name);
    if !found {
      return p, Some(PlayerNotFound);
    }
    r := p[..index] + p[index + 1..];
    err := None;
  }

  /** The search loop of `players.remove`: it records the first match in
      `index`/`found` and stops there. */
  method FindPlayer(p: seq<string>, name: string) returns (index: nat, found: bool)
    ensures found <==> name in p
    ensures found ==> GameRulesPlayers.FirstIndex(p, name) == Some(index)
  {
    index := 0;
    found := false;
    var k := 0;
    while k < |p|
      invariant 0 <= k <= |p|
      invariant name !in p[..k]
    {
      if p[k] == name {
        index, found := k, true;
        break;
      }
      assert p[..k + 1] == p[..k] + [p[k]];
      k := k + 1;
    }
    if !found {
      assert p[..k] == p;
      return;
    }
    assert p[index] == name;
  }

  /** `game.removePlayer`: on error the game comes back unchanged. */
  method RemovePlayer(g: Game, name: string) returns (r: Game, err: Option<GameError>)
    ensures name !in g.players ==> r == g && err == Some(PlayerNotFound)
    ensures name in g.players ==> err == None && r.id == g.id && r.state == g.state
                                   && r.players == WithoutFirst(g.players, name)
  {
    var p;
    p, err := RemoveFromPlayers(g.players, name);
    if err.Some? {
      return g, err;
    }
    r := g.(players := p);
  }

  /** Adding a name to a game that does not hold it and removing it again
      gives back the original players (`AddPlayer` and `RemovePlayer` keep
      the id and the state). */
  lemma {:induction false} AddThenRemoveRestores(g: Game, name: string)
    requires name !in g.players
    ensures WithoutFirst(AddPlayer(g, name).players, name) == g.players
  {
    var q := g.players + [name];
    assert q[..|g.players|] == g.players;
    assert name in q;
    var i := GameRulesPlayers.FirstIndex(q, name).value;
    assert i == |g.players|;
  }

  /** Go's `append(p[:index], p[index+1:]...)` as written: `p[:index]`
      keeps the capacity of `p`, so the tail is shifted down inside the
      backing array that the receiver still refers to. `backing[..n]` is the
      receiver's slice; the result is the length of the returned slice. */
  method RemoveInBackingArray(backing: array<string>, n: nat, name: string) returns (newLen: nat, err: Option<GameError>)
    requires n <= backing.Length
    modifies backing
    ensures name !in old(backing[..n]) ==>
              err == Some(PlayerNotFound) && newLen == n && backing[..] == old(backing[..])
    ensures name in old(backing[..n]) ==>
              err == None && newLen == n - 1
              && backing[..newLen] == WithoutFirst(old(backing[..n]), name)
              && backing[newLen..] == old(backing[newLen..])
  {
    ghost var p := backing[..n];
    ghost var before := backing[..];
    var index, found := FindPlayer(backing[..n], name);
    if !found {
      return n, Some(PlayerNotFound);
    }
    assert before[..index] == p[..index] && before[index + 1..n] == p[index + 1..];
    assert WithoutFirst(p, name) == p[..index] + p[index + 1..];
    ShiftDownFrom(backing, index, n);
    newLen, err := n - 1, None;
  }

  /** `append(p[:index], p[index+1:]...)` when `p[:index]` still has the
      capacity of `p`: the elements after `index` are copied one place down
      inside the same backing array, and the last one stays where it was. */
  method ShiftDownFrom(backing: array<string>, index: nat, n: nat)
    requires index < n <= backing.Length
    modifies backing
    ensures backing[..n - 1] == old(backing[..index]) + old(backing[index + 1..n])
    ensures backing[n - 1..] == old(backing[n - 1..])
  {
    ghost var before := backing[..];
    var j := index;
    while j < n - 1
      invariant index <= j <= n - 1
      invariant backing.Length == |before|
      invariant forall t :: 0 <= t < index ==> backing[t] == before[t]
      invariant forall t :: index <= t < j ==> backing[t] == before[t + 1]
      invariant forall t :: j <= t < backing.Length ==> backing[t] == before[t]
    {
      backing[j] := backing[j + 1];
      j := j + 1;
    }
    assert backing[..n - 1] == before[..index] + before[index + 1..n];
    assert backing[n - 1..] == before[n - 1..];
  }

  /** The receiver's own players after the as-written removal: removing
      "Alice" from ["Alice", "Bob", "Carol"] leaves the caller's game reading
      ["Bob", "Carol", "Carol"]. */
  method ReceiverSeesShiftedPlayers() returns (receiverView: seq<string>)
    ensures receiverView == ["Bob", "Carol", "Carol"]
  {
    var backing := new string[3]["Alice", "Bob", "Carol"];
    assert backing[..3] == ["Alice", "Bob", "Carol"];
    assert "Alice" in backing[..3];
    var newLen, err := RemoveInBackingArray(backing, 3, "Alice");
    receiverView := backing[..3];
    assert GameRulesPlayers.FirstIndex(["Alice", "Bob", "Carol"], "Alice") == Some(0);
    assert receiverView == backing[..2] + backing[2..];
  }

  /** Removing a listed name drops exactly one copy of it: the roster is one
      shorter and holds the same names, less that one. */
  lemma RemoveDropsOneCopy(g: Game, name: string)
    requires name in g.players
    ensures |WithoutFirst(g.players, name)| == |g.players| - 1
    ensures multiset(WithoutFirst(g.players, name)) + multiset{name} == multiset(g.players)
  {
    var i := GameRulesPlayers.FirstIndex(g.players, name).value;
    var p := g.players;
    assert p == p[..i] + [p[i]] + p[i + 1..];
  }
}
