/** The bounded player roster of a game (server/gamerules/players.go).
    A roster is a slice of names; `add` and `remove` return the new roster
    together with an error, and leave the roster unchanged on error. */
module GameRulesPlayers {
  import opened Wrappers

  const MinNumberOfPlayers: nat := 5
  const MaxNumberOfPlayers: nat := 10

  datatype RosterError =
    | PlayerNotFound
    | NotEnoughPlayers
    | PlayerAlreadyInGame
    | AlreadyMaxNumberOfPlayers

  type Players = seq<string>

  /** Go's `(players, error)` result pair. */
  datatype Outcome = Outcome(players: Players, err: Option<RosterError>)

  predicate NoDuplicates(p: Players) {
    forall i, j :: 0 <= i < j < |p| ==> p[i] != p[j]
  }

  /** The roster invariant that `add` keeps: at most ten names, none twice. */
  predicate Valid(p: Players) {
    |p| <= MaxNumberOfPlayers && NoDuplicates(p)
  }

  /** The position of the first occurrence of `name`, if any. */
  function FirstIndex(p: Players, name: string): (r: Option<nat>)
    ensures r.None? <==> name !in p
    ensures r.Some? ==> r.value < |p| && p[r.value] == name && name !in p[..r.value]
  {
    if |p| == 0 then None
    else if p[0] == name then Some(0)
    else
      match FirstIndex(p[1..], name)
      case None => None
      case Some(i) =>
        assert p[1..][..i] == p[1..i + 1];
        assert p[..i + 1] == [p[0]] + p[1..i + 1];
        Some(i + 1)
  }

  /** `index`: a linear search that stops at the first match, or reports
      `(-1, false)`. */
  method Index(p: Players, name: string) returns (i: int, found: bool)
    ensures found <==> name in p
    ensures found ==> 0 <= i < |p| && FirstIndex(p, name) == Some(i)
    ensures !found ==> i == -1
  {
    var k := 0;
    while k < |p|
      invariant 0 <= k <= |p|
      invariant name !in p[..k]
    {
      if p[k] == name {
        assert p[..k + 1] == p[..k] + [p[k]];
        return k, true;
      }
      assert p[..k + 1] == p[..k] + [p[k]];
      k := k + 1;
    }
    assert p[..k] == p;
    return -1, false;
  }

  /** `exists`. */
  function Exists(p: Players, name: string): (r: bool)
    ensures r <==> name in p
  {
    FirstIndex(p, name).Some?
  }

  /** `hasMinNumberOfPlayers`. */
  function HasMinNumberOfPlayers(p: Players): (r: bool)
    ensures r <==> |p| >= 5
  {
    |p| >= MinNumberOfPlayers
  }

  /** `add`: the size check comes first, then the duplicate check; on
      success the name is appended at the end. */
  function Add(p: Players, name: string): (r: Outcome)
    ensures |p| == 10 ==> r == Outcome(p, Some(AlreadyMaxNumberOfPlayers))
    ensures |p| != 10 && name in p ==> r == Outcome(p, Some(PlayerAlreadyInGame))
    ensures |p| != 10 && name !in p ==> r == Outcome(p + [name], None)
  {
    if |p| == MaxNumberOfPlayers then Outcome(p, Some(AlreadyMaxNumberOfPlayers))
    else if Exists(p, name) then Outcome(p, Some(PlayerAlreadyInGame))
    else Outcome(p + [name], None)
  }

  /** `remove`: deletes the first occurrence of the name and keeps the
      order of the others. */
  function Remove(p: Players, name: string): (r: Outcome)
    ensures name !in p ==> r == Outcome(p, Some(PlayerNotFound))
    ensures name in p ==> r.err == None && |r.players| == |p| - 1
    ensures name in p ==> exists i :: 0 <= i < |p| && p[i] == name && name !in p[..i]
                                   && r.players == p[..i] + p[i + 1..]
  {
    match FirstIndex(p, name)
    case None => Outcome(p, Some(PlayerNotFound))
    case Some(i) => Outcome(p[..i] + p[i + 1..], None)
  }

  /** `add` keeps the roster invariant, whether it succeeds or not. */
  lemma AddKeepsValid(p: Players, name: string)
    requires Valid(p)
    ensures Valid(Add(p, name).players)
  {
    var q := Add(p, name).players;
    if q != p {
      assert q == p + [name] && name !in p;
      forall i, j | 0 <= i < j < |q| ensures q[i] != q[j] {
        if j == |p| { assert q[i] == p[i]; assert p[i] in p; }
      }
    }
  }

  /** Removing keeps the roster invariant. */
  lemma RemoveKeepsValid(p: Players, name: string)
    requires Valid(p)
    ensures Valid(Remove(p, name).players)
  {
    var r := Remove(p, name);
    if name in p {
      var i :| 0 <= i < |p| && p[i] == name && name !in p[..i] && r.players == p[..i] + p[i + 1..];
      var q := r.players;
      forall a, b | 0 <= a < b < |q| ensures q[a] != q[b] {
        var a' := if a < i then a else a + 1;
        var b' := if b < i then b else b + 1;
        assert q[a] == p[a'] && q[b] == p[b'] && a' < b';
      }
    }
  }

  /** Adding a name that is not yet there and then removing it gives back
      the original roster. */
  lemma {:induction false} AddThenRemove(p: Players, name: string)
    requires |p| < MaxNumberOfPlayers && name !in p
    ensures Add(p, name).err == None
    ensures Remove(Add(p, name).players, name) == Outcome(p, None)
  {
    var q := p + [name];
    assert q[..|p|] == p;
    assert name in q;
    var r := Remove(q, name);
    var i :| 0 <= i < |q| && q[i] == name && name !in q[..i] && r.players == q[..i] + q[i + 1..];
    assert i == |p|;
  }
}
