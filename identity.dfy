/** The identity dialog: whether this player is a spy and who the other
    spies are (client/src/components/Identity-service.ts, which joins them
    into a string, and the older client/src/components/identity-service.ts,
    which returns them as a list). Both copy the set before deleting the
    player, so the revealed spies themselves are never changed; in this
    model every value is immutable, so that holds by construction. */
module Identity {
  import opened JsCollections

  datatype IdentityValues = IdentityValues(player: string, revealedSpies: JsSet)

  predicate IsPlayerASpy(v: IdentityValues) {
    v.player in v.revealedSpies
  }

  /** The older `otherSpies`: the revealed spies other than the player, in
      reveal order, each once; one fewer than revealed exactly when the
      player is a spy. */
  function OtherSpyList(v: IdentityValues): (others: JsSet)
    ensures forall n :: n in others <==> n in v.revealedSpies && n != v.player
    ensures |others| == if IsPlayerASpy(v) then |v.revealedSpies| - 1 else |v.revealedSpies|
  {
    WithoutDistinct(v.revealedSpies, v.player);
    Without(v.revealedSpies, v.player)
  }

  /** `otherSpies`: the same list, in reveal order, joined with ", " as
      Array.join does; empty when there are no other spies (a Resistance
      player sees no spies at all). */
  function OtherSpies(v: IdentityValues): (s: string)
    ensures s == Join(OtherSpyList(v), ", ")
    ensures OtherSpyList(v) == [] ==> s == ""
    ensures |OtherSpyList(v)| == 1 ==> s == OtherSpyList(v)[0]
  {
    Join(OtherSpyList(v), ", ")
  }

  /** The second spy of a two-spy game sees exactly the first, and vice
      versa. */
  lemma TwoSpiesSeeEachOther(v: IdentityValues, a: string, b: string)
    requires v.revealedSpies == [a, b] && a != b
    ensures v.player == a ==> OtherSpies(v) == b
    ensures v.player == b ==> OtherSpies(v) == a
  {
    var others := OtherSpyList(v);
    if v.player == a {
      assert |others| == 1 && b in others;
    }
    if v.player == b {
      assert |others| == 1 && a in others;
    }
  }

  /** In a game with three spies, the last one revealed sees the other two
      in reveal order, separated by ", ". */
  lemma ThreeSpiesSeeTheOtherTwo(v: IdentityValues, a: string, b: string, c: string)
    requires v.revealedSpies == [a, b, c] && v.player == c
    ensures OtherSpies(v) == a + ", " + b
  {
    var spies := v.revealedSpies;
    assert spies[0] != spies[2] && spies[1] != spies[2];
    assert spies[1..] == [b, c] && spies[1..][1..] == [c] && [c][1..] == [];
    assert Without([c], c) == [];
    assert Without([b, c], c) == [b];
    assert Without(spies, c) == [a, b];
    assert [a, b][..1] == [a];
  }
}
