/** The JavaScript collection operations the client relies on: a `Set` built
    from an array keeps first occurrences in insertion order, `Set.delete`
    removes one element, and `Array.join` puts a separator between
    consecutive elements. */
module JsCollections {

  /** A sequence standing for a `Set`: no element twice. */
  predicate Distinct(s: seq<string>) {
    forall i, j :: 0 <= i < j < |s| ==> s[i] != s[j]
  }

  /** A `Set<string>`, as its elements in insertion order. */
  type JsSet = s: seq<string> | Distinct(s) witness []

  /** `Array.from(new Set(s))`: the elements of `s`, each at its first
      position. */
  function FromList(s: seq<string>): (r: seq<string>)
    ensures Distinct(r)
    ensures forall x :: x in r <==> x in s
    ensures |r| <= |s|
  {
    if s == [] then []
    else
      var init := s[..|s| - 1];
      var last := s[|s| - 1];
      assert s == init + [last];
      var r := FromList(init);
      if last in r then r else r + [last]
  }

  /** A list without repeats is its own set. */
  lemma {:induction false} FromDistinctList(s: seq<string>)
    requires Distinct(s)
    ensures FromList(s) == s
  {
    if s != [] {
      var init := s[..|s| - 1];
      FromDistinctList(init);
      assert s[|s| - 1] !in init;
    }
  }

  /** `Set.delete(x)` on a copy: everything but `x`, in order. */
  function Without(s: seq<string>, x: string): (r: seq<string>)
    ensures x !in r
    ensures forall y :: y != x ==> (y in r <==> y in s)
    ensures |r| <= |s|
  {
    if s == [] then []
    else if s[0] == x then Without(s[1..], x)
    else [s[0]] + Without(s[1..], x)
  }

  /** Deleting from a set keeps it a set and shrinks it by one exactly when
      the element was there. */
  lemma {:induction false} WithoutDistinct(s: seq<string>, x: string)
    requires Distinct(s)
    ensures Distinct(Without(s, x))
    ensures |Without(s, x)| == if x in s then |s| - 1 else |s|
  {
    if s != [] {
      assert Distinct(s[1..]);
      WithoutDistinct(s[1..], x);
      assert s[0] !in s[1..];
      if s[0] != x {
        var r := Without(s[1..], x);
        assert s[0] !in r;
        assert [s[0]] + r == Without(s, x);
      }
    }
  }

  /** `Array.join(sep)`. */
  function Join(parts: seq<string>, sep: string): (r: string)
    ensures parts == [] ==> r == ""
    ensures |parts| == 1 ==> r == parts[0]
  {
    if parts == [] then ""
    else if |parts| == 1 then parts[0]
    else Join(parts[..|parts| - 1], sep) + sep + parts[|parts| - 1]
  }

  /** The total length of a list of strings. */
  function TotalLength(parts: seq<string>): nat {
    if parts == [] then 0 else TotalLength(parts[..|parts| - 1]) + |parts[|parts| - 1]|
  }

  /** Joining two non-empty lists is joining each and putting one separator
      between them. */
  lemma {:induction false} JoinConcat(a: seq<string>, b: seq<string>, sep: string)
    requires a != [] && b != []
    ensures Join(a + b, sep) == Join(a, sep) + sep + Join(b, sep)
  {
    if |b| > 1 {
      var init := b[..|b| - 1];
      assert (a + b)[..|a + b| - 1] == a + init;
      JoinConcat(a, init, sep);
    } else {
      assert (a + b)[..|a + b| - 1] == a;
    }
  }

  /** A join holds every part and one separator between each two. */
  lemma {:induction false} JoinLength(parts: seq<string>, sep: string)
    requires parts != []
    ensures |Join(parts, sep)| == TotalLength(parts) + (|parts| - 1) * |sep|
  {
    if |parts| > 1 {
      JoinLength(parts[..|parts| - 1], sep);
    } else {
      assert parts[..0] == [];
    }
  }

  /** The team wording: all but the last member separated by ", ", then
      " and ", then the last member (`slice(-1)` of an empty list is empty). */
  function AndJoin(team: seq<string>): (r: string)
    ensures team == [] ==> r == " and "
    ensures |team| == 1 ==> r == " and " + team[0]
    ensures |team| >= 2 ==> r == Join(team[..|team| - 2], ", ") + (if |team| > 2 then ", " else "") + team[|team| - 2] + " and " + team[|team| - 1]
  {
    var init := if team == [] then [] else team[..|team| - 1];
    var last := if team == [] then "" else team[|team| - 1];
    assert |team| >= 2 ==> init[..|init| - 1] == team[..|team| - 2];
    Join(init, ", ") + " and " + last
  }
}
