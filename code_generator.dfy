/** The party-code generator of server/codegenerator/code_generator.go.
    Runes are drawn one at a time from a random source; every six runes form
    a candidate, which is kept only if it was never handed out before. The
    random source is the function `nextRune`: its value at `i` is the rune
    returned by the `i`-th call. The mutex is not modelled. */
module CodeGenerator {

  const MaxCodeLength: nat := 6

  /** Number of bytes of the UTF-8 encoding of `c`, which is what Go's
      `len` counts on a string. */
  function Utf8Length(c: char): (n: nat)
    ensures 1 <= n <= 4
    ensures n == 1 <==> c as int < 0x80
  {
    if c as int < 0x80 then 1
    else if c as int < 0x800 then 2
    else if c as int < 0x10000 then 3
    else 4
  }

  /** Go's `len(s)` for a string. */
  function ByteLength(s: string): (n: nat)
    ensures n >= |s|
  {
    if s == [] then 0 else ByteLength(s[..|s| - 1]) + Utf8Length(s[|s| - 1])
  }

  /** The exit test as written: `len(code) == maxCodeLength`, in bytes. */
  function AsWrittenIsComplete(code: string): bool {
    ByteLength(code) == MaxCodeLength
  }

  /** The exit test as intended: six runes. */
  function IsComplete(code: string): (b: bool)
    ensures b ==> ByteLength(code) >= MaxCodeLength
  {
    |code| == MaxCodeLength
  }

  /** Appending one rune adds its encoded length. */
  lemma ByteLengthAppend(s: string, c: char)
    ensures ByteLength(s + [c]) == ByteLength(s) + Utf8Length(c)
  {
    assert (s + [c])[..|s|] == s;
  }

  /** Appending runes never shortens a string's byte length. */
  lemma {:induction false} ByteLengthGrows(s: string, t: string)
    ensures ByteLength(s + t) >= ByteLength(s) + |t|
    decreases |t|
  {
    if t != [] {
      var u := t[..|t| - 1];
      assert s + t == (s + u) + [t[|t| - 1]];
      ByteLengthAppend(s + u, t[|t| - 1]);
      ByteLengthGrows(s, u);
    } else {
      assert s + t == s;
    }
  }

  /** A string of ASCII runes is as many bytes long as it has runes. */
  lemma {:induction false} AsciiByteLength(s: string)
    requires forall c :: c in s ==> c as int < 0x80
    ensures ByteLength(s) == |s|
  {
    if s != [] {
      var init := s[..|s| - 1];
      assert forall c :: c in init ==> c in s;
      assert s[|s| - 1] in s;
      AsciiByteLength(init);
      assert ByteLength(s) == ByteLength(init) + Utf8Length(s[|s| - 1]);
    }
  }

  /** On ASCII codes, the only kind the Go tests use, the test as written
      and the corrected one agree. */
  lemma AsciiTestsAgree(code: string)
    requires forall c :: c in code ==> c as int < 0x80
    ensures AsWrittenIsComplete(code) <==> IsComplete(code)
  {
    AsciiByteLength(code);
  }

  /** As written, three-byte runes make a two-rune code pass the check. */
  lemma AsWrittenAcceptsTwoRunes()
    ensures AsWrittenIsComplete("€€") && |"€€"| == 2
  {
    assert "€€"[..1] == "€";
    assert "€"[..0] == "";
  }

  /** As written, once a candidate has passed six bytes without hitting six
      exactly ("ABCDE" followed by a two-byte rune), no later rune can make
      the check succeed, so the loop never ends. */
  lemma AsWrittenNeverCompletes(more: string)
    ensures ByteLength("ABCDEé") == 7
    ensures !AsWrittenIsComplete("ABCDEé" + more)
  {
    var s := "ABCDEé";
    ByteLengthAppend("", 'A');
    ByteLengthAppend("A", 'B');
    ByteLengthAppend("AB", 'C');
    ByteLengthAppend("ABC", 'D');
    ByteLengthAppend("ABCD", 'E');
    ByteLengthAppend("ABCDE", 'é');
    assert "" + ['A'] == "A" && "A" + ['B'] == "AB" && "AB" + ['C'] == "ABC";
    assert "ABC" + ['D'] == "ABCD" && "ABCD" + ['E'] == "ABCDE" && "ABCDE" + ['é'] == s;
    ByteLengthGrows(s, more);
  }

  /** The `k`-th six-rune candidate drawn from position `start` on. */
  function Candidate(nextRune: nat -> char, start: nat, k: nat): (c: string)
    ensures |c| == MaxCodeLength
    ensures forall j :: 0 <= j < MaxCodeLength ==> c[j] == nextRune(start + MaxCodeLength * k + j)
  {
    seq(MaxCodeLength, j requires 0 <= j < MaxCodeLength => nextRune(start + MaxCodeLength * k + j))
  }

  class Generator {
    const nextRune: nat -> char
    /** How many runes have been drawn so far. */
    var drawn: nat
    var generatedCodes: set<string>

    /** `New`. */
    constructor (nextRune: nat -> char)
      ensures this.nextRune == nextRune && drawn == 0 && generatedCodes == {}
    {
      this.nextRune := nextRune;
      drawn := 0;
      generatedCodes := {};
    }

    /** Some later candidate is fresh, so generation stops. */
    ghost predicate CanFinish()
      reads this
    {
      exists k: nat :: Candidate(nextRune, drawn, k) !in generatedCodes
    }

    /** `checkAndSetCodeSuccessfully`: succeeds exactly for a code never
        seen; either way the code is in the set afterwards. */
    method CheckAndSetCodeSuccessfully(code: string) returns (ok: bool)
      modifies this`generatedCodes
      ensures ok <==> code !in old(generatedCodes)
      ensures generatedCodes == old(generatedCodes) + {code}
    {
      if code in generatedCodes {
        return false;
      }
      generatedCodes := generatedCodes + {code};
      return true;
    }

    /** `GenerateCode`, with the completeness test counting runes. The
        result is the first fresh candidate; every earlier candidate was
        discarded whole. `attempts` counts the discarded candidates. */
    method GenerateCode() returns (code: string, ghost attempts: nat)
      requires CanFinish()
      modifies this`drawn, this`generatedCodes
      ensures |code| == MaxCodeLength
      ensures code !in old(generatedCodes) && generatedCodes == old(generatedCodes) + {code}
      ensures code == Candidate(nextRune, old(drawn), attempts)
      ensures drawn == old(drawn) + MaxCodeLength * (attempts + 1)
      ensures forall a :: 0 <= a < attempts ==> Candidate(nextRune, old(drawn), a) in old(generatedCodes)
    {
      ghost var start := drawn;
      ghost var k: nat :| Candidate(nextRune, drawn, k) !in generatedCodes;
      code := "";
      attempts := 0;
      while true
        invariant drawn == start + MaxCodeLength * attempts + |code|
        invariant |code| < MaxCodeLength
        invariant code == Candidate(nextRune, start, attempts)[..|code|]
        invariant attempts <= k
        invariant generatedCodes == old(generatedCodes)
        invariant forall a :: 0 <= a < attempts ==> Candidate(nextRune, start, a) in old(generatedCodes)
        decreases MaxCodeLength * (k + 1) - (MaxCodeLength * attempts + |code|)
      {
        code := code + [nextRune(drawn)];
        drawn := drawn + 1;
        if IsComplete(code) {
          assert code == Candidate(nextRune, start, attempts);
          var ok := CheckAndSetCodeSuccessfully(code);
          if ok {
            break;
          }
          code := "";
          attempts := attempts + 1;
        }
      }
    }
  }

  /** The rune source of the generator's tests: the given text, then '0'
      forever. */
  function Scripted(text: string): nat -> char {
    (i: nat) => if i < |text| then text[i] else '0'
  }

  /** Two codes drawn from "ABCDEFABCDEFABCDEE": the first is "ABCDEF"; the
      second attempt collides with it, is dropped whole, and the next six
      runes give "ABCDEE". */
  method CollisionIsSkipped() returns (first: string, second: string)
    ensures first == "ABCDEF" && second == "ABCDEE"
  {
    var text := "ABCDEFABCDEFABCDEE";
    var g := new Generator(Scripted(text));
    assert Candidate(g.nextRune, 0, 0) == "ABCDEF";
    ghost var n1;
    first, n1 := g.GenerateCode();
    assert n1 == 0;
    assert Candidate(g.nextRune, 6, 1) == "ABCDEE";
    assert Candidate(g.nextRune, 6, 0) == "ABCDEF";
    ghost var n2;
    second, n2 := g.GenerateCode();
    assert n2 == 1;
  }
}
