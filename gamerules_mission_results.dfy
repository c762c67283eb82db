/** The mission-result map of server/gamerules/mission_results.go. A Go map
    is a reference, so the map is a class; `succeedMission` and
    `failMission` copy it first and never write to the receiver. */
module MissionResults {
  import Collections

  /** How many missions in `m` ended with `outcome`. */
  function CountOutcome(m: map<int, bool>, outcome: bool): nat {
    |set k | k in m && m[k] == outcome|
  }

  /** Every recorded mission is either a success or a failure. */
  lemma OutcomesPartition(m: map<int, bool>)
    ensures CountOutcome(m, true) + CountOutcome(m, false) == |m|
  {
    var s := set k | k in m && m[k] == true;
    var f := set k | k in m && m[k] == false;
    assert m.Keys == s + f;
    assert s !! f;
    assert |m.Keys| == |m|;
  }

  /** `after` is `before` with `mission` mapped to `outcome` and every other
      entry as it was. */
  predicate Recorded(before: map<int, bool>, after: map<int, bool>, mission: int, outcome: bool) {
    after.Keys == before.Keys + {mission}
    && after[mission] == outcome
    && forall k :: k in before && k != mission ==> after[k] == before[k]
  }

  class Results {
    var entries: map<int, bool>

    constructor (entries: map<int, bool>)
      ensures this.entries == entries
    {
      this.entries := entries;
    }

    /** `copy`: a fresh map filled entry by entry. */
    method Copy() returns (c: Results)
      ensures fresh(c) && Collections.SameEntries(c.entries, entries)
    {
      var filled: map<int, bool> := map[];
      var todo := entries.Keys;
      while todo != {}
        invariant todo <= entries.Keys
        invariant filled.Keys == entries.Keys - todo
        invariant forall k :: k in filled ==> filled[k] == entries[k]
        decreases todo
      {
        Collections.NonEmptyHasElement(todo);
        var key :| key in todo;
        filled := filled[key := entries[key]];
        todo := todo - {key};
      }
      c := new Results(filled);
    }

    /** `succeedMission`: the copy maps `mission` to true; the receiver is
        left as it was. */
    method SucceedMission(mission: int) returns (r: Results)
      ensures fresh(r) && Recorded(entries, r.entries, mission, true)
      ensures unchanged(this)
    {
      r := Copy();
      r.entries := r.entries[mission := true];
    }

    /** `failMission`: the copy maps `mission` to false. */
    method FailMission(mission: int) returns (r: Results)
      ensures fresh(r) && Recorded(entries, r.entries, mission, false)
      ensures unchanged(this)
    {
      r := Copy();
      r.entries := r.entries[mission := false];
    }

    /** `hasThreeSuccessesOrFailures`: counts both outcomes in one pass. */
    method HasThreeSuccessesOrFailures() returns (b: bool)
      ensures b <==> CountOutcome(entries, true) == 3 || CountOutcome(entries, false) == 3
    {
      var successes, failures := 0, 0;
      var todo := entries.Keys;
      while todo != {}
        invariant todo <= entries.Keys
        invariant successes == CountOutcome(entries - todo, true)
        invariant failures == CountOutcome(entries - todo, false)
        decreases todo
      {
        Collections.NonEmptyHasElement(todo);
        var key :| key in todo;
        CountOneMore(entries, todo, key);
        if entries[key] {
          successes := successes + 1;
        } else {
          failures := failures + 1;
        }
        todo := todo - {key};
      }
      assert entries - todo == entries;
      b := successes == 3 || failures == 3;
    }
  }

  /** Counting one more mission of a map adds one to the count of its
      outcome and nothing to the other. */
  lemma CountOneMore(m: map<int, bool>, todo: set<int>, key: int)
    requires key in todo && todo <= m.Keys
    ensures CountOutcome(m - (todo - {key}), m[key]) == CountOutcome(m - todo, m[key]) + 1
    ensures CountOutcome(m - (todo - {key}), !m[key]) == CountOutcome(m - todo, !m[key])
  {
    var before := m - todo;
    var after := m - (todo - {key});
    assert after == before[key := m[key]];
    assert key !in before;
    var v := m[key];
    assert (set k | k in after && after[k] == v) == (set k | k in before && before[k] == v) + {key};
    assert (set k | k in after && after[k] == !v) == (set k | k in before && before[k] == !v);
  }

  /** Recording the same outcome twice is the same as recording it once, and
      the later of two records for a mission is the one that stays. */
  lemma RecordingOverwrites(m: map<int, bool>, mission: int, first: bool, second: bool)
    ensures m[mission := first][mission := first] == m[mission := first]
    ensures m[mission := first][mission := second] == m[mission := second]
  {
  }

  /** A success recorded for a mission not yet played adds one success and
      leaves the failure count alone. */
  lemma SucceedingNewMissionCounts(m: map<int, bool>, mission: int)
    requires mission !in m
    ensures CountOutcome(m[mission := true], true) == CountOutcome(m, true) + 1
    ensures CountOutcome(m[mission := true], false) == CountOutcome(m, false)
  {
    var m' := m[mission := true];
    assert (set k | k in m' && m'[k] == true) == (set k | k in m && m[k] == true) + {mission};
    assert (set k | k in m' && m'[k] == false) == (set k | k in m && m[k] == false);
  }
}
