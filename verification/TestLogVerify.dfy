/**
 `verify_slow` and `verify_fast`: the checks of a tier's rows against the
 manifest and the allowlist. The files' entries and the NOT RUN markers are
 parameters.
 */
module TestLogVerify {
  import opened Wrappers
  import opened TestLog
  import opened TestLogParse

  /** A test: its binary and its path. */
  type Key = (string, string)

  const OK := Outcome(Passed, Nothing, Whole)
  const GUARDIAN := "ja_s4_guardian"
  const REASON := "slow tier: cargo test --features slow-tests"

  /** The outcomes of one test, in order. */
  function OutcomesFor(rows: seq<Row>, key: Key): seq<Text> {
    if rows == [] then []
    else
      var last := rows[|rows| - 1];
      OutcomesFor(rows[..|rows| - 1], key) + (if (last.binary, last.name) == key then [last.outcome] else [])
  }

  function KeysOf(rows: seq<Row>): set<Key> {
    set r | r in rows :: (r.binary, r.name)
  }

  lemma {:induction false} OutcomesNext(rows: seq<Row>, row: Row, key: Key)
    ensures OutcomesFor(rows + [row], key) == OutcomesFor(rows, key) +
      (if (row.binary, row.name) == key then [row.outcome] else [])
  {
    assert (rows + [row])[..|rows|] == rows;
  }

  lemma {:induction false} NoOutcomes(rows: seq<Row>, key: Key)
    ensures OutcomesFor(rows, key) == [] <==> key !in KeysOf(rows)
    decreases |rows|
  {
    if rows != [] {
      var pre, last := rows[..|rows| - 1], rows[|rows| - 1];
      NoOutcomes(pre, key);
      assert KeysOf(rows) == KeysOf(pre) + {(last.binary, last.name)} by {
        assert rows == pre + [last];
      }
    }
  }

  /** The dictionary of outcomes both checks build. */
  method Collate(rows: seq<Row>) returns (outcomes: map<Key, seq<Text>>)
    ensures outcomes.Keys == KeysOf(rows)
    ensures forall key :: key in outcomes ==> outcomes[key] == OutcomesFor(rows, key)
  {
    outcomes := map[];
    for k := 0 to |rows|
      invariant outcomes.Keys == KeysOf(rows[..k])
      invariant forall key :: key in outcomes ==> outcomes[key] == OutcomesFor(rows[..k], key)
    {
      var row := rows[k];
      var key := (row.binary, row.name);
      assert rows[..k + 1] == rows[..k] + [row];
      forall other ensures OutcomesFor(rows[..k + 1], other) ==
                           OutcomesFor(rows[..k], other) + (if key == other then [row.outcome] else []) {
        OutcomesNext(rows[..k], row, other);
      }
      NoOutcomes(rows[..k], key);
      assert KeysOf(rows[..k + 1]) == KeysOf(rows[..k]) + {key};
      outcomes := outcomes[key := (if key in outcomes then outcomes[key] else []) + [row.outcome]];
    }
    assert rows[..|rows|] == rows;
  }

  // ---- the slow tier ----

  /** Every expected test exactly once, passed, and nothing else. */
  ghost predicate ExactlyPassed(rows: seq<Row>, expected: set<Key>) {
    forall r :: multiset(rows)[r] ==
                if r.outcome == Outcome(Passed, Nothing, Whole) && (r.binary, r.name) in expected then 1 else 0
  }

  /** Every NOT RUN marker is well formed, names one test of the manifest, and no test twice. */
  ghost predicate MarkersAccounted(expected: set<Key>, mentions: nat, skips: seq<string>) {
    && mentions == |skips|
    && (forall i :: 0 <= i < |skips| ==> ("ja_s4_guardian", skips[i]) in expected)
    && (forall i, j :: 0 <= i < j < |skips| ==> skips[i] != skips[j])
  }

  lemma {:induction false} OutcomesCount(rows: seq<Row>, key: Key, outcome: Text)
    ensures multiset(OutcomesFor(rows, key))[outcome] == multiset(rows)[Row(key.0, key.1, outcome)]
    decreases |rows|
  {
    if rows != [] {
      var pre, last := rows[..|rows| - 1], rows[|rows| - 1];
      OutcomesCount(pre, key, outcome);
      assert rows == pre + [last];
    }
  }

  lemma {:induction false} OneOutcome(outcomes: seq<Text>)
    ensures outcomes == [OK] <==> forall o :: multiset(outcomes)[o] == if o == OK then 1 else 0
  {
    if forall o :: multiset(outcomes)[o] == if o == OK then 1 else 0 {
      assert multiset(outcomes) == multiset{OK};
      assert |outcomes| == |multiset(outcomes)| == 1;
      assert outcomes[0] in multiset(outcomes);
    }
  }

  lemma {:induction false} OutcomesDecide(rows: seq<Row>, expected: set<Key>)
    ensures ExactlyPassed(rows, expected) <==>
            KeysOf(rows) <= expected && forall key :: key in expected ==> OutcomesFor(rows, key) == [OK]
  {
    if ExactlyPassed(rows, expected) {
      forall key | key in KeysOf(rows) ensures key in expected {
        var r :| r in rows && (r.binary, r.name) == key;
        assert multiset(rows)[r] > 0;
      }
      forall key | key in expected ensures OutcomesFor(rows, key) == [OK] {
        forall o ensures multiset(OutcomesFor(rows, key))[o] == if o == OK then 1 else 0 {
          OutcomesCount(rows, key, o);
        }
        OneOutcome(OutcomesFor(rows, key));
      }
    }
    if KeysOf(rows) <= expected && forall key :: key in expected ==> OutcomesFor(rows, key) == [OK] {
      forall r ensures multiset(rows)[r] == if r.outcome == OK && (r.binary, r.name) in expected then 1 else 0 {
        var key := (r.binary, r.name);
        OutcomesCount(rows, key, r.outcome);
        if key !in expected {
          NoOutcomes(rows, key);
        }
      }
    }
  }

  /** The dictionary's three checks together mean one passed outcome for every expected test, and no other test. */
  lemma {:induction false} DictionaryDecides(rows: seq<Row>, outcomes: map<Key, seq<Text>>, expected: set<Key>)
    requires outcomes.Keys == KeysOf(rows) && forall key :: key in outcomes ==> outcomes[key] == OutcomesFor(rows, key)
    ensures (&& expected <= (set key | key in outcomes && OK in outcomes[key]) && outcomes.Keys <= expected
             && forall key :: key in outcomes ==> |outcomes[key]| == 1)
            <==> KeysOf(rows) <= expected && forall key :: key in expected ==> OutcomesFor(rows, key) == [OK]
  {
    forall key ensures OutcomesFor(rows, key) == [] <==> key !in outcomes {
      NoOutcomes(rows, key);
    }
    if forall key :: key in expected ==> OutcomesFor(rows, key) == [OK] {
      forall key | key in expected ensures key in outcomes && OK in outcomes[key] {
        assert OutcomesFor(rows, key) == [OK];
      }
    }
  }

  method DistinctNames(skips: seq<string>) returns (distinct: set<Key>, all: bool)
    ensures distinct == set i | 0 <= i < |skips| :: (GUARDIAN, skips[i])
    ensures all == forall i, j :: 0 <= i < j < |skips| ==> skips[i] != skips[j]
  {
    distinct := {};
    for k := 0 to |skips|
      invariant distinct == set i | 0 <= i < k :: (GUARDIAN, skips[i])
      invariant |distinct| <= k
      invariant |distinct| == k <==> forall i, j :: 0 <= i < j < k ==> skips[i] != skips[j]
    {
      var key := (GUARDIAN, skips[k]);
      if key in distinct {
        assert distinct + {key} == distinct;
      }
      distinct := distinct + {key};
    }
    all := |distinct| == |skips|;
  }

  /** The slow tier is accepted if and only if its log parses to exactly the manifest, each test passed once. */
  method VerifySlow(log: seq<Line>, expected: set<Key>, mentions: nat, skips: seq<string>) returns (code: int)
    ensures code == 0 || code == 1
    ensures code == 0 <==>
            Parsed(log).Ok? && ExactlyPassed(Parsed(log).value, expected) && MarkersAccounted(expected, mentions, skips)
  {
    var parsed := Parse(log);
    if parsed.Err? {
      return 1;
    }
    var outcomes := Collate(parsed.value);
    var ran := set key | key in outcomes && OK in outcomes[key];
    var skipped, once := DistinctNames(skips);
    var exact := expected <= ran && outcomes.Keys <= expected && forall key :: key in outcomes ==> |outcomes[key]| == 1;
    OutcomesDecide(parsed.value, expected);
    DictionaryDecides(parsed.value, outcomes, expected);
    var accounted := skipped <= expected && mentions == |skips| && once;
    return if exact && accounted then 0 else 1;
  }

  // ---- the fast tier ----

  predicate Says(text: string, part: string) {
    part <= text || (text != [] && Says(text[1..], part))
  }

  lemma {:induction false} SaysSomewhere(text: string, part: string)
    ensures Says(text, part) <==> exists i, j :: 0 <= i <= j <= |text| && text[i..j] == part
  {
    if part <= text {
      assert text[0..|part|] == part;
    } else if text != [] {
      SaysSomewhere(text[1..], part);
      if i, j :| 0 <= i <= j <= |text[1..]| && text[1..][i..j] == part {
        assert text[i + 1..j + 1] == part;
      }
      if i, j :| 0 <= i <= j <= |text| && text[i..j] == part {
        assert i > 0 ==> text[1..][i - 1..j - 1] == part;
      }
    }
  }

  /** What follows the outcome word. */
  function After(tail: Tail): string {
    match tail
    case Nothing => ""
    case Space => " "
    case Glued(t) => t
    case Reason(t) => t
    case Junk(t) => t
  }

  /** Ignored with the slow tier's own reason. */
  predicate IsSlow(outcome: Text) {
    IsIgnored(outcome) && Says(After(outcome.tail), REASON)
  }

  /** The text names the slow tier's own reason. */
  ghost predicate GivesReason(text: string) {
    exists i, j :: 0 <= i <= j <= |text| && text[i..j] == "slow tier: cargo test --features slow-tests"
  }

  /** Some run of the test was reported as ignored, with the slow tier's reason or with none such. */
  ghost predicate SkippedAs(rows: seq<Row>, key: Key, slow: bool) {
    exists r :: r in rows && (r.binary, r.name) == key && r.outcome.Outcome? && r.outcome.word == Ignored
        && (GivesReason(After(r.outcome.tail)) <==> slow)
  }

  /** The test ran once, and passed. */
  ghost predicate PassedOnce(rows: seq<Row>, key: Key) {
    forall o :: multiset(rows)[Row(key.0, key.1, o)] == if o == Outcome(Passed, Nothing, Whole) then 1 else 0
  }

  lemma {:induction false} OneRow(rows: seq<Row>, key: Key)
    ensures OutcomesFor(rows, key) == [OK] <==> PassedOnce(rows, key)
  {
    forall o ensures multiset(OutcomesFor(rows, key))[o] == multiset(rows)[Row(key.0, key.1, o)] {
      OutcomesCount(rows, key, o);
    }
    OneOutcome(OutcomesFor(rows, key));
  }

  /**
   The fast tier is accepted if and only if the tests skipped as slow are
   exactly the manifest's, the other skips exactly the allowlist's, and every
   other-OS manifest test ran once and passed.
   */
  method VerifyFast(log: seq<Line>, expected: set<Key>, mustPass: set<Key>, allowed: set<Key>) returns (code: int)
    ensures code == 0 || code == 1
    ensures code == 0 <==>
            && Parsed(log).Ok?
            && (forall key :: SkippedAs(Parsed(log).value, key, true) <==> key in expected)
            && (forall key :: SkippedAs(Parsed(log).value, key, false) <==> key in allowed)
            && (forall key :: key in mustPass ==> PassedOnce(Parsed(log).value, key))
  {
    var parsed := Parse(log);
    if parsed.Err? {
      return 1;
    }
    var rows := parsed.value;
    var outcomes := Collate(rows);
    var skipped := set r | r in rows && IsSlow(r.outcome) :: (r.binary, r.name);
    var others := set r | r in rows && IsIgnored(r.outcome) && !IsSlow(r.outcome) :: (r.binary, r.name);
    forall key ensures OutcomesFor(rows, key) == [] <==> key !in outcomes {
      NoOutcomes(rows, key);
    }
    forall key ensures OutcomesFor(rows, key) == [OK] <==> PassedOnce(rows, key) {
      OneRow(rows, key);
    }
    forall text ensures Says(text, REASON) <==> GivesReason(text) {
      SaysSomewhere(text, REASON);
    }
    assert forall key :: key in skipped <==> SkippedAs(rows, key, true);
    assert forall key :: key in others <==> SkippedAs(rows, key, false);
    if skipped == expected && others == allowed
       && forall key :: key in mustPass ==> key in outcomes && outcomes[key] == [OK] {
      return 0;
    }
    return 1;
  }
}
