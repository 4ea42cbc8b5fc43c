/**
 What exit 0 means, said of the rows themselves: no grouping, sorting, lining
 up or verdict codes in between.
 */
module VerdictPass {
  import opened Wrappers
  import opened Verdict
  import opened VerdictRows
  import M = Median

  // ---- rules on rows ----

  /** A candidate run and the reference run of the same pair. */
  predicate IsPair(pins: Pins, workload: string, c: Row, r: Row) {
    IsOn(c, workload, pins.candidate) && IsOn(r, workload, RefArm(pins)) && c.pair == r.pair
  }

  function ValuesOn(rows: seq<Row>, workload: string, arm: string, metric: string): (vs: seq<real>)
    ensures |vs| == |On(rows, workload, arm)|
  {
    Each(On(rows, workload, arm), r => Val(r, metric))
  }

  /** Candidate over reference for every pair, as the candidate's rows come. */
  function RatiosOn(pins: Pins, rows: seq<Row>, workload: string, metric: string): (vs: seq<real>)
    ensures |vs| == |On(rows, workload, pins.candidate)|
  {
    Each(On(rows, workload, pins.candidate), r => RatioOf(pins, rows, r, metric))
  }

  /** The two arms' ranges of values meet. */
  ghost predicate RangesMeet(pins: Pins, rows: seq<Row>, workload: string, metric: string) {
    && SomeRowBelow(rows, workload, RefArm(pins), pins.candidate, metric)
    && SomeRowBelow(rows, workload, pins.candidate, RefArm(pins), metric)
  }

  /** Some row of the first arm is at most some row of the second. */
  ghost predicate SomeRowBelow(rows: seq<Row>, workload: string, arm: string, other: string, metric: string) {
    exists r, c :: r in rows && c in rows && IsOn(r, workload, arm) && IsOn(c, workload, other)
        && Val(r, metric) <= Val(c, metric)
  }

  /** The limit of a rule judged run by run: G4 has its own for each workload. */
  function LimitOn(pins: Pins, workload: string, metric: string): real
    requires metric in pins.rules
  {
    if pins.gate != "G4" then pins.rules[metric].limit
    else if workload == "typical_1080p" || workload == "explainer_16x9" then 24.0
    else 15.0
  }

  /** The run is on the wrong side of the limit: below it for a rate, above it for anything else. */
  predicate Past(pins: Pins, workload: string, metric: string, row: Row)
    requires metric in pins.rules
  {
    if pins.rules[metric].decision.EachGe? then Val(row, metric) < LimitOn(pins, workload, metric)
    else Val(row, metric) > LimitOn(pins, workload, metric)
  }

  /** R65: large counters within five per cent in the median, small ones close in the mean and with ranges that meet. */
  ghost predicate CountersAgree(pins: Pins, rows: seq<Row>, workload: string, metric: string) {
    var a := ValuesOn(rows, workload, RefArm(pins), metric);
    var b := ValuesOn(rows, workload, pins.candidate, metric);
    && a != [] && b != []
    && (if M.Median(a) >= 20.0 then 0.95 <= M.Median(RatiosOn(pins, rows, workload, metric)) <= 1.05
        else
          var x, y := Total(a) / (|a| as real), Total(b) / (|b| as real);
          && ((-1.0 <= y - x <= 1.0) || (0.0 - 0.25 * x <= y - x <= 0.25 * x))
          && RangesMeet(pins, rows, workload, metric))
  }

  /** More than half of the pairs within the limit; for an even number of pairs, the mean of the two middle ratios. */
  predicate RatiosWithin(ratios: seq<real>, limit: real) {
    if |ratios| % 2 == 1 then M.Below(ratios, limit) > |ratios| / 2 else ratios != [] && M.Median(ratios) <= limit
  }

  /** The rule of the metric is met on the workload. */
  ghost predicate Meets(pins: Pins, rows: seq<Row>, workload: string, metric: string)
    requires metric in pins.rules
  {
    var rule := pins.rules[metric];
    match rule.decision
    case R50Abs => forall r :: r in rows && IsOn(r, workload, pins.candidate) ==> !Past(pins, workload, metric, r)
    case EachGe => forall r :: r in rows && IsOn(r, workload, pins.candidate) ==> !Past(pins, workload, metric, r)
    case EachLe => forall r :: r in rows && IsOn(r, workload, pins.candidate) ==> Val(r, metric) <= rule.limit
    case Zero => forall r :: r in rows ==> MetricOf(r, metric) == Number(0.0)
    case Invariant =>
      forall r :: r in rows && (IsOn(r, workload, pins.candidate) || IsOn(r, workload, RefArm(pins))) ==>
        MetricOf(r, metric) == Flag(true)
    case Equal => forall c, r :: c in rows && r in rows && IsPair(pins, workload, c, r) ==>
        MetricOf(c, metric) == MetricOf(r, metric)
    case Delta => forall c, r :: c in rows && r in rows && IsPair(pins, workload, c, r) ==>
        Val(c, metric) <= Val(r, metric) + rule.limit
    case Ratio => RatiosWithin(RatiosOn(pins, rows, workload, metric), rule.limit)
    case R65 => CountersAgree(pins, rows, workload, metric)
    case Report => true
  }

  /** The metric is judged by ratios to the reference. */
  predicate ByRatio(pins: Pins, rows: seq<Row>, workload: string, metric: string)
    requires metric in pins.rules
  {
    var a := ValuesOn(rows, workload, RefArm(pins), metric);
    pins.rules[metric].decision.Ratio? || (pins.rules[metric].decision.R65? && a != [] && M.Median(a) >= 20.0)
  }

  /** The workload has a candidate run, and no ratio has a denominator that is not positive. */
  ghost predicate CanJudge(pins: Pins, rows: seq<Row>, workload: string, metric: string)
    requires metric in pins.rules
  {
    && (exists c :: c in rows && IsOn(c, workload, pins.candidate))
    && (ByRatio(pins, rows, workload, metric) ==>
          forall r :: r in rows && IsOn(r, workload, RefArm(pins)) ==> Val(r, metric) > 0.0)
  }

  // ---- groups and rows ----

  predicate Fine(rows: seq<Row>, workload: string, arm: string, ok: Row -> bool) {
    forall r :: r in rows && IsOn(r, workload, arm) ==> ok(r)
  }

  predicate FineGroup(group: seq<Row>, ok: Row -> bool) {
    forall i :: 0 <= i < |group| ==> ok(group[i])
  }

  /** A property of every row of a group is one of every row of its arm and workload. */
  lemma {:induction false} AllOfGroup(rows: seq<Row>, workload: string, arm: string, ok: Row -> bool)
    ensures FineGroup(ArmRows(rows, workload, arm), ok) <==> Fine(rows, workload, arm, ok)
  {
    var g := ArmRows(rows, workload, arm);
    if FineGroup(g, ok) {
      forall r | r in rows && IsOn(r, workload, arm) ensures ok(r) {
        GroupMembers(rows, workload, arm, r);
        var i :| 0 <= i < |g| && g[i] == r;
        assert ok(g[i]);
      }
    }
    if Fine(rows, workload, arm, ok) {
      forall i | 0 <= i < |g| ensures ok(g[i]) {
        GroupMembers(rows, workload, arm, g[i]);
      }
    }
  }

  lemma {:induction false} NumsAreVals(group: seq<Row>, metric: string)
    ensures Nums(ValuesOf(group, metric)) == Each(group, r => Val(r, metric))
  {
  }

  lemma {:induction false} GroupValues(rows: seq<Row>, workload: string, arm: string, metric: string)
    ensures multiset(Nums(ValuesOf(ArmRows(rows, workload, arm), metric))) ==
      multiset(ValuesOn(rows, workload, arm, metric))
    ensures |ArmRows(rows, workload, arm)| == |On(rows, workload, arm)|
  {
    var g, f := ArmRows(rows, workload, arm), (r: Row) => Val(r, metric);
    GroupedRows(rows, workload, arm);
    assert |multiset(g)| == |multiset(On(rows, workload, arm))|;
    EachPermutes(g, On(rows, workload, arm), f);
    NumsAreVals(g, metric);
    assert Nums(ValuesOf(g, metric)) == Each(g, f)
      && ValuesOn(rows, workload, arm, metric) == Each(On(rows, workload, arm), f);
  }

  /** The lined-up ratios are the ratios of candidate runs to their partners, in another order. */
  lemma {:induction false} GroupRatios(pins: Pins, rows: seq<Row>, workload: string, metric: string)
    requires Paired(pins, rows)
    requires AllPositive(Nums(ValuesOf(ArmRows(rows, workload, RefArm(pins)), metric)))
    ensures var a, b := ArmRows(rows, workload, RefArm(pins)), ArmRows(rows, workload, pins.candidate);
      && |a| == |b|
      && multiset(Ratios(Nums(ValuesOf(a, metric)), Nums(ValuesOf(b, metric)))) ==
         multiset(RatiosOn(pins, rows, workload, metric))
  {
    var a, b := ArmRows(rows, workload, RefArm(pins)), ArmRows(rows, workload, pins.candidate);
    var f := (r: Row) => RatioOf(pins, rows, r, metric);
    LinedUp(pins, rows, workload);
    var x, y := Nums(ValuesOf(a, metric)), Nums(ValuesOf(b, metric));
    forall i | 0 <= i < |b| ensures Ratios(x, y)[i] == f(b[i]) {
      PartnerIsLinedUp(pins, rows, workload, i);
      assert x[i] > 0.0;
    }
    assert Ratios(x, y) == Each(b, f);
    GroupedRows(rows, workload, pins.candidate);
    EachPermutes(b, On(rows, workload, pins.candidate), f);
    assert RatiosOn(pins, rows, workload, metric) == Each(On(rows, workload, pins.candidate), f);
  }

  /** The rows at one place are a pair, and every pair has its place. */
  lemma {:induction false} PlaceOfPair(pins: Pins, rows: seq<Row>, workload: string, c: Row, r: Row) returns (i: nat)
    requires Paired(pins, rows) && c in rows && r in rows && IsPair(pins, workload, c, r)
    ensures var a, b := ArmRows(rows, workload, RefArm(pins)), ArmRows(rows, workload, pins.candidate);
      i < |a| && i < |b| && b[i] == c && a[i] == r
  {
    var a, b := ArmRows(rows, workload, RefArm(pins)), ArmRows(rows, workload, pins.candidate);
    LinedUp(pins, rows, workload);
    GroupMembers(rows, workload, pins.candidate, c);
    GroupMembers(rows, workload, RefArm(pins), r);
    i :| 0 <= i < |b| && b[i] == c;
    AscendingUnique(a, i, r);
  }

  lemma {:induction false} PairAtPlace(pins: Pins, rows: seq<Row>, workload: string, i: nat)
    requires Paired(pins, rows) && i < |ArmRows(rows, workload, pins.candidate)|
    ensures var a, b := ArmRows(rows, workload, RefArm(pins)), ArmRows(rows, workload, pins.candidate);
      i < |a| && b[i] in rows && a[i] in rows && IsPair(pins, workload, b[i], a[i])
  {
    var a, b := ArmRows(rows, workload, RefArm(pins)), ArmRows(rows, workload, pins.candidate);
    LinedUp(pins, rows, workload);
    GroupMembers(rows, workload, pins.candidate, b[i]);
    GroupMembers(rows, workload, RefArm(pins), a[i]);
  }

  predicate OkAt(a: seq<Row>, b: seq<Row>, i: nat, ok: (Row, Row) -> bool) {
    i < |a| && i < |b| ==> ok(b[i], a[i])
  }

  /** A comparison of lined-up rows is one of all pairs. */
  lemma {:induction false} AllPairs(pins: Pins, rows: seq<Row>, workload: string, ok: (Row, Row) -> bool)
    requires Paired(pins, rows)
    ensures var a, b := ArmRows(rows, workload, RefArm(pins)), ArmRows(rows, workload, pins.candidate);
      (forall i: nat :: OkAt(a, b, i, ok)) <==>
      (forall c, r :: c in rows && r in rows && IsPair(pins, workload, c, r) ==> ok(c, r))
  {
    var a, b := ArmRows(rows, workload, RefArm(pins)), ArmRows(rows, workload, pins.candidate);
    if forall i: nat :: OkAt(a, b, i, ok) {
      forall c, r | c in rows && r in rows && IsPair(pins, workload, c, r) ensures ok(c, r) {
        var i := PlaceOfPair(pins, rows, workload, c, r);
        assert OkAt(a, b, i, ok);
      }
    }
    if forall c, r :: c in rows && r in rows && IsPair(pins, workload, c, r) ==> ok(c, r) {
      forall i: nat ensures OkAt(a, b, i, ok) {
        if i < |a| && i < |b| {
          PairAtPlace(pins, rows, workload, i);
        }
      }
    }
  }

  // ---- judgeable ----

  lemma {:induction false} PositiveRows(rows: seq<Row>, workload: string, arm: string, metric: string)
    ensures AllPositive(Nums(ValuesOf(ArmRows(rows, workload, arm), metric))) <==>
            forall r :: r in rows && IsOn(r, workload, arm) ==> Val(r, metric) > 0.0
  {
    AllOfGroup(rows, workload, arm, r => Val(r, metric) > 0.0);
    NumsAreVals(ArmRows(rows, workload, arm), metric);
    var g := ArmRows(rows, workload, arm);
    assert forall i :: 0 <= i < |g| ==> Nums(ValuesOf(g, metric))[i] == Val(g[i], metric);
  }

  lemma {:induction false} HasRows(rows: seq<Row>, workload: string, arm: string)
    ensures ArmRows(rows, workload, arm) != [] <==> exists r :: r in rows && IsOn(r, workload, arm)
  {
    var g := ArmRows(rows, workload, arm);
    if g != [] {
      GroupMembers(rows, workload, arm, g[0]);
    }
    if r :| r in rows && IsOn(r, workload, arm) {
      GroupMembers(rows, workload, arm, r);
    }
  }

  lemma {:induction false} CodesJudged(gate: string, workload: string, rule: Rule, a: seq<Value>, b: seq<Value>,
                                       all: seq<Value>)
    requires |a| == |b|
    ensures CodesFor(gate, workload, rule, a, b, all).Ok? <==>
            && |a| > 0
            && (rule.decision.Ratio? || (rule.decision.R65? && M.Median(Nums(a)) >= 20.0) ==> AllPositive(Nums(a)))
  {
  }

  /** A metric is judged exactly if its rows allow it. */
  lemma {:induction false} JudgedIffCanJudge(pins: Pins, rows: seq<Row>, workload: string, metric: string)
    requires Paired(pins, rows) && metric in pins.rules
    ensures MetricCodes(pins, rows, workload, metric).Ok? <==> CanJudge(pins, rows, workload, metric)
  {
    var a, b := ArmRows(rows, workload, RefArm(pins)), ArmRows(rows, workload, pins.candidate);
    var x := Nums(ValuesOf(a, metric));
    LinedUp(pins, rows, workload);
    HasRows(rows, workload, pins.candidate);
    CodesJudged(pins.gate, workload, pins.rules[metric], ValuesOf(a, metric), ValuesOf(b, metric),
                ValuesOf(rows, metric));
    PositiveRows(rows, workload, RefArm(pins), metric);
    GroupValues(rows, workload, RefArm(pins), metric);
    if x != [] {
      M.MedianPermutes(x, ValuesOn(rows, workload, RefArm(pins), metric));
    }
  }

  // ---- one rule at a time ----

  /** The verdicts hold nothing against the candidate. */
  predicate Clean(codes: set<int>) {
    1 !in codes && 75 !in codes
  }

  lemma {:induction false} EachPasses(decision: Decision, limit: real, hard: bool, a: seq<real>, b: seq<real>)
    requires |a| == |b| > 0
    ensures Clean(EachCodes(decision, limit, hard, a, b)) <==> forall i :: 0 <= i < |b| ==>
      !Fails(decision, limit, b[i])
  {
    var spread := MaxOf(a) - MinOf(a);
    if i :| 0 <= i < |b| && Fails(decision, limit, b[i]) {
      var c := PairCode(decision, limit, hard, spread, a[i], b[i]);
      assert c in EachCodes(decision, limit, hard, a, b) && (c == 1 || c == 75);
    } else {
      forall c | c in EachCodes(decision, limit, hard, a, b) ensures c == 0 {
        var i :| 0 <= i < |a| && c == PairCode(decision, limit, hard, spread, a[i], b[i]);
      }
    }
  }

  /** R50 and its mirror image pass exactly if every candidate row is within the limit, whatever the reference did. */
  lemma {:induction false} EachIsMet(pins: Pins, rows: seq<Row>, workload: string, metric: string, a: seq<real>)
    requires metric in pins.rules && (pins.rules[metric].decision.R50Abs? || pins.rules[metric].decision.EachGe?)
    requires |a| == |ArmRows(rows, workload, pins.candidate)| > 0
    ensures var rule := pins.rules[metric];
      Clean(EachCodes(rule.decision, LimitFor(pins.gate, workload, rule.limit), pins.gate in HARD, a,
                      Nums(ValuesOf(ArmRows(rows, workload, pins.candidate), metric)))) <==>
      Meets(pins, rows, workload, metric)
  {
    var rule := pins.rules[metric];
    var limit := LimitFor(pins.gate, workload, rule.limit);
    var b := ArmRows(rows, workload, pins.candidate);
    var y := Nums(ValuesOf(b, metric));
    EachPasses(rule.decision, limit, pins.gate in HARD, a, y);
    assert forall i :: 0 <= i < |b| ==> y[i] == Val(b[i], metric);
    if rule.decision.EachGe? {
      AllOfGroup(rows, workload, pins.candidate, r => Val(r, metric) >= limit);
    } else {
      AllOfGroup(rows, workload, pins.candidate, r => Val(r, metric) <= limit);
    }
  }

  lemma {:induction false} MaxBounds(s: seq<real>, limit: real)
    requires s != []
    ensures MaxOf(s) <= limit <==> forall i :: 0 <= i < |s| ==> s[i] <= limit
    ensures MinOf(s) <= limit <==> exists i :: 0 <= i < |s| && s[i] <= limit
    decreases |s|
  {
    if |s| > 1 {
      MaxBounds(s[1..], limit);
      assert forall i :: 1 <= i < |s| ==> s[i] == s[1..][i - 1];
    }
  }

  lemma {:induction false} MaxIsMet(pins: Pins, rows: seq<Row>, workload: string, metric: string)
    requires metric in pins.rules && pins.rules[metric].decision.EachLe?
      && ArmRows(rows, workload, pins.candidate) != []
    ensures MaxOf(Nums(ValuesOf(ArmRows(rows, workload, pins.candidate), metric))) <= pins.rules[metric].limit <==>
            Meets(pins, rows, workload, metric)
  {
    var b := ArmRows(rows, workload, pins.candidate);
    var y := Nums(ValuesOf(b, metric));
    MaxBounds(y, pins.rules[metric].limit);
    assert forall i :: 0 <= i < |b| ==> y[i] == Val(b[i], metric);
    AllOfGroup(rows, workload, pins.candidate, r => Val(r, metric) <= pins.rules[metric].limit);
  }

  lemma {:induction false} DeltaIsMet(pins: Pins, rows: seq<Row>, workload: string, metric: string)
    requires Paired(pins, rows) && metric in pins.rules && pins.rules[metric].decision.Delta?
    ensures var a, b := ArmRows(rows, workload, RefArm(pins)), ArmRows(rows, workload, pins.candidate);
      && |a| == |b|
      && (WithinDelta(Nums(ValuesOf(a, metric)), Nums(ValuesOf(b, metric)), pins.rules[metric].limit) <==>
          Meets(pins, rows, workload, metric))
  {
    var a, b, limit := ArmRows(rows, workload, RefArm(pins)), ArmRows(rows, workload, pins.candidate),
        pins.rules[metric].limit;
    var x, y := Nums(ValuesOf(a, metric)), Nums(ValuesOf(b, metric));
    var ok := (c: Row, r: Row) => Val(c, metric) <= Val(r, metric) + limit;
    LinedUp(pins, rows, workload);
    AllPairs(pins, rows, workload, ok);
    forall i: nat ensures OkAt(a, b, i, ok) <==> (i < |a| ==> y[i] <= x[i] + limit) {
    }
  }

  lemma {:induction false} EqualIsMet(pins: Pins, rows: seq<Row>, workload: string, metric: string)
    requires Paired(pins, rows) && metric in pins.rules && pins.rules[metric].decision.Equal?
    ensures var a, b := ArmRows(rows, workload, RefArm(pins)), ArmRows(rows, workload, pins.candidate);
      ValuesOf(a, metric) == ValuesOf(b, metric) <==> Meets(pins, rows, workload, metric)
  {
    var a, b := ArmRows(rows, workload, RefArm(pins)), ArmRows(rows, workload, pins.candidate);
    var x, y := ValuesOf(a, metric), ValuesOf(b, metric);
    var ok := (c: Row, r: Row) => MetricOf(c, metric) == MetricOf(r, metric);
    LinedUp(pins, rows, workload);
    AllPairs(pins, rows, workload, ok);
    forall i: nat ensures OkAt(a, b, i, ok) <==> (i < |a| ==> y[i] == x[i]) {
    }
    if forall i: nat :: OkAt(a, b, i, ok) {
      forall i | 0 <= i < |a| ensures x[i] == y[i] {
        assert OkAt(a, b, i, ok);
      }
      assert x == y;
    }
  }

  lemma {:induction false} InvariantIsMet(pins: Pins, rows: seq<Row>, workload: string, metric: string)
    requires Paired(pins, rows) && metric in pins.rules && pins.rules[metric].decision.Invariant?
    ensures var a := ValuesOf(ArmRows(rows, workload, RefArm(pins)), metric);
      var b := ValuesOf(ArmRows(rows, workload, pins.candidate), metric);
      |a| == |b| &&
      ((forall i :: 0 <= i < |a| ==> a[i] == Flag(true) && b[i] == Flag(true)) <==> Meets(pins, rows, workload, metric))
  {
    var a, b := ArmRows(rows, workload, RefArm(pins)), ArmRows(rows, workload, pins.candidate);
    LinedUp(pins, rows, workload);
    AllOfGroup(rows, workload, RefArm(pins), r => MetricOf(r, metric) == Flag(true));
    AllOfGroup(rows, workload, pins.candidate, r => MetricOf(r, metric) == Flag(true));
    assert forall i :: 0 <= i < |a| ==> ValuesOf(a, metric)[i] == MetricOf(a[i], metric);
    assert forall i :: 0 <= i < |b| ==> ValuesOf(b, metric)[i] == MetricOf(b[i], metric);
  }

  lemma {:induction false} ZeroIsMet(rows: seq<Row>, metric: string)
    ensures var all := ValuesOf(rows, metric);
      (forall i :: 0 <= i < |all| ==> all[i] == Number(0.0)) <==>
          (forall r :: r in rows ==> MetricOf(r, metric) == Number(0.0))
  {
    var all := ValuesOf(rows, metric);
    assert forall i :: 0 <= i < |all| ==> all[i] == MetricOf(rows[i], metric);
    if forall i :: 0 <= i < |all| ==> all[i] == Number(0.0) {
      forall r | r in rows ensures MetricOf(r, metric) == Number(0.0) {
        var i :| 0 <= i < |rows| && rows[i] == r;
        assert all[i] == Number(0.0);
      }
    }
    if forall r :: r in rows ==> MetricOf(r, metric) == Number(0.0) {
      forall i | 0 <= i < |all| ensures all[i] == Number(0.0) {
        assert rows[i] in rows;
      }
    }
  }

  lemma {:induction false} RatioIsMet(pins: Pins, rows: seq<Row>, workload: string, metric: string)
    requires Paired(pins, rows) && metric in pins.rules && pins.rules[metric].decision.Ratio?
    requires ArmRows(rows, workload, pins.candidate) != []
    requires AllPositive(Nums(ValuesOf(ArmRows(rows, workload, RefArm(pins)), metric)))
    ensures var a, b := ArmRows(rows, workload, RefArm(pins)), ArmRows(rows, workload, pins.candidate);
      && |a| == |b|
      && (WithinRatio(Nums(ValuesOf(a, metric)), Nums(ValuesOf(b, metric)), pins.rules[metric].limit) <==>
          Meets(pins, rows, workload, metric))
  {
    var a, b := ArmRows(rows, workload, RefArm(pins)), ArmRows(rows, workload, pins.candidate);
    GroupRatios(pins, rows, workload, metric);
    var lined, loose := Ratios(Nums(ValuesOf(a, metric)), Nums(ValuesOf(b, metric))),
        RatiosOn(pins, rows, workload, metric);
    M.MedianPermutes(lined, loose);
    if |loose| % 2 == 1 {
      M.MajorityDecides(loose, pins.rules[metric].limit);
    }
  }

  lemma {:induction false} ExtremesReached(s: seq<real>) returns (low: nat, high: nat)
    requires s != []
    ensures low < |s| && high < |s| && s[low] == MinOf(s) && s[high] == MaxOf(s)
    ensures forall i :: 0 <= i < |s| ==> s[low] <= s[i] <= s[high]
    decreases |s|
  {
    if |s| == 1 {
      low, high := 0, 0;
    } else {
      low, high := ExtremesReached(s[1..]);
      assert forall i :: 1 <= i < |s| ==> s[i] == s[1..][i - 1];
      low := if s[0] < MinOf(s[1..]) then 0 else low + 1;
      high := if s[0] > MaxOf(s[1..]) then 0 else high + 1;
    }
  }

  predicate Overlap(x: seq<real>, y: seq<real>)
    requires x != [] && y != []
  {
    (if MinOf(x) > MinOf(y) then MinOf(x) else MinOf(y)) <= (if MaxOf(x) < MaxOf(y) then MaxOf(x) else MaxOf(y))
  }

  /** Some value of the first list is at most some value of the second. */
  ghost predicate SomeBelow(x: seq<real>, y: seq<real>) {
    exists i, j :: 0 <= i < |x| && 0 <= j < |y| && x[i] <= y[j]
  }

  lemma {:induction false} OverlapIff(x: seq<real>, y: seq<real>)
    requires x != [] && y != []
    ensures Overlap(x, y) <==> SomeBelow(x, y) && SomeBelow(y, x)
  {
    var xl, xh := ExtremesReached(x);
    var yl, yh := ExtremesReached(y);
    assert x[xl] <= y[yh] ==> SomeBelow(x, y);
    assert y[yl] <= x[xh] ==> SomeBelow(y, x);
  }

  lemma {:induction false} SomeRows(rows: seq<Row>, workload: string, arm: string, other: string, metric: string)
    ensures SomeBelow(Nums(ValuesOf(ArmRows(rows, workload, arm), metric)),
                      Nums(ValuesOf(ArmRows(rows, workload, other), metric))) <==>
            SomeRowBelow(rows, workload, arm, other, metric)
  {
    var g, h := ArmRows(rows, workload, arm), ArmRows(rows, workload, other);
    var x, y := Nums(ValuesOf(g, metric)), Nums(ValuesOf(h, metric));
    if SomeBelow(x, y) {
      var i, j :| 0 <= i < |x| && 0 <= j < |y| && x[i] <= y[j];
      GroupMembers(rows, workload, arm, g[i]);
      GroupMembers(rows, workload, other, h[j]);
      assert Val(g[i], metric) <= Val(h[j], metric);
    }
    if SomeRowBelow(rows, workload, arm, other, metric) {
      var r, c :| r in rows && c in rows && IsOn(r, workload, arm) && IsOn(c, workload, other)
          && Val(r, metric) <= Val(c, metric);
      GroupMembers(rows, workload, arm, r);
      GroupMembers(rows, workload, other, c);
      var i :| 0 <= i < |g| && g[i] == r;
      var j :| 0 <= j < |h| && h[j] == c;
      assert x[i] <= y[j];
    }
  }

  lemma {:induction false} MeanPermutes(s: seq<real>, t: seq<real>)
    requires multiset(s) == multiset(t) && s != []
    ensures t != [] && Mean(s) == Mean(t)
  {
    assert |multiset(s)| == |multiset(t)|;
    TotalPermutes(s, t);
  }

  /** R65's small counters: means and ranges. */
  lemma {:induction false} SmallCounters(pins: Pins, rows: seq<Row>, workload: string, metric: string)
    requires Paired(pins, rows) && ArmRows(rows, workload, pins.candidate) != []
    ensures var a, b := ArmRows(rows, workload, RefArm(pins)), ArmRows(rows, workload, pins.candidate);
      var x, y := Nums(ValuesOf(a, metric)), Nums(ValuesOf(b, metric));
      var x', y' := ValuesOn(rows, workload, RefArm(pins), metric), ValuesOn(rows, workload, pins.candidate, metric);
      && |x| == |y| && x != [] && y != [] && x' != [] && y' != []
      && Mean(x) == Mean(x') && Mean(y) == Mean(y') && M.Median(x) == M.Median(x')
      && (Overlap(x, y) <==> RangesMeet(pins, rows, workload, metric))
  {
    var a, b := ArmRows(rows, workload, RefArm(pins)), ArmRows(rows, workload, pins.candidate);
    var x, y := Nums(ValuesOf(a, metric)), Nums(ValuesOf(b, metric));
    LinedUp(pins, rows, workload);
    GroupValues(rows, workload, RefArm(pins), metric);
    GroupValues(rows, workload, pins.candidate, metric);
    MeanPermutes(x, ValuesOn(rows, workload, RefArm(pins), metric));
    MeanPermutes(y, ValuesOn(rows, workload, pins.candidate, metric));
    M.MedianPermutes(x, ValuesOn(rows, workload, RefArm(pins), metric));
    OverlapIff(x, y);
    SomeRows(rows, workload, RefArm(pins), pins.candidate, metric);
    SomeRows(rows, workload, pins.candidate, RefArm(pins), metric);
  }

  lemma {:induction false} CountersIsMet(pins: Pins, rows: seq<Row>, workload: string, metric: string)
    requires Paired(pins, rows) && ArmRows(rows, workload, pins.candidate) != []
    ensures var a, b := ArmRows(rows, workload, RefArm(pins)), ArmRows(rows, workload, pins.candidate);
      var x, y := Nums(ValuesOf(a, metric)), Nums(ValuesOf(b, metric));
      && |x| == |y| > 0
      && (CounterCodes(x, y).Ok? ==> (Clean(CounterCodes(x, y).value) <==> CountersAgree(pins, rows, workload, metric)))
  {
    var a, b := ArmRows(rows, workload, RefArm(pins)), ArmRows(rows, workload, pins.candidate);
    var x, y := Nums(ValuesOf(a, metric)), Nums(ValuesOf(b, metric));
    SmallCounters(pins, rows, workload, metric);
    if M.Median(x) >= 20.0 {
      if AllPositive(x) {
        GroupRatios(pins, rows, workload, metric);
        M.MedianPermutes(Ratios(x, y), RatiosOn(pins, rows, workload, metric));
      }
    } else {
      assert Clean(CounterCodes(x, y).value) <==>
             Abs(Mean(y) - Mean(x)) <= (if 0.25 * Mean(x) > 1.0 then 0.25 * Mean(x) else 1.0) && Overlap(x, y);
    }
  }

  /** A judgeable metric gets neither a 1 nor a 75 exactly if its rule is met. */
  lemma {:induction false} CleanIffMet(pins: Pins, rows: seq<Row>, workload: string, metric: string)
    requires Paired(pins, rows) && metric in pins.rules && MetricCodes(pins, rows, workload, metric).Ok?
    ensures Clean(MetricCodes(pins, rows, workload, metric).value) <==> Meets(pins, rows, workload, metric)
  {
    var a, b := ArmRows(rows, workload, RefArm(pins)), ArmRows(rows, workload, pins.candidate);
    LinedUp(pins, rows, workload);
    CodesJudged(pins.gate, workload, pins.rules[metric], ValuesOf(a, metric), ValuesOf(b, metric),
                ValuesOf(rows, metric));
    match pins.rules[metric].decision
    case R50Abs => EachIsMet(pins, rows, workload, metric, Nums(ValuesOf(a, metric)));
    case EachGe => EachIsMet(pins, rows, workload, metric, Nums(ValuesOf(a, metric)));
    case EachLe => MaxIsMet(pins, rows, workload, metric);
    case Zero => ZeroIsMet(rows, metric);
    case Invariant => InvariantIsMet(pins, rows, workload, metric);
    case Equal => EqualIsMet(pins, rows, workload, metric);
    case Delta => DeltaIsMet(pins, rows, workload, metric);
    case Ratio => RatioIsMet(pins, rows, workload, metric);
    case R65 => CountersIsMet(pins, rows, workload, metric);
    case Report =>
  }

  // ---- the exit code ----

  /** The row is evidence: it has the pinned metrics and no other, each with a value its unit allows. */
  predicate Sound(pins: Pins, row: Row) {
    && row.validity != InvalidEvidence && row.metrics.Keys == pins.rules.Keys
    && forall m :: m in pins.rules ==>
         var unit, value := pins.rules[m].unit, row.metrics[m];
         && (value.Flag? <==> unit == Boolean) && (value.Digest? <==> unit == Sha256)
         && (value.Number? ==> 0.0 <= value.x && (unit == Percent ==> value.x <= 100.0))
  }

  lemma {:induction false} SoundIsValid(pins: Pins, row: Row)
    ensures Sound(pins, row) <==> ValidRow(pins, row)
  {
    if Sound(pins, row) {
      forall m | m in row.metrics ensures ValidValue(pins.rules[m], row.metrics[m]) {
        assert m in pins.rules;
      }
    }
  }

  lemma {:induction false} AllSound(pins: Pins, rows: seq<Row>)
    ensures (forall r :: r in rows ==> Sound(pins, r)) <==> !exists r :: r in rows && !ValidRow(pins, r)
  {
    forall r ensures Sound(pins, r) <==> ValidRow(pins, r) {
      SoundIsValid(pins, r);
    }
  }

  /** Nothing about the runs themselves stands against a pass. */
  predicate Undoubted(pins: Pins, rows: seq<Row>, control: Result<int, Fault>) {
    && (forall r :: r in rows ==>
          Sound(pins, r) && !r.busy && r.exit == 0 && r.validity != PendingGpuBusy && r.validity != EnvironmentLimited)
    && pins.gate != "PERFORMANCE" && pins.gate != "R65-cumulative"
    && (pins.gate == "G1" || pins.gate == "G14" ==> control == Ok(0))
  }

  /** Every rule can be judged and is met, on every workload. */
  ghost predicate AllMet(pins: Pins, rows: seq<Row>) {
    forall w, m :: w in WorkloadsOf(rows) && m in pins.rules ==> CanJudge(pins, rows, w, m) && Meets(pins, rows, w, m)
  }

  lemma {:induction false} CleanIffAllMet(pins: Pins, rows: seq<Row>)
    requires Paired(pins, rows)
    ensures Judgeable(pins, rows) && !Given(pins, rows, 1) && !Given(pins, rows, 75) <==> AllMet(pins, rows)
  {
    forall w, m | w in WorkloadsOf(rows) && m in pins.rules
      ensures MetricCodes(pins, rows, w, m).Ok? <==> CanJudge(pins, rows, w, m)
      ensures MetricCodes(pins, rows, w, m).Ok? ==>
        (Clean(MetricCodes(pins, rows, w, m).value) <==> Meets(pins, rows, w, m))
    {
      JudgedIffCanJudge(pins, rows, w, m);
      if MetricCodes(pins, rows, w, m).Ok? {
        CleanIffMet(pins, rows, w, m);
      }
    }
  }

  /**
   A gate that is not a control passes if and only if its runs are beyond
   doubt, a bound control has passed, and on every workload every rule can be
   judged and is met by the rows. The rows are paired, as the pinned order
   demands.
   */
  lemma {:induction false} PassesExactly(pins: Pins, rows: seq<Row>, control: Result<int, Fault>)
    requires pins.gate != "Q3-G1" && pins.gate != "Q3-G14" && Paired(pins, rows)
    ensures Judge(pins, rows, control) == Ok(0) <==> Undoubted(pins, rows, control) && AllMet(pins, rows)
  {
    CleanIffAllMet(pins, rows);
    AllSound(pins, rows);
  }
}
