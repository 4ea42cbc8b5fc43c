/**
 What every exit code means, said of the rows themselves, and what a control
 run exits with.
 */
module VerdictExit {
  import opened Wrappers
  import opened Verdict
  import opened VerdictRows
  import opened VerdictPass
  import M = Median

  // ---- a 1 and a 75 of one metric ----

  /** By how much the candidate's run is worse than that of the reference. */
  function Behind(pins: Pins, metric: string, c: Row, r: Row): real
    requires metric in pins.rules
  {
    if pins.rules[metric].decision.EachGe? then Val(r, metric) - Val(c, metric) else Val(c, metric) - Val(r, metric)
  }

  /** Some two runs of the reference lie this far apart. */
  ghost predicate Scatters(pins: Pins, rows: seq<Row>, workload: string, metric: string, gap: real) {
    exists p, q :: p in rows && q in rows && IsOn(p, workload, RefArm(pins)) && IsOn(q, workload, RefArm(pins))
      && gap <= Val(p, metric) - Val(q, metric)
  }

  /** The reference misses the limit as well, and by about as much: no more than its own runs differ. */
  ghost predicate Excused(pins: Pins, rows: seq<Row>, workload: string, metric: string, c: Row, r: Row)
    requires metric in pins.rules
  {
    && pins.gate != "G3" && pins.gate != "VM-D6" && Past(pins, workload, metric, r)
    && Scatters(pins, rows, workload, metric, Behind(pins, metric, c, r))
  }

  /** The metric is judged run by run. */
  predicate RunByRun(pins: Pins, metric: string)
    requires metric in pins.rules
  {
    pins.rules[metric].decision.R50Abs? || pins.rules[metric].decision.EachGe?
  }

  /** Some candidate run is past the limit, and its reference run does not excuse it; or another rule is not met. */
  ghost predicate Blamed(pins: Pins, rows: seq<Row>, workload: string, metric: string)
    requires metric in pins.rules
  {
    if RunByRun(pins, metric) then
      exists c, r :: c in rows && r in rows && IsPair(pins, workload, c, r)
        && Past(pins, workload, metric, c) && !Excused(pins, rows, workload, metric, c, r)
    else !Meets(pins, rows, workload, metric)
  }

  /** Some candidate run is past the limit and its reference run excuses it. */
  ghost predicate Doubted(pins: Pins, rows: seq<Row>, workload: string, metric: string)
    requires metric in pins.rules
  {
    RunByRun(pins, metric) &&
    exists c, r :: c in rows && r in rows && IsPair(pins, workload, c, r)
      && Past(pins, workload, metric, c) && Excused(pins, rows, workload, metric, c, r)
  }

  /** The spread of the reference's runs is as wide as a gap exactly if two of them lie that far apart. */
  lemma {:induction false} SpreadScatters(pins: Pins, rows: seq<Row>, workload: string, metric: string, gap: real)
    requires ArmRows(rows, workload, RefArm(pins)) != []
    ensures var x := Nums(ValuesOf(ArmRows(rows, workload, RefArm(pins)), metric));
      gap <= MaxOf(x) - MinOf(x) <==> Scatters(pins, rows, workload, metric, gap)
  {
    var g := ArmRows(rows, workload, RefArm(pins));
    var x := Nums(ValuesOf(g, metric));
    assert forall i :: 0 <= i < |g| ==> x[i] == Val(g[i], metric);
    var low, high := ExtremesReached(x);
    GroupMembers(rows, workload, RefArm(pins), g[low]);
    GroupMembers(rows, workload, RefArm(pins), g[high]);
    if Scatters(pins, rows, workload, metric, gap) {
      var p, q :| && p in rows && q in rows && IsOn(p, workload, RefArm(pins)) && IsOn(q, workload, RefArm(pins))
                  && gap <= Val(p, metric) - Val(q, metric);
      GroupMembers(rows, workload, RefArm(pins), p);
      GroupMembers(rows, workload, RefArm(pins), q);
      var i :| 0 <= i < |g| && g[i] == p;
      var j :| 0 <= j < |g| && g[j] == q;
      assert x[i] <= x[high] && x[low] <= x[j];
    }
  }

  /** The verdict of one lined-up pair. */
  lemma {:induction false} PairJudged(pins: Pins, rows: seq<Row>, workload: string, metric: string, c: Row, r: Row)
    requires metric in pins.rules && RunByRun(pins, metric) && ArmRows(rows, workload, RefArm(pins)) != []
    ensures var rule, x := pins.rules[metric], Nums(ValuesOf(ArmRows(rows, workload, RefArm(pins)), metric));
      var code := PairCode(rule.decision, LimitFor(pins.gate, workload, rule.limit), pins.gate in HARD,
                           MaxOf(x) - MinOf(x), Val(r, metric), Val(c, metric));
      && (code == 0 <==> !Past(pins, workload, metric, c))
      && (code == 1 <==> Past(pins, workload, metric, c) && !Excused(pins, rows, workload, metric, c, r))
      && (code == 75 <==> Past(pins, workload, metric, c) && Excused(pins, rows, workload, metric, c, r))
  {
    SpreadScatters(pins, rows, workload, metric, Behind(pins, metric, c, r));
  }

  function PairCodeAt(decision: Decision, limit: real, hard: bool, a: seq<real>, b: seq<real>, i: nat): int
    requires i < |a| == |b|
  {
    PairCode(decision, limit, hard, MaxOf(a) - MinOf(a), a[i], b[i])
  }

  lemma {:induction false} EachAtPlace(decision: Decision, limit: real, hard: bool, a: seq<real>, b: seq<real>,
                                       code: int)
    requires |a| == |b| > 0
    ensures code in EachCodes(decision, limit, hard, a, b) <==>
            exists i: nat :: i < |a| && code == PairCodeAt(decision, limit, hard, a, b, i)
  {
    if i: nat :| i < |a| && code == PairCodeAt(decision, limit, hard, a, b, i) {
      assert PairCode(decision, limit, hard, MaxOf(a) - MinOf(a), a[i], b[i]) in EachCodes(decision, limit, hard, a, b);
    }
    if code in EachCodes(decision, limit, hard, a, b) {
      var i :| 0 <= i < |a| && code == PairCode(decision, limit, hard, MaxOf(a) - MinOf(a), a[i], b[i]);
      assert code == PairCodeAt(decision, limit, hard, a, b, i);
    }
  }

  /** The code of the pair at place `i` of the lined-up groups. */
  function CodeAt(pins: Pins, rows: seq<Row>, workload: string, metric: string, i: nat): int
    requires metric in pins.rules
    requires i < |ArmRows(rows, workload, RefArm(pins))| == |ArmRows(rows, workload, pins.candidate)|
  {
    var rule := pins.rules[metric];
    var x := Nums(ValuesOf(ArmRows(rows, workload, RefArm(pins)), metric));
    var y := Nums(ValuesOf(ArmRows(rows, workload, pins.candidate), metric));
    PairCodeAt(rule.decision, LimitFor(pins.gate, workload, rule.limit), pins.gate in HARD, x, y, i)
  }

  lemma {:induction false} CodesAreAtPlaces(pins: Pins, rows: seq<Row>, workload: string, metric: string, code: int)
    requires Paired(pins, rows) && metric in pins.rules && RunByRun(pins, metric)
    requires MetricCodes(pins, rows, workload, metric).Ok?
    ensures |ArmRows(rows, workload, RefArm(pins))| == |ArmRows(rows, workload, pins.candidate)|
    ensures code in MetricCodes(pins, rows, workload, metric).value <==>
            exists i: nat :: i < |ArmRows(rows, workload, RefArm(pins))|
                             && code == CodeAt(pins, rows, workload, metric, i)
  {
    LinedUp(pins, rows, workload);
    var rule, a := pins.rules[metric], ArmRows(rows, workload, RefArm(pins));
    var x := Nums(ValuesOf(a, metric));
    var y := Nums(ValuesOf(ArmRows(rows, workload, pins.candidate), metric));
    var limit := LimitFor(pins.gate, workload, rule.limit);
    EachAtPlace(rule.decision, limit, pins.gate in HARD, x, y, code);
    assert forall i: nat :: i < |a| ==>
      CodeAt(pins, rows, workload, metric, i) == PairCodeAt(rule.decision, limit, pins.gate in HARD, x, y, i);
  }

  lemma {:induction false} PlaceJudged(pins: Pins, rows: seq<Row>, workload: string, metric: string, i: nat)
    requires Paired(pins, rows) && metric in pins.rules && RunByRun(pins, metric)
    requires i < |ArmRows(rows, workload, RefArm(pins))| == |ArmRows(rows, workload, pins.candidate)|
    ensures var r, c := ArmRows(rows, workload, RefArm(pins))[i], ArmRows(rows, workload, pins.candidate)[i];
      && c in rows && r in rows && IsPair(pins, workload, c, r)
      && (CodeAt(pins, rows, workload, metric, i) == 1 <==>
          Past(pins, workload, metric, c) && !Excused(pins, rows, workload, metric, c, r))
      && (CodeAt(pins, rows, workload, metric, i) == 75 <==>
          Past(pins, workload, metric, c) && Excused(pins, rows, workload, metric, c, r))
  {
    var r, c := ArmRows(rows, workload, RefArm(pins))[i], ArmRows(rows, workload, pins.candidate)[i];
    PairAtPlace(pins, rows, workload, i);
    PairJudged(pins, rows, workload, metric, c, r);
  }

  lemma {:induction false} PairHasPlace(pins: Pins, rows: seq<Row>, workload: string, metric: string, c: Row, r: Row)
    requires Paired(pins, rows) && metric in pins.rules && RunByRun(pins, metric)
    requires MetricCodes(pins, rows, workload, metric).Ok?
    requires c in rows && r in rows && IsPair(pins, workload, c, r) && Past(pins, workload, metric, c)
    ensures (if Excused(pins, rows, workload, metric, c, r) then 75 else 1) in
            MetricCodes(pins, rows, workload, metric).value
  {
    CodesAreAtPlaces(pins, rows, workload, metric, if Excused(pins, rows, workload, metric, c, r) then 75 else 1);
    var i := PlaceOfPair(pins, rows, workload, c, r);
    PlaceJudged(pins, rows, workload, metric, i);
  }

  lemma {:induction false} CodeHasPair(pins: Pins, rows: seq<Row>, workload: string, metric: string, code: int)
    returns (c: Row, r: Row)
    requires Paired(pins, rows) && metric in pins.rules && RunByRun(pins, metric) && (code == 1 || code == 75)
    requires MetricCodes(pins, rows, workload, metric).Ok?
    requires code in MetricCodes(pins, rows, workload, metric).value
    ensures c in rows && r in rows && IsPair(pins, workload, c, r) && Past(pins, workload, metric, c)
    ensures code == if Excused(pins, rows, workload, metric, c, r) then 75 else 1
  {
    CodesAreAtPlaces(pins, rows, workload, metric, code);
    var i: nat :| i < |ArmRows(rows, workload, RefArm(pins))| && code == CodeAt(pins, rows, workload, metric, i);
    PlaceJudged(pins, rows, workload, metric, i);
    c, r := ArmRows(rows, workload, pins.candidate)[i], ArmRows(rows, workload, RefArm(pins))[i];
  }

  /** The codes of a metric judged run by run are those of its pairs. */
  lemma {:induction false} PairsJudged(pins: Pins, rows: seq<Row>, workload: string, metric: string)
    requires Paired(pins, rows) && metric in pins.rules && RunByRun(pins, metric)
    requires MetricCodes(pins, rows, workload, metric).Ok?
    ensures var codes := MetricCodes(pins, rows, workload, metric).value;
      (1 in codes <==> Blamed(pins, rows, workload, metric)) && (75 in codes <==> Doubted(pins, rows, workload, metric))
  {
    var codes := MetricCodes(pins, rows, workload, metric).value;
    forall c, r | c in rows && r in rows && IsPair(pins, workload, c, r) && Past(pins, workload, metric, c)
      ensures (if Excused(pins, rows, workload, metric, c, r) then 75 else 1) in codes
    {
      PairHasPlace(pins, rows, workload, metric, c, r);
    }
    if 1 in codes {
      var c, r := CodeHasPair(pins, rows, workload, metric, 1);
    }
    if 75 in codes {
      var c, r := CodeHasPair(pins, rows, workload, metric, 75);
    }
  }

  /** A judgeable metric gets a 1 exactly if it is blamed, and a 75 exactly if it is doubted. */
  lemma {:induction false} CodesAreBlame(pins: Pins, rows: seq<Row>, workload: string, metric: string)
    requires Paired(pins, rows) && metric in pins.rules && MetricCodes(pins, rows, workload, metric).Ok?
    ensures var codes := MetricCodes(pins, rows, workload, metric).value;
      (1 in codes <==> Blamed(pins, rows, workload, metric)) && (75 in codes <==> Doubted(pins, rows, workload, metric))
  {
    if RunByRun(pins, metric) {
      PairsJudged(pins, rows, workload, metric);
    } else {
      CleanIffMet(pins, rows, workload, metric);
    }
  }

  // ---- the exit code ----

  /** The rows are evidence, and every metric can be judged on every workload. */
  ghost predicate Evaluable(pins: Pins, rows: seq<Row>) {
    && (forall r :: r in rows ==> Sound(pins, r))
    && forall w, m :: w in WorkloadsOf(rows) && m in pins.rules ==> CanJudge(pins, rows, w, m)
  }

  ghost predicate SomeBlamed(pins: Pins, rows: seq<Row>) {
    exists w, m :: w in WorkloadsOf(rows) && m in pins.rules && Blamed(pins, rows, w, m)
  }

  ghost predicate SomeDoubted(pins: Pins, rows: seq<Row>) {
    exists w, m :: w in WorkloadsOf(rows) && m in pins.rules && Doubted(pins, rows, w, m)
  }

  predicate IsControl(gate: string) {
    gate == "Q3-G1" || gate == "Q3-G14"
  }

  /** The gate has a control, and nothing is held against the candidate, so that the control decides. */
  ghost predicate LeftToControl(pins: Pins, rows: seq<Row>, control: Result<int, Fault>) {
    && (pins.gate == "G1" || pins.gate == "G14") && control != Ok(0)
    && !SomeBlamed(pins, rows) && !SomeDoubted(pins, rows)
  }

  /** The runs went through: the GPU was not busy, none waits for it and none crashed. */
  predicate WentThrough(rows: seq<Row>) {
    forall r :: r in rows ==> !r.busy && r.validity != PendingGpuBusy && r.exit == 0
  }

  /** Every control run is valid and shows the fault it was given: some metric is past its limit. */
  predicate FaultShown(pins: Pins, rows: seq<Row>) {
    forall r :: r in rows ==>
      r.validity == Valid && exists m :: m in pins.rules && Num(MetricOf(r, m)) > pins.rules[m].limit
  }

  lemma {:induction false} JudgedOnRows(pins: Pins, rows: seq<Row>)
    requires Paired(pins, rows)
    ensures Evaluable(pins, rows) <==> (!exists r :: r in rows && !ValidRow(pins, r)) && Judgeable(pins, rows)
    ensures Judgeable(pins, rows) ==>
              (Given(pins, rows, 1) <==> SomeBlamed(pins, rows)) && (Given(pins, rows, 75) <==> SomeDoubted(pins, rows))
  {
    AllSound(pins, rows);
    forall w, m | w in WorkloadsOf(rows) && m in pins.rules
      ensures MetricCodes(pins, rows, w, m).Ok? <==> CanJudge(pins, rows, w, m)
      ensures MetricCodes(pins, rows, w, m).Ok? ==>
        && (1 in MetricCodes(pins, rows, w, m).value <==> Blamed(pins, rows, w, m))
        && (75 in MetricCodes(pins, rows, w, m).value <==> Doubted(pins, rows, w, m))
    {
      JudgedIffCanJudge(pins, rows, w, m);
      if MetricCodes(pins, rows, w, m).Ok? {
        CodesAreBlame(pins, rows, w, m);
      }
    }
  }

  /**
   Exit 101: some run crashed, on a GPU that was not busy; or the gate is left
   to a control that exits so.
   */
  lemma {:induction false} ExitsCrashed(pins: Pins, rows: seq<Row>, control: Result<int, Fault>)
    requires Paired(pins, rows)
    ensures Judge(pins, rows, control) == Ok(101) <==>
            && Evaluable(pins, rows) && (forall r :: r in rows ==> !r.busy && r.validity != PendingGpuBusy)
            && ((exists r :: r in rows && r.exit != 0)
                || (LeftToControl(pins, rows, control) && control == Ok(101)))
  {
    JudgedOnRows(pins, rows);
  }

  /**
   Exit 1: the runs went through, and some metric is blamed; or the gate is
   left to a control that exits so. A control exits 1 if some run is valid
   without showing the fault.
   */
  lemma {:induction false} ExitsFailed(pins: Pins, rows: seq<Row>, control: Result<int, Fault>)
    requires Paired(pins, rows)
    ensures Judge(pins, rows, control) == Ok(1) <==>
            && Evaluable(pins, rows) && WentThrough(rows)
            && (if IsControl(pins.gate) then (forall r :: r in rows ==> r.validity == Valid) && !FaultShown(pins, rows)
                else SomeBlamed(pins, rows) || (LeftToControl(pins, rows, control) && control == Ok(1)))
  {
    JudgedOnRows(pins, rows);
  }

  /**
   Exit 75: the GPU was busy; or the runs went through, nothing is blamed, and
   some metric is doubted, the gate only reports, or a run was limited by its
   environment; or the gate is left to a control that exits so.
   */
  lemma {:induction false} ExitsUndecided(pins: Pins, rows: seq<Row>, control: Result<int, Fault>)
    requires Paired(pins, rows)
    ensures Judge(pins, rows, control) == Ok(75) <==>
            && Evaluable(pins, rows)
            && (|| (exists r :: r in rows && r.busy)
                || (&& WentThrough(rows) && !IsControl(pins.gate)
                    && (if LeftToControl(pins, rows, control) then control == Ok(75)
                        else
                          && !SomeBlamed(pins, rows)
                          && (|| SomeDoubted(pins, rows) || pins.gate == "PERFORMANCE" || pins.gate == "R65-cumulative"
                              || exists r :: r in rows && r.validity == EnvironmentLimited))))
  {
    JudgedOnRows(pins, rows);
  }

  /** A control passes exactly if its runs went through and each is valid and shows the fault. */
  lemma {:induction false} ControlPasses(pins: Pins, rows: seq<Row>, control: Result<int, Fault>)
    requires Paired(pins, rows) && IsControl(pins.gate)
    ensures Judge(pins, rows, control) == Ok(0) <==>
            Evaluable(pins, rows) && WentThrough(rows) && FaultShown(pins, rows)
  {
    JudgedOnRows(pins, rows);
  }
}
