/**
 The verdict part of `evaluate`: from the rows of a complete, well-identified
 run to an exit code. Floats are reals; files, hashes, schemas and telemetry
 are taken as checked.
 */
module Verdict {
  import opened Wrappers
  import M = Median

  datatype Decision = Ratio | R65 | R50Abs | EachGe | EachLe | Delta | Equal | Zero | Invariant | Report

  datatype Unit = Count | Ms | Percent | Fps | Byte | Quotient | Boolean | Sha256

  datatype Rule = Rule(decision: Decision, unit: Unit, limit: real)

  datatype Value = Number(x: real) | Flag(b: bool) | Digest(h: string)

  datatype Validity = Valid | InvalidEvidence | PendingGpuBusy | EnvironmentLimited

  /** One run. `busy` is what its preflight samples say of the GPU. */
  datatype Row = Row(workload: string, pair: nat, arm: string, exit: int, validity: Validity, busy: bool,
                     metrics: map<string, Value>)

  datatype Pins = Pins(gate: string, candidate: string, reference: Option<string>, rules: map<string, Rule>)

  /** Why `evaluate` raises. */
  datatype Fault = BadMetric | BadAttempt | ZeroDenominator | NoValues | UnsubstantiatedBusy | BadControl

  const CONTROLS: set<string> := {"Q3-G1", "Q3-G14"}
  const CONTROLLED: set<string> := {"G1", "G14"}
  const HARD: set<string> := {"G3", "VM-D6"}
  const REPORT_ONLY: set<string> := {"PERFORMANCE", "R65-cumulative"}

  // ---- values of one metric ----

  function Num(v: Value): real {
    if v.Number? then v.x else 0.0
  }

  function Nums(vs: seq<Value>): (r: seq<real>)
    ensures |r| == |vs| && forall i :: 0 <= i < |vs| ==> r[i] == Num(vs[i])
  {
    seq(|vs|, i requires 0 <= i < |vs| => Num(vs[i]))
  }

  /** A row goes before the first one with a later pair. */
  function InsertByPair(row: Row, rows: seq<Row>): seq<Row> {
    if rows == [] || row.pair <= rows[0].pair then [row] + rows else [rows[0]] + InsertByPair(row, rows[1..])
  }

  /** The rows of one arm on one workload, by pair. */
  function ArmRows(rows: seq<Row>, workload: string, arm: string): seq<Row> {
    if rows == [] then []
    else if rows[0].workload == workload
        && rows[0].arm == arm then InsertByPair(rows[0], ArmRows(rows[1..], workload, arm))
    else ArmRows(rows[1..], workload, arm)
  }

  function MetricOf(row: Row, metric: string): Value {
    if metric in row.metrics then row.metrics[metric] else Number(0.0)
  }

  function ValuesOf(rows: seq<Row>, metric: string): (r: seq<Value>)
    ensures |r| == |rows|
  {
    seq(|rows|, i requires 0 <= i < |rows| => MetricOf(rows[i], metric))
  }

  function MaxOf(s: seq<real>): real
    requires s != []
  {
    if |s| == 1 then s[0]
    else
      var m := MaxOf(s[1..]);
      if s[0] > m then s[0] else m
  }

  function MinOf(s: seq<real>): real
    requires s != []
  {
    if |s| == 1 then s[0]
    else
      var m := MinOf(s[1..]);
      if s[0] < m then s[0] else m
  }

  function Total(s: seq<real>): real {
    if s == [] then 0.0 else s[0] + Total(s[1..])
  }

  function Mean(s: seq<real>): real
    requires s != []
  {
    Total(s) / (|s| as real)
  }

  function Abs(x: real): real {
    if x < 0.0 then -x else x
  }

  // ---- decisions ----

  predicate AllPositive(a: seq<real>) {
    forall i :: 0 <= i < |a| ==> a[i] > 0.0
  }

  /** Candidate over reference, pair by pair. */
  function Ratios(a: seq<real>, b: seq<real>): (r: seq<real>)
    requires AllPositive(a) && |a| == |b|
    ensures |r| == |a| && forall i :: 0 <= i < |a| ==> r[i] == b[i] / a[i]
  {
    seq(|a|, i requires 0 <= i < |a| => b[i] / a[i])
  }

  predicate WithinRatio(a: seq<real>, b: seq<real>, limit: real)
    requires AllPositive(a) && |a| == |b| > 0
  {
    M.Median(Ratios(a, b)) <= limit
  }

  predicate WithinDelta(a: seq<real>, b: seq<real>, limit: real)
    requires |a| == |b|
  {
    forall i :: 0 <= i < |a| ==> b[i] <= a[i] + limit
  }

  predicate Fails(decision: Decision, limit: real, x: real) {
    if decision.EachGe? then x < limit else x > limit
  }

  /** How much worse than its reference the candidate is. */
  function Excess(decision: Decision, x: real, y: real): real {
    if decision.EachGe? then x - y else y - x
  }

  /** The three-way rule of R50: 0 within the limit; 75 if the reference misses it too and by about as much; else 1. */
  function PairCode(decision: Decision, limit: real, hard: bool, spread: real, x: real, y: real): int {
    if !Fails(decision, limit, y) then 0
    else if hard || !Fails(decision, limit, x) || Excess(decision, x, y) > spread then 1
    else 75
  }

  /** G4 has its own limits. */
  function LimitFor(gate: string, workload: string, limit: real): real {
    if gate == "G4" then (if workload in {"typical_1080p", "explainer_16x9"} then 24.0 else 15.0) else limit
  }

  function Judged(passed: bool): Result<set<int>, Fault> {
    Ok(if passed then {0} else {1})
  }

  function RatioCodes(a: seq<real>, b: seq<real>, low: real, high: real): Result<set<int>, Fault>
    requires |a| == |b| > 0
  {
    if !AllPositive(a) then Err(ZeroDenominator)
    else
      var ratio := M.Median(Ratios(a, b));
      Judged(low <= ratio <= high)
  }

  function CounterCodes(a: seq<real>, b: seq<real>): Result<set<int>, Fault>
    requires |a| == |b| > 0
  {
    if M.Median(a) >= 20.0 then RatioCodes(a, b, 0.95, 1.05)
    else
      var slack := 0.25 * Mean(a);
      Judged(&& Abs(Mean(b) - Mean(a)) <= (if slack > 1.0 then slack else 1.0)
             && (if MinOf(a) > MinOf(b) then MinOf(a) else MinOf(b)) <= (if MaxOf(a) < MaxOf(b) then MaxOf(a)
                 else MaxOf(b)))
  }

  function EachCodes(decision: Decision, limit: real, hard: bool, a: seq<real>, b: seq<real>): set<int>
    requires |a| == |b| > 0
  {
    set i | 0 <= i < |a| :: PairCode(decision, limit, hard, MaxOf(a) - MinOf(a), a[i], b[i])
  }

  /** The verdicts of one metric on one workload: reference `a`, candidate `b`, and the metric on `all` rows. */
  function CodesFor(gate: string, workload: string, rule: Rule, a: seq<Value>, b: seq<Value>,
                    all: seq<Value>): Result<set<int>, Fault> {
    if |a| != |b| || |a| == 0 then Err(NoValues)
    else
      var x, y, limit := Nums(a), Nums(b), LimitFor(gate, workload, rule.limit);
      match rule.decision
      case Ratio => (if !AllPositive(x) then Err(ZeroDenominator) else Judged(WithinRatio(x, y, rule.limit)))
      case R65 => CounterCodes(x, y)
      case R50Abs => Ok(EachCodes(R50Abs, limit, gate in HARD, x, y))
      case EachGe => Ok(EachCodes(EachGe, limit, gate in HARD, x, y))
      case EachLe => Judged(MaxOf(y) <= rule.limit)
      case Delta => Judged(WithinDelta(x, y, rule.limit))
      case Equal => Judged(a == b)
      case Zero => Judged(forall i :: 0 <= i < |all| ==> all[i] == Number(0.0))
      case Invariant => Judged(forall i :: 0 <= i < |a| ==> a[i] == Flag(true) && b[i] == Flag(true))
      case Report => Ok({})
  }

  function MetricCodes(pins: Pins, rows: seq<Row>, workload: string, metric: string): Result<set<int>, Fault>
    requires metric in pins.rules
  {
    var b := ArmRows(rows, workload, pins.candidate);
    var a := if pins.reference.Some? then ArmRows(rows, workload, pins.reference.value) else b;
    CodesFor(pins.gate, workload, pins.rules[metric], ValuesOf(a, metric), ValuesOf(b, metric), ValuesOf(rows, metric))
  }

  // ---- the exit code ----

  function WorkloadsOf(rows: seq<Row>): set<string> {
    set r | r in rows :: r.workload
  }

  /** Every metric of every workload can be judged. */
  predicate Judgeable(pins: Pins, rows: seq<Row>) {
    forall w, m :: w in WorkloadsOf(rows) && m in pins.rules ==> MetricCodes(pins, rows, w, m).Ok?
  }

  /** Some metric on some workload got this verdict. */
  predicate Given(pins: Pins, rows: seq<Row>, code: int) {
    exists w, m :: w in WorkloadsOf(rows) && m in pins.rules && MetricCodes(pins, rows, w, m).Ok?
        && code in MetricCodes(pins, rows, w, m).value
  }

  predicate ValidValue(rule: Rule, value: Value) {
    match rule.unit
    case Boolean => value.Flag?
    case Sha256 => value.Digest?
    case Percent => value.Number? && 0.0 <= value.x <= 100.0
    case _ => value.Number? && 0.0 <= value.x
  }

  predicate ValidRow(pins: Pins, row: Row) {
    && !row.validity.InvalidEvidence?
    && row.metrics.Keys == pins.rules.Keys
    && forall m :: m in row.metrics ==> ValidValue(pins.rules[m], row.metrics[m])
  }

  /** A control row shows the fault it was given: some metric is past its limit. */
  predicate ShowsFault(pins: Pins, row: Row) {
    exists m :: m in pins.rules && Num(MetricOf(row, m)) > pins.rules[m].limit
  }

  predicate AnyBusy(rows: seq<Row>) {
    exists r :: r in rows && r.busy
  }

  predicate AnyRow(rows: seq<Row>, validity: Validity) {
    exists r :: r in rows && r.validity == validity
  }

  predicate AnyCrash(rows: seq<Row>) {
    exists r :: r in rows && r.exit != 0
  }

  /** The exit code of the verdicts alone. */
  function Ruling(pins: Pins, rows: seq<Row>, one: bool, pending: bool): int {
    if one then 1
    else if pending || pins.gate in REPORT_ONLY || AnyRow(rows, EnvironmentLimited) then 75
    else 0
  }

  /** What follows the verdicts: `one` and `pending` say whether a 1 and a 75 are among them. */
  function Settle(pins: Pins, rows: seq<Row>, one: bool, pending: bool, control: Result<int, Fault>): Result<int,
      Fault> {
    if AnyBusy(rows) then Ok(75)
    else if AnyRow(rows, PendingGpuBusy) then Err(UnsubstantiatedBusy)
    else if AnyCrash(rows) then Ok(101)
    else if pins.gate in CONTROLS then
      if exists r :: r in rows && !r.validity.Valid? then Err(BadAttempt)
      else Ok(if forall r :: r in rows ==> ShowsFault(pins, r) then 0 else 1)
    else if pins.gate in CONTROLLED && !one && !pending && control != Ok(0) then control
    else Ok(Ruling(pins, rows, one, pending))
  }

  /** The exit code, or that the evidence is invalid. G1 and G14 use `control`, the evaluation of the bound control. */
  function Judge(pins: Pins, rows: seq<Row>, control: Result<int, Fault>): Result<int, Fault> {
    if exists r :: r in rows && !ValidRow(pins, r) then Err(BadMetric)
    else if !Judgeable(pins, rows) then Err(NoValues)
    else Settle(pins, rows, Given(pins, rows, 1), Given(pins, rows, 75), control)
  }

  // ---- as the loops run ----

  /** The metric pairs judged so far, and what they gave. */
  ghost predicate Gathered(pins: Pins, rows: seq<Row>, done: set<(string, string)>, verdicts: set<int>) {
    && (forall p :: p in done ==> p.1 in pins.rules && MetricCodes(pins, rows, p.0, p.1).Ok?)
    && (forall c :: c in verdicts <==>
          exists p :: p in done && p.1 in pins.rules && c in MetricCodes(pins, rows, p.0, p.1).value)
  }

  lemma {:induction false} GatheredMore(pins: Pins, rows: seq<Row>, done: set<(string, string)>,
                                        verdicts: set<int>, w: string, m: string)
    requires Gathered(pins, rows, done, verdicts) && m in pins.rules && MetricCodes(pins, rows, w, m).Ok?
    ensures Gathered(pins, rows, done + {(w, m)}, verdicts + MetricCodes(pins, rows, w, m).value)
  {
    var codes := MetricCodes(pins, rows, w, m).value;
    forall c ensures c in verdicts + codes <==>
                     exists p :: p in done + {(w, m)} && p.1 in pins.rules
                         && c in MetricCodes(pins, rows, p.0, p.1).value {
      if c in codes {
        assert (w, m) in done + {(w, m)};
      }
      if c in verdicts {
        var p :| p in done && p.1 in pins.rules && c in MetricCodes(pins, rows, p.0, p.1).value;
        assert p in done + {(w, m)};
      }
    }
  }

  lemma {:induction false} GatheredAll(pins: Pins, rows: seq<Row>, done: set<(string, string)>, verdicts: set<int>)
    requires Gathered(pins, rows, done, verdicts)
    requires forall w, m :: (w, m) in done <==> w in WorkloadsOf(rows) && m in pins.rules
    ensures Judgeable(pins, rows) && forall c :: c in verdicts <==> Given(pins, rows, c)
  {
    forall w, m | w in WorkloadsOf(rows) && m in pins.rules ensures MetricCodes(pins, rows, w, m).Ok? {
      assert (w, m) in done;
    }
    forall c ensures c in verdicts <==> Given(pins, rows, c) {
      if c in verdicts {
        var p :| p in done && p.1 in pins.rules && c in MetricCodes(pins, rows, p.0, p.1).value;
        assert (p.0, p.1) in done;
      }
      if Given(pins, rows, c) {
        var w, m :| w in WorkloadsOf(rows) && m in pins.rules && MetricCodes(pins, rows, w, m).Ok?
            && c in MetricCodes(pins, rows, w, m).value;
        assert (w, m) in done;
      }
    }
  }

  /** All verdicts, workload by workload and metric by metric; nothing if one cannot be judged. */
  method GatherVerdicts(pins: Pins, rows: seq<Row>) returns (verdicts: Option<set<int>>)
    ensures verdicts.Some? <==> Judgeable(pins, rows)
    ensures verdicts.Some? ==> forall c :: c in verdicts.value <==> Given(pins, rows, c)
  {
    var seen: set<int> := {};
    ghost var done: set<(string, string)> := {};
    var ws := WorkloadsOf(rows);
    while ws != {}
      invariant ws <= WorkloadsOf(rows) && Gathered(pins, rows, done, seen)
      invariant forall w, m :: (w, m) in done <==> w in WorkloadsOf(rows) - ws && m in pins.rules
      decreases |ws|
    {
      var w :| w in ws;
      var ms := pins.rules.Keys;
      while ms != {}
        invariant ms <= pins.rules.Keys && w in ws && Gathered(pins, rows, done, seen)
        invariant forall v, m :: (v, m) in done <==>
                    m in pins.rules && (v in WorkloadsOf(rows) - ws || (v == w && m !in ms))
        decreases |ms|
      {
        var m :| m in ms;
        var codes := MetricCodes(pins, rows, w, m);
        if codes.Err? {
          return None;
        }
        GatheredMore(pins, rows, done, seen, w, m);
        seen, done, ms := seen + codes.value, done + {(w, m)}, ms - {m};
      }
      ws := ws - {w};
    }
    GatheredAll(pins, rows, done, seen);
    return Some(seen);
  }

  /** The verdict part of `evaluate`. */
  method Evaluate(pins: Pins, rows: seq<Row>, control: Result<int, Fault>) returns (code: Result<int, Fault>)
    ensures code == Judge(pins, rows, control)
  {
    var busy := false;
    for k := 0 to |rows|
      invariant forall i :: 0 <= i < k ==> ValidRow(pins, rows[i])
      invariant busy <==> exists i :: 0 <= i < k && rows[i].busy
    {
      if !ValidRow(pins, rows[k]) {
        assert rows[k] in rows;
        return Err(BadMetric);
      }
      busy := busy || rows[k].busy;
    }
    assert forall r :: r in rows ==> ValidRow(pins, r);
    var verdicts := GatherVerdicts(pins, rows);
    if verdicts.None? {
      return Err(NoValues);
    }
    if busy {
      assert AnyBusy(rows);
      return Ok(75);
    }
    assert !AnyBusy(rows);
    return Settle(pins, rows, 1 in verdicts.value, 75 in verdicts.value, control);
  }
}
