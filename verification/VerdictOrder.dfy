/**
 A worse candidate never passes: what replacing candidate values by worse
 ones can do to the verdicts and to the exit code.
 */
module VerdictOrder {
  import opened Wrappers
  import opened Verdict
  import M = Median

  // ---- worse rows ----

  /** `v'` is no better than `v` under the rule; under a rule without a direction it is the same. */
  predicate Worse(rule: Rule, v: Value, v': Value) {
    || v == v'
    || (v.Number? && v'.Number? &&
        match rule.decision
        case Ratio | R50Abs | EachLe | Delta | Zero => v.x <= v'.x
        case EachGe => v'.x <= v.x
        case _ => false)
  }

  /** The same run with a worse candidate; rows of other arms keep their values. */
  predicate WorseRow(pins: Pins, r: Row, r': Row) {
    && r' == r.(metrics := r'.metrics)
    && r'.metrics.Keys == r.metrics.Keys
    && forall m :: m in r.metrics && m in pins.rules ==>
         if r.arm == pins.candidate then Worse(pins.rules[m], r.metrics[m], r'.metrics[m])
             else r'.metrics[m] == r.metrics[m]
  }

  predicate WorseRows(pins: Pins, rows: seq<Row>, rows': seq<Row>) {
    |rows| == |rows'| && forall i :: 0 <= i < |rows| ==> WorseRow(pins, rows[i], rows'[i])
  }

  /** The arms are compared: without a reference only rules that compare no arms are used. */
  predicate Compared(pins: Pins) {
    match pins.reference
    case Some(reference) => reference != pins.candidate
    case None => forall m :: m in pins.rules ==> pins.rules[m].decision in {Equal, Zero, Invariant, Report}
  }

  predicate WorseValues(rule: Rule, vs: seq<Value>, vs': seq<Value>) {
    |vs| == |vs'| && forall i :: 0 <= i < |vs| ==> Worse(rule, vs[i], vs'[i])
  }

  // ---- grouping keeps the comparison ----

  lemma {:induction false} InsertWorse(pins: Pins, row: Row, row': Row, rows: seq<Row>, rows': seq<Row>)
    requires WorseRow(pins, row, row') && WorseRows(pins, rows, rows')
    ensures WorseRows(pins, InsertByPair(row, rows), InsertByPair(row', rows'))
    decreases |rows|
  {
    if rows != [] && row.pair > rows[0].pair {
      InsertWorse(pins, row, row', rows[1..], rows'[1..]);
    }
  }

  lemma {:induction false} ArmWorse(pins: Pins, rows: seq<Row>, rows': seq<Row>, workload: string, arm: string)
    requires WorseRows(pins, rows, rows')
    ensures WorseRows(pins, ArmRows(rows, workload, arm), ArmRows(rows', workload, arm))
    decreases |rows|
  {
    if rows != [] {
      ArmWorse(pins, rows[1..], rows'[1..], workload, arm);
      if rows[0].workload == workload && rows[0].arm == arm {
        InsertWorse(pins, rows[0], rows'[0], ArmRows(rows[1..], workload, arm), ArmRows(rows'[1..], workload, arm));
      }
    }
  }

  lemma {:induction false} InsertArm(row: Row, rows: seq<Row>, arm: string)
    requires row.arm == arm && forall i :: 0 <= i < |rows| ==> rows[i].arm == arm
    ensures forall i :: 0 <= i < |InsertByPair(row, rows)| ==> InsertByPair(row, rows)[i].arm == arm
    decreases |rows|
  {
    if rows != [] && row.pair > rows[0].pair {
      InsertArm(row, rows[1..], arm);
    }
  }

  lemma {:induction false} ArmOnly(rows: seq<Row>, workload: string, arm: string)
    ensures forall i :: 0 <= i < |ArmRows(rows, workload, arm)| ==> ArmRows(rows, workload, arm)[i].arm == arm
    decreases |rows|
  {
    if rows != [] {
      ArmOnly(rows[1..], workload, arm);
      if rows[0].workload == workload && rows[0].arm == arm {
        InsertArm(rows[0], ArmRows(rows[1..], workload, arm), arm);
      }
    }
  }

  lemma {:induction false} ValuesWorse(pins: Pins, rows: seq<Row>, rows': seq<Row>, metric: string)
    requires WorseRows(pins, rows, rows') && metric in pins.rules
    ensures WorseValues(pins.rules[metric], ValuesOf(rows, metric), ValuesOf(rows', metric))
    ensures (forall i :: 0 <= i < |rows| ==> rows[i].arm != pins.candidate) ==>
      ValuesOf(rows', metric) == ValuesOf(rows, metric)
  {
    forall i | 0 <= i < |rows|
        ensures Worse(pins.rules[metric], MetricOf(rows[i], metric), MetricOf(rows'[i], metric)) {
      assert WorseRow(pins, rows[i], rows'[i]);
    }
  }

  // ---- one rule at a time ----

  /** 0 is better than 75, 75 better than 1. */
  function Badness(code: int): int {
    if code == 0 then 0 else if code == 75 then 1 else 2
  }

  /** Whatever was among the verdicts is still there, or something worse is. */
  predicate NoBetter(codes: set<int>, codes': set<int>) {
    (1 in codes ==> 1 in codes') && (75 in codes ==> 75 in codes' || 1 in codes')
  }

  /** The three-way rule is monotone in the candidate. */
  lemma {:induction false} PairWorsens(decision: Decision, limit: real, hard: bool, spread: real, x: real,
                                       y: real, y': real)
    requires if decision.EachGe? then y' <= y else y <= y'
    ensures Badness(PairCode(decision, limit, hard, spread, x, y)) <= Badness(PairCode(decision, limit, hard, spread,
        x, y'))
  {
  }

  lemma {:induction false} EachWorsens(decision: Decision, limit: real, hard: bool, a: seq<real>, b: seq<real>,
                                       b': seq<real>)
    requires |a| == |b| == |b'| > 0
    requires forall i :: 0 <= i < |b| ==> if decision.EachGe? then b'[i] <= b[i] else b[i] <= b'[i]
    ensures NoBetter(EachCodes(decision, limit, hard, a, b), EachCodes(decision, limit, hard, a, b'))
  {
    var spread := MaxOf(a) - MinOf(a);
    forall c | c in EachCodes(decision, limit, hard, a, b) && c != 0
        ensures NoBetter({c}, EachCodes(decision, limit, hard, a, b')) {
      var i :| 0 <= i < |a| && c == PairCode(decision, limit, hard, spread, a[i], b[i]);
      PairWorsens(decision, limit, hard, spread, a[i], b[i], b'[i]);
      assert PairCode(decision, limit, hard, spread, a[i], b'[i]) in EachCodes(decision, limit, hard, a, b');
    }
  }

  lemma {:induction false} QuotientGrows(x: real, y: real, y': real)
    requires x > 0.0 && y <= y'
    ensures y / x <= y' / x
  {
  }

  lemma {:induction false} RatioWorsens(a: seq<real>, b: seq<real>, b': seq<real>, limit: real)
    requires AllPositive(a) && |a| == |b| > 0 && M.Pointwise(b, b')
    ensures WithinRatio(a, b', limit) ==> WithinRatio(a, b, limit)
  {
    forall i | 0 <= i < |a| ensures Ratios(a, b)[i] <= Ratios(a, b')[i] {
      QuotientGrows(a[i], b[i], b'[i]);
    }
    M.MedianGrows(Ratios(a, b), Ratios(a, b'));
  }

  lemma {:induction false} MaxGrows(s: seq<real>, t: seq<real>)
    requires M.Pointwise(s, t) && s != []
    ensures MaxOf(s) <= MaxOf(t)
    decreases |s|
  {
    if |s| > 1 {
      MaxGrows(s[1..], t[1..]);
    }
  }

  lemma {:induction false} NumsWorse(rule: Rule, vs: seq<Value>, vs': seq<Value>)
    requires WorseValues(rule, vs, vs')
    ensures rule.decision in {Ratio, R50Abs, EachLe, Delta} ==> M.Pointwise(Nums(vs), Nums(vs'))
    ensures rule.decision.EachGe? ==> M.Pointwise(Nums(vs'), Nums(vs))
    ensures rule.decision in {R65, Equal, Invariant, Report} ==> vs == vs'
  {
    forall i | 0 <= i < |vs|
      ensures rule.decision in {Ratio, R50Abs, EachLe, Delta} ==> Num(vs[i]) <= Num(vs'[i])
      ensures rule.decision.EachGe? ==> Num(vs'[i]) <= Num(vs[i])
      ensures rule.decision in {R65, Equal, Invariant, Report} ==> vs[i] == vs'[i]
    {
      assert Worse(rule, vs[i], vs'[i]);
    }
  }

  /** All values are zero and valid, so a worse list of zeros was all zero. */
  lemma {:induction false} ZerosWere(rule: Rule, all: seq<Value>, all': seq<Value>)
    requires rule.decision.Zero? && WorseValues(rule, all, all')
    requires forall i :: 0 <= i < |all| ==> ValidValue(rule, all[i])
    requires forall i :: 0 <= i < |all'| ==> all'[i] == Number(0.0)
    ensures forall i :: 0 <= i < |all| ==> all[i] == Number(0.0)
  {
    forall i | 0 <= i < |all| ensures all[i] == Number(0.0) {
      assert Worse(rule, all[i], all'[i]) && ValidValue(rule, all[i]);
    }
  }

  predicate StillNoBetter(c: Result<set<int>, Fault>, c': Result<set<int>, Fault>) {
    (c.Ok? <==> c'.Ok?) && (c.Ok? ==> NoBetter(c.value, c'.value))
  }

  lemma {:induction false} RatioCodesWorsen(rule: Rule, gate: string, workload: string, a: seq<Value>,
                                            b: seq<Value>, b': seq<Value>, all: seq<Value>, all': seq<Value>)
    requires rule.decision.Ratio? && M.Pointwise(Nums(b), Nums(b')) && |a| == |b| > 0
    ensures StillNoBetter(CodesFor(gate, workload, rule, a, b, all), CodesFor(gate, workload, rule, a, b', all'))
  {
    var x, y, y' := Nums(a), Nums(b), Nums(b');
    if AllPositive(x) {
      RatioWorsens(x, y, y', rule.limit);
    }
  }

  lemma {:induction false} EachCodesWorsen(rule: Rule, gate: string, workload: string, a: seq<Value>,
                                           b: seq<Value>, b': seq<Value>, all: seq<Value>, all': seq<Value>)
    requires rule.decision.R50Abs? || rule.decision.EachGe?
    requires |a| == |b| == |b'| > 0
    requires if rule.decision.EachGe? then M.Pointwise(Nums(b'), Nums(b)) else M.Pointwise(Nums(b), Nums(b'))
    ensures StillNoBetter(CodesFor(gate, workload, rule, a, b, all), CodesFor(gate, workload, rule, a, b', all'))
  {
    EachWorsens(rule.decision, LimitFor(gate, workload, rule.limit), gate in HARD, Nums(a), Nums(b), Nums(b'));
  }

  lemma {:induction false} DeltaWorsens(a: seq<real>, b: seq<real>, b': seq<real>, limit: real)
    requires M.Pointwise(b, b') && |a| == |b|
    ensures WithinDelta(a, b', limit) ==> WithinDelta(a, b, limit)
  {
  }

  lemma {:induction false} DeltaCodesWorsen(rule: Rule, gate: string, workload: string, a: seq<Value>,
                                            b: seq<Value>, b': seq<Value>, all: seq<Value>, all': seq<Value>)
    requires rule.decision.Delta? && M.Pointwise(Nums(b), Nums(b')) && |a| == |b| > 0
    ensures StillNoBetter(CodesFor(gate, workload, rule, a, b, all), CodesFor(gate, workload, rule, a, b', all'))
  {
    DeltaWorsens(Nums(a), Nums(b), Nums(b'), rule.limit);
  }

  lemma {:induction false} MaxCodesWorsen(rule: Rule, gate: string, workload: string, a: seq<Value>,
                                          b: seq<Value>, b': seq<Value>, all: seq<Value>, all': seq<Value>)
    requires rule.decision.EachLe? && M.Pointwise(Nums(b), Nums(b')) && |a| == |b| > 0
    ensures StillNoBetter(CodesFor(gate, workload, rule, a, b, all), CodesFor(gate, workload, rule, a, b', all'))
  {
    MaxGrows(Nums(b), Nums(b'));
  }

  /** Worse candidate values leave a metric as judgeable as before, with verdicts no better. */
  lemma {:induction false} CodesWorsen(rule: Rule, gate: string, workload: string, a: seq<Value>, b: seq<Value>,
                                       b': seq<Value>, all: seq<Value>, all': seq<Value>)
    requires WorseValues(rule, b, b') && WorseValues(rule, all, all')
    requires forall i :: 0 <= i < |all| ==> ValidValue(rule, all[i])
    ensures StillNoBetter(CodesFor(gate, workload, rule, a, b, all), CodesFor(gate, workload, rule, a, b', all'))
  {
    NumsWorse(rule, b, b');
    if |a| == |b| && |a| > 0 {
      match rule.decision
      case Ratio => RatioCodesWorsen(rule, gate, workload, a, b, b', all, all');
      case R50Abs => EachCodesWorsen(rule, gate, workload, a, b, b', all, all');
      case EachGe => EachCodesWorsen(rule, gate, workload, a, b, b', all, all');
      case EachLe => MaxCodesWorsen(rule, gate, workload, a, b, b', all, all');
      case Delta => DeltaCodesWorsen(rule, gate, workload, a, b, b', all, all');
      case Zero => ZeroWorsens(rule, all, all');
      case _ =>
    }
  }

  lemma {:induction false} ZeroWorsens(rule: Rule, all: seq<Value>, all': seq<Value>)
    requires rule.decision.Zero? && WorseValues(rule, all, all')
    requires forall i :: 0 <= i < |all| ==> ValidValue(rule, all[i])
    ensures NoBetter(Judged(forall i :: 0 <= i < |all| ==> all[i] == Number(0.0)).value,
                     Judged(forall i :: 0 <= i < |all'| ==> all'[i] == Number(0.0)).value)
  {
    if forall i :: 0 <= i < |all'| ==> all'[i] == Number(0.0) {
      ZerosWere(rule, all, all');
    }
  }

  // ---- all metrics ----

  predicate AllValid(pins: Pins, rows: seq<Row>) {
    forall i :: 0 <= i < |rows| ==> ValidRow(pins, rows[i])
  }

  lemma {:induction false} ReferenceKept(pins: Pins, rows: seq<Row>, rows': seq<Row>, workload: string, metric: string)
    requires WorseRows(pins, rows, rows') && metric in pins.rules && pins.reference.Some?
      && pins.reference.value != pins.candidate
    ensures var reference := pins.reference.value;
      ValuesOf(ArmRows(rows', workload, reference), metric) == ValuesOf(ArmRows(rows, workload, reference), metric)
  {
    var reference := pins.reference.value;
    ArmWorse(pins, rows, rows', workload, reference);
    ArmOnly(rows, workload, reference);
    ValuesWorse(pins, ArmRows(rows, workload, reference), ArmRows(rows', workload, reference), metric);
  }

  lemma {:induction false} MetricWorsens(pins: Pins, rows: seq<Row>, rows': seq<Row>, workload: string, metric: string)
    requires WorseRows(pins, rows, rows') && Compared(pins) && AllValid(pins, rows) && metric in pins.rules
    ensures StillNoBetter(MetricCodes(pins, rows, workload, metric), MetricCodes(pins, rows', workload, metric))
  {
    var rule := pins.rules[metric];
    var b, b' := ArmRows(rows, workload, pins.candidate), ArmRows(rows', workload, pins.candidate);
    ArmWorse(pins, rows, rows', workload, pins.candidate);
    ValuesWorse(pins, b, b', metric);
    ValuesWorse(pins, rows, rows', metric);
    forall i | 0 <= i < |rows| ensures ValidValue(rule, ValuesOf(rows, metric)[i]) {
      assert ValidRow(pins, rows[i]);
    }
    if pins.reference.Some? {
      ReferenceKept(pins, rows, rows', workload, metric);
      var a := ValuesOf(ArmRows(rows, workload, pins.reference.value), metric);
      CodesWorsen(rule, pins.gate, workload, a, ValuesOf(b, metric), ValuesOf(b', metric), ValuesOf(rows, metric),
                  ValuesOf(rows', metric));
    } else {
      SingleWorsens(rule, pins.gate, workload, ValuesOf(b, metric), ValuesOf(b', metric), ValuesOf(rows, metric),
                    ValuesOf(rows', metric));
    }
  }

  /** A gate without a reference arm compares the candidate with itself. */
  lemma {:induction false} SingleWorsens(rule: Rule, gate: string, workload: string, b: seq<Value>,
                                         b': seq<Value>, all: seq<Value>, all': seq<Value>)
    requires WorseValues(rule, b, b') && WorseValues(rule, all, all')
      && rule.decision in {Equal, Zero, Invariant, Report}
    requires forall i :: 0 <= i < |all| ==> ValidValue(rule, all[i])
    ensures StillNoBetter(CodesFor(gate, workload, rule, b, b, all), CodesFor(gate, workload, rule, b', b', all'))
  {
    NumsWorse(rule, b, b');
    if rule.decision.Zero? {
      ZeroWorsens(rule, all, all');
    }
  }

  lemma {:induction false} WorkloadsKept(pins: Pins, rows: seq<Row>, rows': seq<Row>)
    requires WorseRows(pins, rows, rows')
    ensures WorkloadsOf(rows) == WorkloadsOf(rows')
  {
    forall w ensures w in WorkloadsOf(rows) <==> w in WorkloadsOf(rows') {
      if w in WorkloadsOf(rows) {
        var i :| 0 <= i < |rows| && rows[i].workload == w;
        assert WorseRow(pins, rows[i], rows'[i]) && rows'[i] in rows';
      }
      if w in WorkloadsOf(rows') {
        var i :| 0 <= i < |rows'| && rows'[i].workload == w;
        assert WorseRow(pins, rows[i], rows'[i]) && rows[i] in rows;
      }
    }
  }

  /** The verdicts as a whole are no better, and judgeable as before. */
  lemma {:induction false} VerdictsWorsen(pins: Pins, rows: seq<Row>, rows': seq<Row>)
    requires WorseRows(pins, rows, rows') && Compared(pins) && AllValid(pins, rows)
    ensures Judgeable(pins, rows) <==> Judgeable(pins, rows')
    ensures Given(pins, rows, 1) ==> Given(pins, rows', 1)
    ensures Given(pins, rows, 75) ==> Given(pins, rows', 75) || Given(pins, rows', 1)
  {
    WorkloadsKept(pins, rows, rows');
    forall w, m | m in pins.rules ensures StillNoBetter(MetricCodes(pins, rows, w, m), MetricCodes(pins, rows', w, m)) {
      MetricWorsens(pins, rows, rows', w, m);
    }
    GivenWorsens(pins, rows, rows', 1);
    GivenWorsens(pins, rows, rows', 75);
  }

  lemma {:induction false} GivenWorsens(pins: Pins, rows: seq<Row>, rows': seq<Row>, code: int)
    requires WorkloadsOf(rows) == WorkloadsOf(rows') && (code == 1 || code == 75)
    requires forall w, m :: m in pins.rules ==>
      StillNoBetter(MetricCodes(pins, rows, w, m), MetricCodes(pins, rows', w, m))
    ensures Given(pins, rows, code) ==> Given(pins, rows', code) || Given(pins, rows', 1)
  {
    if Given(pins, rows, code) {
      var w, m :| w in WorkloadsOf(rows) && m in pins.rules && MetricCodes(pins, rows, w, m).Ok?
          && code in MetricCodes(pins, rows, w, m).value;
      assert StillNoBetter(MetricCodes(pins, rows, w, m), MetricCodes(pins, rows', w, m));
    }
  }

  // ---- the exit code ----

  /** Apart from the verdicts, both runs settle alike. */
  lemma {:induction false} SettledAlike(pins: Pins, rows: seq<Row>, rows': seq<Row>, one: bool, pending: bool,
                                        control: Result<int, Fault>)
    requires WorseRows(pins, rows, rows') && pins.gate !in CONTROLS
    ensures Settle(pins, rows, one, pending, control) == Settle(pins, rows', one, pending, control)
  {
    forall i | 0 <= i < |rows|
      ensures rows[i].busy == rows'[i].busy && rows[i].validity == rows'[i].validity && rows[i].exit == rows'[i].exit
    {
      assert WorseRow(pins, rows[i], rows'[i]);
    }
    assert AnyBusy(rows) == AnyBusy(rows') by {
      AnyAlike(rows, rows', (r: Row) => r.busy);
    }
    assert AnyRow(rows, PendingGpuBusy) == AnyRow(rows', PendingGpuBusy) by {
      AnyAlike(rows, rows', (r: Row) => r.validity == PendingGpuBusy);
    }
    assert AnyRow(rows, EnvironmentLimited) == AnyRow(rows', EnvironmentLimited) by {
      AnyAlike(rows, rows', (r: Row) => r.validity == EnvironmentLimited);
    }
    assert AnyCrash(rows) == AnyCrash(rows') by {
      AnyAlike(rows, rows', (r: Row) => r.exit != 0);
    }
  }

  lemma {:induction false} AnyAlike(rows: seq<Row>, rows': seq<Row>, p: Row -> bool)
    requires |rows| == |rows'| && forall i :: 0 <= i < |rows| ==> p(rows[i]) == p(rows'[i])
    ensures (exists r :: r in rows && p(r)) <==> (exists r :: r in rows' && p(r))
  {
    if r :| r in rows && p(r) {
      var i :| 0 <= i < |rows| && rows[i] == r;
      assert rows'[i] in rows' && p(rows'[i]);
    }
    if r :| r in rows' && p(r) {
      var i :| 0 <= i < |rows'| && rows'[i] == r;
      assert rows[i] in rows && p(rows[i]);
    }
  }

  /**
   A worse candidate never passes: for every gate that is not a control, if
   the rows with worse candidate values exit 0, the original rows do too.
   */
  lemma {:induction false} WorseNeverPasses(pins: Pins, rows: seq<Row>, rows': seq<Row>, control: Result<int, Fault>)
    requires pins.gate !in CONTROLS && Compared(pins) && AllValid(pins, rows) && WorseRows(pins, rows, rows')
    requires Judge(pins, rows', control) == Ok(0)
    ensures Judge(pins, rows, control) == Ok(0)
  {
    VerdictsWorsen(pins, rows, rows');
    var one, pending := Given(pins, rows', 1), Given(pins, rows', 75);
    SettledAlike(pins, rows, rows', one, pending, control);
    assert !one && !pending;
    assert forall r :: r in rows ==> ValidRow(pins, r);
  }

  /**
   Where no failing control steps in, worse candidate values never move the
   exit code towards 0: it stays, or goes up from 0 to 75 to 1.
   */
  lemma {:induction false} WorseNeverImproves(pins: Pins, rows: seq<Row>, rows': seq<Row>, control: Result<int, Fault>)
    requires pins.gate !in CONTROLS && (pins.gate in CONTROLLED ==> control == Ok(0))
    requires Compared(pins) && AllValid(pins, rows) && AllValid(pins, rows') && WorseRows(pins, rows, rows')
    ensures var c, c' := Judge(pins, rows, control), Judge(pins, rows', control);
      (c.Ok? <==> c'.Ok?) && (c.Ok? ==> c == c' || Badness(c.value) < Badness(c'.value))
  {
    VerdictsWorsen(pins, rows, rows');
    var one, pending, one', pending' := Given(pins, rows, 1), Given(pins, rows, 75), Given(pins, rows', 1),
        Given(pins, rows', 75);
    SettledAlike(pins, rows, rows', one, pending, control);
    SettledWorsens(pins, rows', one, pending, one', pending', control);
    assert forall r :: r in rows ==> ValidRow(pins, r);
    assert forall r :: r in rows' ==> ValidRow(pins, r);
  }

  lemma {:induction false} SettledWorsens(pins: Pins, rows: seq<Row>, one: bool, pending: bool, one': bool,
                                          pending': bool, control: Result<int, Fault>)
    requires pins.gate !in CONTROLS && (pins.gate in CONTROLLED ==> control == Ok(0))
    requires (one ==> one') && (pending ==> pending' || one')
    ensures var c, c' := Settle(pins, rows, one, pending, control), Settle(pins, rows, one', pending', control);
      (c.Ok? <==> c'.Ok?) && (c.Ok? ==> c == c' || Badness(c.value) < Badness(c'.value))
  {
  }
}
