/**
 The noisy round trip: a printed log, with FFmpeg's noise put into it in
 every recognised way, parses to the rows it was printed from.
 */
module TestLogRoundTrip {
  import opened Wrappers
  import opened TestLog
  import opened TestLogParse
  import opened Permutations

  // ---- what is printed ----

  datatype Verdict = Pass | Fail | Ignore(reason: Option<string>)

  /** What follows the outcome on its line. */
  datatype Trail = NoTrail | Message(probe: bool, spaced: bool) | GluedMessage(t: string)

  /** A whole message between a split result and its outcome. */
  datatype Chatter = Prefixed(frags: nat, text: Text) | Advised(frags: nat) | HlsAdvice | SkipMarker

  datatype Noise =
    /** Fragments before `test`, fragments before the outcome, a message after it. */
    | Inline(lead: nat, mid: nat, trail: Trail)
    /** A message where the outcome should be, more messages, then the outcome on a line of its own. */
    | Split(lead: nat, mid: nat, opener: Text, advice: bool, chatter: seq<Chatter>, last: nat, cut: Cut)

  const QUIET := Inline(0, 0, NoTrail)

  /** `before` are unrelated lines printed while no result is waiting. */
  datatype Test = Test(name: string, verdict: Verdict, noise: Noise, before: seq<Line>)

  datatype Suite = Suite(lead: nat, binary: string, tests: seq<Test>)

  function Plainly(v: Verdict): (text: Text)
    ensures IsOutcomeText(text) && text.cut.Whole?
  {
    match v
    case Pass => Outcome(Passed, Nothing, Whole)
    case Fail => Outcome(Failed, Nothing, Whole)
    case Ignore(None) => Outcome(Ignored, Nothing, Whole)
    case Ignore(Some(why)) => Outcome(Ignored, Reason(why), Whole)
  }

  /** The outcome on a line of its own. */
  function OutcomeLine(v: Verdict, last: nat, cut: Cut): Line {
    Line(last, Loose(Outcome(Plainly(v).word, Plainly(v).tail, cut)))
  }

  function WithTrail(v: Verdict, trail: Trail): Text {
    match trail
    case NoTrail => Plainly(v)
    case Message(probe, spaced) => Outcome(Plainly(v).word, if spaced then Space else Plainly(v).tail, Cut(probe))
    case GluedMessage(t) => Outcome(Plainly(v).word, Glued(t), Whole)
  }

  function ChatterLines(c: Chatter): seq<Line> {
    match c
    case Prefixed(frags, text) => [Line(frags, Loose(text))]
    case Advised(frags) => [Line(frags, Loose(Probe)), Line(0, Loose(Advice))]
    case HlsAdvice => [Line(0, Loose(Hls))]
    case SkipMarker => [Line(0, Loose(Marker))]
  }

  function AllChatter(cs: seq<Chatter>): seq<Line> {
    if cs == [] then [] else AllChatter(cs[..|cs| - 1]) + ChatterLines(cs[|cs| - 1])
  }

  function TestLine(t: Test): seq<Line> {
    match t.noise
    case Inline(lead, mid, trail) => [Line(lead, Result(t.name, mid, WithTrail(t.verdict, trail)))]
    case Split(lead, mid, opener, advice, chatter, last, cut) =>
      [Line(lead, Result(t.name, mid, opener))] + (if advice then [Line(0, Loose(Advice))] else []) +
      AllChatter(chatter) + [OutcomeLine(t.verdict, last, cut)]
  }

  function TestsPrinted(tests: seq<Test>): seq<Line> {
    if tests == [] then []
    else TestsPrinted(tests[..|tests| - 1]) + tests[|tests| - 1].before + TestLine(tests[|tests| - 1])
  }

  function Rows(s: Suite): seq<Row> {
    seq(|s.tests|, i requires 0 <= i < |s.tests| => Row(s.binary, s.tests[i].name, Plainly(s.tests[i].verdict)))
  }

  const BLANK := Line(0, Loose(Empty))

  function TopLines(s: Suite): seq<Line> {
    [Line(s.lead, Header(s.binary)), BLANK, Line(0, Count(|s.tests|))]
  }

  /** How many tests passed, failed and were ignored. */
  function Totals(tests: seq<Test>): Tally {
    Tally(|set i: nat | i < |tests| && tests[i].verdict.Pass?|, |set i: nat | i < |tests| && tests[i].verdict.Fail?|,
          |set i: nat | i < |tests| && tests[i].verdict.Ignore?|, 0)
  }

  lemma {:induction false} TotalsAreCounts(s: Suite)
    ensures Totals(s.tests) == TallyOf(Rows(s))
  {
    var rows, tests := Rows(s), s.tests;
    TallyCounts(rows);
    assert Places(rows, IsOk) == set i: nat | i < |tests| && tests[i].verdict.Pass?;
    assert Places(rows, IsFailure) == set i: nat | i < |tests| && tests[i].verdict.Fail?;
    assert Places(rows, IsIgnored) == set i: nat | i < |tests| && tests[i].verdict.Ignore?;
    assert Places(rows, IsBench) == {};
  }

  function BottomLines(tally: Tally): seq<Line> {
    [BLANK, Line(0, Summary(Some(tally))), BLANK]
  }

  /** One section: header, blank, `running n`, the tests, blank, summary, blank. */
  function SuitePrinted(s: Suite): seq<Line> {
    TopLines(s) + TestsPrinted(s.tests) + BottomLines(Totals(s.tests))
  }

  function Printed(suites: seq<Suite>): seq<Line> {
    if suites == [] then [] else Printed(suites[..|suites| - 1]) + SuitePrinted(suites[|suites| - 1])
  }

  function AllPrintedRows(suites: seq<Suite>): seq<Row> {
    if suites == [] then [] else AllPrintedRows(suites[..|suites| - 1]) + Rows(suites[|suites| - 1])
  }

  // ---- which noise is recognised ----

  predicate KnownTrail(v: Verdict, lead: nat, mid: nat, trail: Trail) {
    match trail
    case NoTrail => true
    case Message(_, spaced) => spaced ==> Plainly(v).tail.Nothing?
    case GluedMessage(_) => !v.Ignore? && (lead > 0 || mid > 0)
  }

  predicate KnownChatter(c: Chatter) {
    match c
    case Prefixed(frags, text) =>
      && (frags > 0 || (text.Noise? && text.bare))
      && (text.Outcome? ==> !text.tail.Nothing? && !(text.word.Ignored? && text.tail.Reason?))
    case Advised(frags) => frags > 0
    case HlsAdvice => true
    case SkipMarker => true
  }

  predicate KnownOpener(lead: nat, mid: nat, opener: Text) {
    && !opener.Outcome?
    && (lead > 0 || mid > 0 || (opener.Noise? && opener.bare) || opener.Empty? || opener.Hls? || opener.Marker?)
  }

  predicate Known(t: Test) {
    && (forall k :: 0 <= k < |t.before| ==> t.before[k].body.Loose?)
    && (match t.noise
        case Inline(lead, mid, trail) => KnownTrail(t.verdict, lead, mid, trail)
        case Split(lead, mid, opener, advice, chatter, _, _) =>
          && KnownOpener(lead, mid, opener)
          && (advice ==> (opener.Probe? && mid > 0) || (opener.Noise? && opener.probe))
          && (forall k :: 0 <= k < |chatter| ==> KnownChatter(chatter[k])))
  }

  predicate AllKnown(tests: seq<Test>) {
    forall k :: 0 <= k < |tests| ==> Known(tests[k])
  }

  // ---- scanning and parsing side by side ----

  /** After `log` the parser is at `p` and `pending` is the result that waits. */
  predicate Reads(log: seq<Line>, p: Parser, pending: Option<Head>) {
    && Run(log).scan.pending == pending && !Run(log).scan.captured
    && TakeAll(Bodies(Run(log).items)) == Ok(p)
  }

  lemma {:induction false} ReadsNothing(log: seq<Line>, p: Parser, pending: Option<Head>, line: Line)
    requires Reads(log, p, pending) && Feed(Run(log).scan, |log| + 1, line).items == []
    requires !Feed(Run(log).scan, |log| + 1, line).scan.captured
    ensures Reads(log + [line], p, Feed(Run(log).scan, |log| + 1, line).scan.pending)
  {
    RunNext(log, line);
    assert Run(log + [line]).items == Run(log).items;
  }

  lemma {:induction false} ReadsOne(log: seq<Line>, p: Parser, pending: Option<Head>, line: Line, item: Item)
    requires Reads(log, p, pending) && Feed(Run(log).scan, |log| + 1, line).items == [item]
    requires !Feed(Run(log).scan, |log| + 1, line).scan.captured && Take(p, item.body).Ok?
    ensures Reads(log + [line], Take(p, item.body).value, Feed(Run(log).scan, |log| + 1, line).scan.pending)
  {
    RunNext(log, line);
    assert Bodies(Run(log + [line]).items) == Bodies(Run(log).items) + [item.body];
    TakeNext(Bodies(Run(log).items), item.body);
  }

  /** A line that opens nothing, while nothing waits. */
  lemma {:induction false} ReadsPlain(log: seq<Line>, p: Parser, line: Line)
    requires Reads(log, p, None) && !Opens(line) && !IsMarkedHead(line) && !line.body.CaptureOpen?
    requires Take(p, Stripped(line)).Ok?
    ensures Reads(log + [line], Take(p, Stripped(line)).value, None)
  {
    if IsMarker(line) {
      ReadsNothing(log, p, None, line);
    } else {
      ReadsOne(log, p, None, line, Item(|log| + 1, |log| + 1, Stripped(line)));
    }
  }

  lemma {:induction false} ReadsLoose(log: seq<Line>, p: Parser, lines: seq<Line>)
    requires Reads(log, p, None) && forall k :: 0 <= k < |lines| ==> lines[k].body.Loose?
    ensures Reads(log + lines, p, None)
    decreases |lines|
  {
    if lines == [] {
      assert log + lines == log;
    } else {
      var n := |lines| - 1;
      ReadsLoose(log, p, lines[..n]);
      ReadsPlain(log + lines[..n], p, lines[n]);
      assert log + lines[..n] + [lines[n]] == log + lines;
    }
  }

  /** The parser after one more test of the open section. */
  function WithRow(p: Parser, name: string, outcome: Text): Parser
    requires p.section.Some?
  {
    var s := p.section.value;
    p.(section := Some(s.(rows := s.rows + [Row(s.binary, name, outcome)])))
  }

  lemma {:induction false} ReadsInline(log: seq<Line>, p: Parser, t: Test)
    requires Reads(log, p, None) && p.section.Some? && Known(t) && t.noise.Inline?
    ensures Reads(log + TestLine(t), WithRow(p, t.name, Plainly(t.verdict)), None)
  {
    var line := TestLine(t)[0];
    assert Trimmed(Stripped(line).text) == Plainly(t.verdict);
    ReadsPlain(log, p, line);
  }

  lemma {:induction false} ReadsOpener(log: seq<Line>, p: Parser, line: Line)
    requires Reads(log, p, None) && line.body.Result? && KnownOpener(line.frags, line.body.frags, line.body.text)
    ensures Reads(log + [line], p, Some(Head(|log| + 1, line.body.name)))
    ensures TextProbes(line.body.frags, line.body.text) ==> Run(log + [line]).scan.probe
  {
    ReadsNothing(log, p, None, line);
    RunNext(log, line);
  }

  lemma {:induction false} ReadsAdvice(log: seq<Line>, p: Parser, head: Head)
    requires Reads(log, p, Some(head)) && Run(log).scan.probe
    ensures Reads(log + [Line(0, Loose(Advice))], p, Some(head))
  {
    ReadsNothing(log, p, Some(head), Line(0, Loose(Advice)));
  }

  /** A line that a waiting result looks past. */
  lemma {:induction false} ReadsPast(log: seq<Line>, p: Parser, head: Head, line: Line)
    requires Reads(log, p, Some(head)) && line.body.Loose?
    requires IsMarker(line) || line == Line(0, Loose(Hls)) || (StartsWithFragment(line) && !IsOutcomeLine(line))
    ensures Reads(log + [line], p, Some(head))
    ensures Probes(line) ==> Run(log + [line]).scan.probe
  {
    ReadsNothing(log, p, Some(head), line);
    RunNext(log, line);
  }

  lemma {:induction false} ReadsChatter(log: seq<Line>, p: Parser, head: Head, c: Chatter)
    requires Reads(log, p, Some(head)) && KnownChatter(c)
    ensures Reads(log + ChatterLines(c), p, Some(head))
  {
    match c
    case Advised(frags) =>
      ReadsPast(log, p, head, Line(frags, Loose(Probe)));
      ReadsAdvice(log + [Line(frags, Loose(Probe))], p, head);
      assert log + [Line(frags, Loose(Probe))] + [Line(0, Loose(Advice))] == log + ChatterLines(c);
    case Prefixed(frags, text) => ReadsPast(log, p, head, Line(frags, Loose(text)));
    case HlsAdvice => ReadsPast(log, p, head, Line(0, Loose(Hls)));
    case SkipMarker => ReadsPast(log, p, head, Line(0, Loose(Marker)));
  }

  lemma {:induction false} ReadsAllChatter(log: seq<Line>, p: Parser, head: Head, cs: seq<Chatter>)
    requires Reads(log, p, Some(head)) && forall k :: 0 <= k < |cs| ==> KnownChatter(cs[k])
    ensures Reads(log + AllChatter(cs), p, Some(head))
    decreases |cs|
  {
    if cs == [] {
      assert log + AllChatter(cs) == log;
    } else {
      var n := |cs| - 1;
      ReadsAllChatter(log, p, head, cs[..n]);
      ReadsChatter(log + AllChatter(cs[..n]), p, head, cs[n]);
      Regroup(log, AllChatter(cs[..n]), ChatterLines(cs[n]));
    }
  }

  /** The outcome line completes the waiting result. */
  lemma {:induction false} ReadsOutcome(log: seq<Line>, p: Parser, head: Head, v: Verdict, last: nat, cut: Cut)
    requires Reads(log, p, Some(head)) && p.section.Some?
    ensures Reads(log + [OutcomeLine(v, last, cut)], WithRow(p, head.name, Plainly(v)), None)
  {
    var line := OutcomeLine(v, last, cut);
    assert IsOutcomeLine(line) && CutOff(line.body.text) == Plainly(v) == Trimmed(Plainly(v));
    ReadsOne(log, p, Some(head), line, Item(head.number, |log| + 1, Result(head.name, 0, Plainly(v))));
  }

  lemma {:induction false} SplitParts(log: seq<Line>, t: Test, opener: Line, advice: seq<Line>)
    requires t.noise.Split? && opener == Line(t.noise.lead, Result(t.name, t.noise.mid, t.noise.opener))
    requires advice == if t.noise.advice then [Line(0, Loose(Advice))] else []
    ensures log + [opener] + advice + AllChatter(t.noise.chatter) +
      [OutcomeLine(t.verdict, t.noise.last, t.noise.cut)] ==
            log + TestLine(t)
  {
  }

  /** A split result is put together again. */
  lemma {:induction false} ReadsSplit(log: seq<Line>, p: Parser, t: Test)
    requires Reads(log, p, None) && p.section.Some? && Known(t) && t.noise.Split?
    ensures Reads(log + TestLine(t), WithRow(p, t.name, Plainly(t.verdict)), None)
  {
    var n, head := t.noise, Head(|log| + 1, t.name);
    var opener, advice := Line(n.lead, Result(t.name, n.mid, n.opener)), if n.advice then [Line(0, Loose(Advice))]
        else [];
    ReadsOpener(log, p, opener);
    ReadsFirstAdvice(log + [opener], p, head, n.advice, advice);
    ReadsAllChatter(log + [opener] + advice, p, head, n.chatter);
    ReadsOutcome(log + [opener] + advice + AllChatter(n.chatter), p, head, t.verdict, n.last, n.cut);
    SplitParts(log, t, opener, advice);
  }

  lemma {:induction false} ReadsFirstAdvice(log: seq<Line>, p: Parser, head: Head, some: bool, advice: seq<Line>)
    requires Reads(log, p, Some(head)) && (some ==> Run(log).scan.probe)
    requires advice == if some then [Line(0, Loose(Advice))] else []
    ensures Reads(log + advice, p, Some(head))
  {
    if some {
      ReadsAdvice(log, p, head);
    } else {
      assert log + advice == log;
    }
  }

  lemma {:induction false} ReadsTest(log: seq<Line>, p: Parser, t: Test)
    requires Reads(log, p, None) && p.section.Some? && Known(t)
    ensures Reads(log + t.before + TestLine(t), WithRow(p, t.name, Plainly(t.verdict)), None)
  {
    ReadsLoose(log, p, t.before);
    if t.noise.Inline? {
      ReadsInline(log + t.before, p, t);
    } else {
      ReadsSplit(log + t.before, p, t);
    }
  }

  lemma {:induction false} RowsOneMore(s: Suite, n: nat)
    requires n + 1 == |s.tests|
    ensures Rows(s) == Rows(s.(tests := s.tests[..n])) + [Row(s.binary, s.tests[n].name, Plainly(s.tests[n].verdict))]
  {
  }

  lemma {:induction false} TestsOneMore(log: seq<Line>, tests: seq<Test>, n: nat)
    requires n + 1 == |tests|
    ensures log + TestsPrinted(tests[..n]) + tests[n].before + TestLine(tests[n]) == log + TestsPrinted(tests)
  {
    Regroup(log, TestsPrinted(tests[..n]), tests[n].before);
    Regroup(log, TestsPrinted(tests[..n]) + tests[n].before, TestLine(tests[n]));
  }

  /** The parser inside the section of `s`, with these rows. */
  function Inside(s: Suite, rows: seq<Row>, before: Parser): Parser {
    Parser(Some(Section(s.binary, rows, Some(|s.tests|))), before.rows, before.sections + 1)
  }

  lemma {:induction false} ReadsTests(log: seq<Line>, p: Parser, s: Suite, n: nat)
    requires Reads(log, Inside(s, [], p), None) && AllKnown(s.tests) && n <= |s.tests|
    ensures Reads(log + TestsPrinted(s.tests[..n]), Inside(s, Rows(s.(tests := s.tests[..n])), p), None)
  {
    if n == 0 {
      assert log + TestsPrinted(s.tests[..n]) == log && Rows(s.(tests := s.tests[..n])) == [];
    } else {
      ReadsTests(log, p, s, n - 1);
      var t := s.(tests := s.tests[..n]);
      assert t.tests[..n - 1] == s.tests[..n - 1] && t.(tests := s.tests[..n - 1]) == s.(tests := s.tests[..n - 1]);
      RowsOneMore(t, n - 1);
      TestsOneMore(log, t.tests, n - 1);
      ReadsTest(log + TestsPrinted(s.tests[..n - 1]), Inside(s, Rows(s.(tests := s.tests[..n - 1])), p),
                s.tests[n - 1]);
    }
  }

  lemma {:induction false} ReadsHeader(log: seq<Line>, p: Parser, s: Suite)
    requires Reads(log, p, None) && p.section.None?
    ensures Reads(log + TopLines(s), Inside(s, [], p), None)
  {
    var head := Line(s.lead, Header(s.binary));
    ReadsPlain(log, p, head);
    var p' := Parser(Some(Section(s.binary, [], None)), p.rows, p.sections + 1);
    ReadsPlain(log + [head], p', BLANK);
    ReadsPlain(log + [head] + [BLANK], p', Line(0, Count(|s.tests|)));
    assert log + [head] + [BLANK] + [Line(0, Count(|s.tests|))] == log + TopLines(s);
  }

  lemma {:induction false} ReadsSummary(log: seq<Line>, p: Parser)
    requires Reads(log, p, None) && p.section.Some? && p.section.value.running == Some(|p.section.value.rows|)
    ensures Reads(log + BottomLines(TallyOf(p.section.value.rows)),
                  Parser(None, p.rows + p.section.value.rows, p.sections), None)
  {
    var tally := Line(0, Summary(Some(TallyOf(p.section.value.rows))));
    ReadsPlain(log, p, BLANK);
    ReadsPlain(log + [BLANK], p, tally);
    ReadsPlain(log + [BLANK] + [tally], Parser(None, p.rows + p.section.value.rows, p.sections), BLANK);
    assert log + [BLANK] + [tally] + [BLANK] == log + BottomLines(TallyOf(p.section.value.rows));
  }

  lemma {:induction false} SuiteParts(log: seq<Line>, s: Suite)
    ensures log + TopLines(s) + TestsPrinted(s.tests) + BottomLines(Totals(s.tests)) == log + SuitePrinted(s)
  {
    Regroup(log, TopLines(s), TestsPrinted(s.tests));
    Regroup(log, TopLines(s) + TestsPrinted(s.tests), BottomLines(Totals(s.tests)));
  }

  lemma {:induction false} ReadsBottom(log: seq<Line>, p: Parser, s: Suite)
    requires Reads(log, Inside(s, Rows(s), p), None)
    ensures Reads(log + BottomLines(Totals(s.tests)), Parser(None, p.rows + Rows(s), p.sections + 1), None)
  {
    TotalsAreCounts(s);
    ReadsSummary(log, Inside(s, Rows(s), p));
  }

  lemma {:induction false} ReadsTop(log: seq<Line>, p: Parser, s: Suite)
    requires Reads(log, p, None) && p.section.None? && AllKnown(s.tests)
    ensures Reads(log + TopLines(s) + TestsPrinted(s.tests), Inside(s, Rows(s), p), None)
  {
    assert s.tests[..|s.tests|] == s.tests && s.(tests := s.tests[..|s.tests|]) == s;
    ReadsHeader(log, p, s);
    ReadsTests(log + TopLines(s), p, s, |s.tests|);
  }

  lemma {:induction false} ReadsSuite(log: seq<Line>, p: Parser, s: Suite)
    requires Reads(log, p, None) && p.section.None? && AllKnown(s.tests)
    ensures Reads(log + SuitePrinted(s), Parser(None, p.rows + Rows(s), p.sections + 1), None)
  {
    ReadsTop(log, p, s);
    ReadsBottom(log + TopLines(s) + TestsPrinted(s.tests), p, s);
    SuiteParts(log, s);
  }

  predicate AllSuitesKnown(suites: seq<Suite>) {
    forall k :: 0 <= k < |suites| ==> AllKnown(suites[k].tests)
  }

  lemma {:induction false} ReadsSuites(suites: seq<Suite>)
    requires AllSuitesKnown(suites)
    ensures Reads(Printed(suites), Parser(None, AllPrintedRows(suites), |suites|), None)
    decreases |suites|
  {
    if suites == [] {
      assert Bodies([]) == [];
    } else {
      var n := |suites| - 1;
      ReadsSuites(suites[..n]);
      ReadsSuite(Printed(suites[..n]), Parser(None, AllPrintedRows(suites[..n]), n), suites[n]);
    }
  }

  /**
   For every list of sections with at least one test, and every way of
   putting recognised FFmpeg noise into its printed log, `parse` returns
   exactly the rows that were printed.
   */
  lemma {:induction false} NoisyRoundTrip(suites: seq<Suite>)
    requires AllSuitesKnown(suites) && AllPrintedRows(suites) != []
    ensures Parsed(Printed(suites)) == Ok(AllPrintedRows(suites))
  {
    ReadsSuites(suites);
    assert Lines(Printed(suites)) == Run(Printed(suites)).items;
  }

  function Quieted(suites: seq<Suite>): seq<Suite> {
    seq(|suites|, i requires 0 <= i < |suites| => Suite(0, suites[i].binary, QuietTests(suites[i].tests)))
  }

  function QuietTests(tests: seq<Test>): seq<Test> {
    seq(|tests|, i requires 0 <= i < |tests| => Test(tests[i].name, tests[i].verdict, QUIET, []))
  }

  lemma {:induction false} QuietRows(suites: seq<Suite>)
    ensures AllPrintedRows(Quieted(suites)) == AllPrintedRows(suites)
    decreases |suites|
  {
    if suites != [] {
      var n := |suites| - 1;
      QuietRows(suites[..n]);
      assert Quieted(suites)[..n] == Quieted(suites[..n]);
      assert Rows(Quieted(suites)[n]) == Rows(suites[n]);
    }
  }

  /** So recognised noise changes nothing: the noisy log and the clean one parse alike. */
  lemma {:induction false} NoiseChangesNothing(suites: seq<Suite>)
    requires AllSuitesKnown(suites) && AllPrintedRows(suites) != []
    ensures Parsed(Printed(suites)) == Parsed(Printed(Quieted(suites)))
  {
    NoisyRoundTrip(suites);
    QuietRows(suites);
    NoisyRoundTrip(Quieted(suites));
  }
}
