/**
 `parse`: the section automaton over the yielded lines, and what it accepts.
 */
module TestLogParse {
  import opened Wrappers
  import opened TestLog
  import opened Permutations

  datatype Row = Row(binary: string, name: string, outcome: Text)

  datatype Section = Section(binary: string, rows: seq<Row>, running: Option<nat>)

  datatype Trouble =
    | SectionOpen | CountOutside | SecondCount | TestOutside | SummaryOutside
    | WrongTally | NoCount | WrongCount | Truncated | NoSection | NoRow

  datatype Parser = Parser(section: Option<Section>, rows: seq<Row>, sections: nat)

  /** The outcome text, blanks at its end removed. */
  function Trimmed(text: Text): Text {
    if text.Outcome? && text.tail.Space? then text.(tail := Nothing) else text
  }

  function Counted(t: Tally, outcome: Text): Tally {
    if outcome == Outcome(Passed, Nothing, Whole) then t.(passed := t.passed + 1)
    else if outcome.Outcome? && outcome.word.Failed? then t.(failed := t.failed + 1)
    else if outcome.Outcome? && outcome.word.Ignored? then t.(ignored := t.ignored + 1)
    else if outcome.Bench? then t.(measured := t.measured + 1)
    else t
  }

  /** How many of the rows passed, failed, were ignored and were measured. */
  function TallyOf(rows: seq<Row>): Tally {
    if rows == [] then Tally(0, 0, 0, 0) else Counted(TallyOf(rows[..|rows| - 1]), rows[|rows| - 1].outcome)
  }

  /** The outcome reads exactly `ok`. */
  predicate IsOk(outcome: Text) {
    outcome == Outcome(Passed, Nothing, Whole)
  }

  predicate IsFailure(outcome: Text) {
    outcome.Outcome? && outcome.word == Failed
  }

  predicate IsIgnored(outcome: Text) {
    outcome.Outcome? && outcome.word == Ignored
  }

  predicate IsBench(outcome: Text) {
    outcome.Bench?
  }

  /** The places of the rows whose outcome is of one kind. */
  function Places(rows: seq<Row>, kind: Text -> bool): set<nat> {
    set i: nat | i < |rows| && kind(rows[i].outcome)
  }

  /** The counts a summary has to state: how many rows passed, failed, were ignored and were measured. */
  function CountsOf(rows: seq<Row>): Tally {
    Tally(|Places(rows, IsOk)|, |Places(rows, IsFailure)|, |Places(rows, IsIgnored)|, |Places(rows, IsBench)|)
  }

  lemma {:induction false} PlacesNext(rows: seq<Row>, row: Row, kind: Text -> bool)
    ensures |Places(rows + [row], kind)| == |Places(rows, kind)| + if kind(row.outcome) then 1 else 0
  {
    var all := rows + [row];
    assert forall i: nat :: i < |rows| ==> all[i] == rows[i];
    assert all[|rows|] == row;
    assert Places(all, kind) == Places(rows, kind) + (if kind(row.outcome) then {|rows|} else {});
  }

  lemma {:induction false} CountsNext(rows: seq<Row>, row: Row)
    ensures CountsOf(rows + [row]) == Counted(CountsOf(rows), row.outcome)
  {
    PlacesNext(rows, row, IsOk);
    PlacesNext(rows, row, IsFailure);
    PlacesNext(rows, row, IsIgnored);
    PlacesNext(rows, row, IsBench);
  }

  /** The running tally counts the rows of each kind. */
  lemma {:induction false} TallyCounts(rows: seq<Row>)
    ensures TallyOf(rows) == CountsOf(rows)
    decreases |rows|
  {
    if rows != [] {
      TallyCounts(rows[..|rows| - 1]);
      CountsNext(rows[..|rows| - 1], rows[|rows| - 1]);
      assert rows[..|rows| - 1] + [rows[|rows| - 1]] == rows;
    }
  }

  function CloseSection(p: Parser, section: Section, tally: Tally): Result<Parser, Trouble> {
    if TallyOf(section.rows) != tally then Err(WrongTally)
    else if section.running.None? then Err(NoCount)
    else if section.running.value != |section.rows| then Err(WrongCount)
    else Ok(p.(section := None, rows := p.rows + section.rows))
  }

  /** One yielded line. */
  function Take(p: Parser, body: Body): Result<Parser, Trouble> {
    match body
    case Header(binary) =>
      if p.section.Some? then Err(SectionOpen)
      else Ok(p.(section := Some(Section(binary, [], None)), sections := p.sections + 1))
    case Count(n) =>
      if p.section.None? then Err(CountOutside)
      else if p.section.value.running.Some? || p.section.value.rows != [] then Err(SecondCount)
      else Ok(p.(section := Some(p.section.value.(running := Some(n)))))
    case Result(name, _, text) =>
      if p.section.None? then Err(TestOutside)
      else
        var s := p.section.value;
        Ok(p.(section := Some(s.(rows := s.rows + [Row(s.binary, name, Trimmed(text))]))))
    case Summary(Some(tally)) =>
      if p.section.None? then Err(SummaryOutside) else CloseSection(p, p.section.value, tally)
    case _ => Ok(p)
  }

  function TakeAll(bodies: seq<Body>): Result<Parser, Trouble> {
    if bodies == [] then Ok(Parser(None, [], 0))
    else
      var p := TakeAll(bodies[..|bodies| - 1]);
      if p.Err? then p else Take(p.value, bodies[|bodies| - 1])
  }

  function Finish(p: Parser): Result<seq<Row>, Trouble> {
    if p.section.Some? then Err(Truncated)
    else if p.sections == 0 then Err(NoSection)
    else if p.rows == [] then Err(NoRow)
    else Ok(p.rows)
  }

  function ParseBodies(bodies: seq<Body>): Result<seq<Row>, Trouble> {
    var p := TakeAll(bodies);
    if p.Err? then Err(p.error) else Finish(p.value)
  }

  function Bodies(items: seq<Item>): seq<Body> {
    seq(|items|, i requires 0 <= i < |items| => items[i].body)
  }

  /** The rows of a whole log. */
  function Parsed(log: seq<Line>): Result<seq<Row>, Trouble> {
    ParseBodies(Bodies(Lines(log)))
  }

  lemma {:induction false} TakeNext(bodies: seq<Body>, body: Body)
    ensures TakeAll(bodies + [body]) == if TakeAll(bodies).Err? then TakeAll(bodies)
      else Take(TakeAll(bodies).value, body)
  {
    assert (bodies + [body])[..|bodies|] == bodies;
  }

  lemma {:induction false} TroubleStays(bodies: seq<Body>, k: nat)
    requires k <= |bodies| && TakeAll(bodies[..k]).Err?
    ensures TakeAll(bodies) == TakeAll(bodies[..k])
    decreases |bodies| - k
  {
    if k < |bodies| {
      TakeNext(bodies[..k], bodies[k]);
      assert bodies[..k] + [bodies[k]] == bodies[..k + 1];
      TroubleStays(bodies, k + 1);
    } else {
      assert bodies[..k] == bodies;
    }
  }

  /** `parse`, as its loop runs. */
  method Parse(log: seq<Line>) returns (r: Result<seq<Row>, Trouble>)
    ensures r == Parsed(log)
  {
    var items := ResultLines(log);
    ghost var bodies := Bodies(items);
    var rows: seq<Row>, section: Option<Section>, sections := [], None, 0;
    for k := 0 to |items|
      invariant TakeAll(bodies[..k]) == Ok(Parser(section, rows, sections))
    {
      TakeNext(bodies[..k], bodies[k]);
      assert bodies[..k] + [bodies[k]] == bodies[..k + 1];
      var taken := Take(Parser(section, rows, sections), items[k].body);
      if taken.Err? {
        TroubleStays(bodies, k + 1);
        return Err(taken.error);
      }
      section, rows, sections := taken.value.section, taken.value.rows, taken.value.sections;
    }
    assert bodies[..|items|] == bodies;
    if section.Some? {
      return Err(Truncated);
    }
    if sections == 0 {
      return Err(NoSection);
    }
    return if rows == [] then Err(NoRow) else Ok(rows);
  }

  // ---- what is accepted ----

  /** One section of a log: its header, and its tests with their outcomes. */
  datatype Block = Block(binary: string, tests: seq<(string, Text)>)

  function RowsOf(binary: string, tests: seq<(string, Text)>): seq<Row> {
    seq(|tests|, i requires 0 <= i < |tests| => Row(binary, tests[i].0, Trimmed(tests[i].1)))
  }

  function TestLines(tests: seq<(string, Text)>): seq<Body> {
    seq(|tests|, i requires 0 <= i < |tests| => Result(tests[i].0, 0, Trimmed(tests[i].1)))
  }

  /** Header, `running n`, n test lines, and a summary with matching counts. */
  function BlockLines(b: Block): seq<Body> {
    [Header(b.binary), Count(|b.tests|)] + TestLines(b.tests) + [Summary(Some(CountsOf(RowsOf(b.binary, b.tests))))]
  }

  function AllLines(blocks: seq<Block>): seq<Body> {
    if blocks == [] then [] else AllLines(blocks[..|blocks| - 1]) + BlockLines(blocks[|blocks| - 1])
  }

  function AllRows(blocks: seq<Block>): seq<Row> {
    if blocks == [] then []
    else
      var b := blocks[|blocks| - 1];
      AllRows(blocks[..|blocks| - 1]) + RowsOf(b.binary, b.tests)
  }

  predicate Structural(body: Body) {
    body.Header? || body.Count? || body.Result? || (body.Summary? && body.tally.Some?)
  }

  /** The structural lines, outcomes trimmed. */
  function Structure(bodies: seq<Body>): seq<Body> {
    if bodies == [] then []
    else
      var last := bodies[|bodies| - 1];
      Structure(bodies[..|bodies| - 1]) +
      (if !Structural(last) then [] else if last.Result? then [Result(last.name, 0, Trimmed(last.text))] else [last])
  }

  /** The structural lines of an open section. */
  function OpenLines(section: Option<Section>, tests: seq<(string, Text)>): seq<Body> {
    match section
    case None => []
    case Some(s) => [Header(s.binary)] + (if s.running.Some? then [Count(s.running.value)] else []) + TestLines(tests)
  }

  lemma {:induction false} RowsNext(binary: string, tests: seq<(string, Text)>, name: string, text: Text)
    ensures RowsOf(binary, tests + [(name, text)]) == RowsOf(binary, tests) + [Row(binary, name, Trimmed(text))]
    ensures TestLines(tests + [(name, text)]) == TestLines(tests) + [Result(name, 0, Trimmed(text))]
  {
  }

  /** The lines taken so far are whole blocks and at most one open section. */
  ghost predicate Explains(p: Parser, lines: seq<Body>, blocks: seq<Block>, tests: seq<(string, Text)>) {
    && lines == AllLines(blocks) + OpenLines(p.section, tests)
    && p.rows == AllRows(blocks)
    && p.sections == |blocks| + (if p.section.Some? then 1 else 0)
    && (p.section.Some? ==> p.section.value.rows == RowsOf(p.section.value.binary, tests))
  }

  /** One more structural line keeps an explanation. */
  lemma {:induction false} ExplainNext(p: Parser, body: Body, lines: seq<Body>, blocks: seq<Block>,
                                       tests: seq<(string, Text)>)
    returns (blocks': seq<Block>, tests': seq<(string, Text)>)
    requires Explains(p, lines, blocks, tests) && Take(p, body).Ok? && Structural(body)
    ensures Explains(Take(p, body).value, lines + Structure([body]), blocks', tests')
  {
    assert Structure([body]) == Structure([]) +
      (if body.Result? then [Result(body.name, 0, Trimmed(body.text))] else [body]);
    blocks', tests' := blocks, tests;
    match body
    case Header(_) =>
      tests' := [];
      assert TestLines([]) == [];
    case Count(n) =>
      assert tests == [];
    case Result(name, _, text) =>
      ExplainTest(p, body, lines, blocks, tests);
      tests' := tests + [(name, text)];
    case Summary(Some(tally)) =>
      blocks' := blocks + [Block(p.section.value.binary, tests)];
      ExplainClosed(p, tally, lines, blocks, tests);
  }

  lemma {:induction false} ExplainTest(p: Parser, body: Body, lines: seq<Body>, blocks: seq<Block>,
                                       tests: seq<(string, Text)>)
    requires Explains(p, lines, blocks, tests) && body.Result? && Take(p, body).Ok?
    ensures Explains(Take(p, body).value, lines + [Result(body.name, 0, Trimmed(body.text))], blocks,
                     tests + [(body.name, body.text)])
  {
    RowsNext(p.section.value.binary, tests, body.name, body.text);
    var s := Some(p.section.value);
    assert OpenLines(s, tests + [(body.name, body.text)]) == OpenLines(s, tests) +
      [Result(body.name, 0, Trimmed(body.text))];
  }

  lemma {:induction false} ExplainClosed(p: Parser, tally: Tally, lines: seq<Body>, blocks: seq<Block>,
                                         tests: seq<(string, Text)>)
    requires Explains(p, lines, blocks, tests) && p.section.Some? && CloseSection(p, p.section.value, tally).Ok?
    ensures var next := CloseSection(p, p.section.value, tally).value;
      Explains(next, lines + [Summary(Some(tally))], blocks + [Block(p.section.value.binary, tests)], tests)
  {
    var b := Block(p.section.value.binary, tests);
    TallyCounts(p.section.value.rows);
    AllNext(blocks, b);
    ClosedLines(p.section.value, tests, tally);
    Regroup(AllLines(blocks), OpenLines(p.section, tests), [Summary(Some(tally))]);
  }

  lemma {:induction false} AllNext(blocks: seq<Block>, b: Block)
    ensures AllLines(blocks + [b]) == AllLines(blocks) + BlockLines(b)
    ensures AllRows(blocks + [b]) == AllRows(blocks) + RowsOf(b.binary, b.tests)
  {
    assert (blocks + [b])[..|blocks|] == blocks;
  }

  lemma {:induction false} ClosedLines(section: Section, tests: seq<(string, Text)>, tally: Tally)
    requires section.running == Some(|tests|) && tally == CountsOf(RowsOf(section.binary, tests))
    ensures OpenLines(Some(section), tests) + [Summary(Some(tally))] == BlockLines(Block(section.binary, tests))
  {
  }

  lemma {:induction false} Explained(bodies: seq<Body>)
    returns (blocks: seq<Block>, tests: seq<(string, Text)>)
    requires TakeAll(bodies).Ok?
    ensures Explains(TakeAll(bodies).value, Structure(bodies), blocks, tests)
    decreases |bodies|
  {
    if bodies == [] {
      blocks, tests := [], [];
    } else {
      var pre, last := bodies[..|bodies| - 1], bodies[|bodies| - 1];
      blocks, tests := Explained(pre);
      if Structural(last) {
        assert Structure([last]) == Structure([]) +
          (if last.Result? then [Result(last.name, 0, Trimmed(last.text))] else [last]);
        blocks, tests := ExplainNext(TakeAll(pre).value, last, Structure(pre), blocks, tests);
      }
    }
  }

  // ---- the other direction ----

  lemma {:induction false} TakenTrimmed(p: Parser, body: Body, shown: Body)
    requires shown == if body.Result? then Result(body.name, 0, Trimmed(body.text)) else body
    ensures Take(p, shown) == Take(p, body)
  {
  }

  /** Only the structural lines matter. */
  lemma {:induction false} StructureDecides(bodies: seq<Body>)
    ensures TakeAll(Structure(bodies)) == TakeAll(bodies)
    decreases |bodies|
  {
    if bodies != [] {
      var pre, last := bodies[..|bodies| - 1], bodies[|bodies| - 1];
      StructureDecides(pre);
      if Structural(last) {
        var shown := if last.Result? then Result(last.name, 0, Trimmed(last.text)) else last;
        TakeNext(Structure(pre), shown);
        if TakeAll(pre).Ok? {
          TakenTrimmed(TakeAll(pre).value, last, shown);
        }
      } else {
        assert Structure(bodies) == Structure(pre);
      }
    }
  }

  lemma {:induction false} TestsTaken(p: Parser, lines: seq<Body>, tests: seq<(string, Text)>)
    requires TakeAll(lines) == Ok(p) && p.section.Some? && p.section.value.rows == []
    ensures TakeAll(lines + TestLines(tests)) ==
            Ok(p.(section := Some(p.section.value.(rows := RowsOf(p.section.value.binary, tests)))))
    decreases |tests|
  {
    if tests == [] {
      assert lines + TestLines(tests) == lines && RowsOf(p.section.value.binary, tests) == [];
    } else {
      var pre, last := tests[..|tests| - 1], tests[|tests| - 1];
      assert pre + [(last.0, last.1)] == tests;
      TestsTaken(p, lines, pre);
      RowsNext(p.section.value.binary, pre, last.0, last.1);
      TakeNext(lines + TestLines(pre), Result(last.0, 0, Trimmed(last.1)));
      Regroup(lines, TestLines(pre), [Result(last.0, 0, Trimmed(last.1))]);
    }
  }

  lemma {:induction false} HeaderTaken(p: Parser, lines: seq<Body>, binary: string, n: nat)
    requires TakeAll(lines) == Ok(p) && p.section.None?
    ensures TakeAll(lines + [Header(binary)] + [Count(n)]) ==
            Ok(Parser(Some(Section(binary, [], Some(n))), p.rows, p.sections + 1))
  {
    TakeNext(lines, Header(binary));
    TakeNext(lines + [Header(binary)], Count(n));
  }

  /** A block up to its last test line. */
  lemma {:induction false} TestsOfBlockTaken(p: Parser, lines: seq<Body>, b: Block)
    requires TakeAll(lines) == Ok(p) && p.section.None?
    ensures TakeAll(lines + [Header(b.binary)] + [Count(|b.tests|)] + TestLines(b.tests)) ==
            Ok(Parser(Some(Section(b.binary, RowsOf(b.binary, b.tests), Some(|b.tests|))), p.rows, p.sections + 1))
  {
    HeaderTaken(p, lines, b.binary, |b.tests|);
    TestsTaken(Parser(Some(Section(b.binary, [], Some(|b.tests|))), p.rows, p.sections + 1),
               lines + [Header(b.binary)] + [Count(|b.tests|)], b.tests);
  }

  lemma {:induction false} BlockParts(lines: seq<Body>, b: Block)
    ensures lines + [Header(b.binary)] + [Count(|b.tests|)] + TestLines(b.tests) +
            [Summary(Some(CountsOf(RowsOf(b.binary, b.tests))))] == lines + BlockLines(b)
  {
  }

  lemma {:induction false} BlockTaken(p: Parser, lines: seq<Body>, b: Block)
    requires TakeAll(lines) == Ok(p) && p.section.None?
    ensures TakeAll(lines + BlockLines(b)) == Ok(Parser(None, p.rows + RowsOf(b.binary, b.tests), p.sections + 1))
  {
    var rows := RowsOf(b.binary, b.tests);
    TestsOfBlockTaken(p, lines, b);
    TallyCounts(rows);
    SummaryTaken(Parser(Some(Section(b.binary, rows, Some(|b.tests|))), p.rows, p.sections + 1),
                 lines + [Header(b.binary)] + [Count(|b.tests|)] + TestLines(b.tests), TallyOf(rows));
    BlockParts(lines, b);
  }

  lemma {:induction false} SummaryTaken(p: Parser, lines: seq<Body>, tally: Tally)
    requires TakeAll(lines) == Ok(p) && p.section.Some? && tally == TallyOf(p.section.value.rows)
    requires p.section.value.running == Some(|p.section.value.rows|)
    ensures TakeAll(lines + [Summary(Some(tally))]) == Ok(Parser(None, p.rows + p.section.value.rows, p.sections))
  {
    TakeNext(lines, Summary(Some(tally)));
  }

  lemma {:induction false} BlocksTaken(blocks: seq<Block>)
    ensures TakeAll(AllLines(blocks)) == Ok(Parser(None, AllRows(blocks), |blocks|))
    decreases |blocks|
  {
    if blocks != [] {
      var pre := blocks[..|blocks| - 1];
      BlocksTaken(pre);
      AllNext(pre, blocks[|blocks| - 1]);
      BlockTaken(Parser(None, AllRows(pre), |pre|), AllLines(pre), blocks[|blocks| - 1]);
      assert pre + [blocks[|blocks| - 1]] == blocks;
    }
  }

  /** Some blocks give exactly these structural lines and these rows. */
  ghost predicate IsBlocks(bodies: seq<Body>, rows: seq<Row>) {
    exists blocks :: Structure(bodies) == AllLines(blocks) && rows == AllRows(blocks)
  }

  /**
   `parse` returns `rows` if and only if the structural lines are a
   concatenation of sections with matching counts whose rows these are, and
   there is a row.
   */
  lemma {:induction false} AcceptsExactlyBlocks(bodies: seq<Body>, rows: seq<Row>)
    ensures ParseBodies(bodies) == Ok(rows) <==> rows != [] && IsBlocks(bodies, rows)
  {
    if ParseBodies(bodies) == Ok(rows) {
      var blocks, tests := Explained(bodies);
      assert AllLines(blocks) + [] == AllLines(blocks);
    }
    if rows != [] && IsBlocks(bodies, rows) {
      var blocks :| Structure(bodies) == AllLines(blocks) && rows == AllRows(blocks);
      StructureDecides(bodies);
      BlocksTaken(blocks);
    }
  }
}
