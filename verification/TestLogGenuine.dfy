/**
 No outcome is invented. Said of the log's lines as they stand: what a row
 that `parse` returns reads, on which line its test stands, where its outcome
 was read and what stands between.
 */
module TestLogGenuine {
  import opened Wrappers
  import opened TestLog
  import opened TestLogParse
  import R = TestLogResults

  // ---- the lines ----

  predicate EndsCapture(line: Line) {
    line.frags == 0 && (line.body.Successes? || line.body.Summary?)
  }

  /** Captured output opens on line `i` and has not ended by line `k`. */
  predicate OpenSince(log: seq<Line>, i: nat, k: nat)
    requires k < |log|
  {
    i <= k && log[i] == Line(0, CaptureOpen) && forall j :: i <= j <= k ==> !EndsCapture(log[j])
  }

  /** Line `k` stands in captured output. */
  ghost predicate Captured(log: seq<Line>, k: nat)
    requires k < |log|
  {
    exists i: nat :: OpenSince(log, i, k)
  }

  /** `test name ... ` and a NOT RUN marker. */
  predicate MarkedHead(line: Line) {
    line.frags == 0 && line.body.Result? && line.body.frags == 0 && line.body.text.Marker?
  }

  /** The line does not count for what the warning's continuation follows. */
  ghost predicate Passive(log: seq<Line>, k: nat)
    requires k < |log|
  {
    Captured(log, k) || log[k] == Line(0, Loose(Marker)) || MarkedHead(log[k])
  }

  /** A fragment on the line is followed by the codec-parameter warning. */
  predicate Warns(line: Line) {
    && (line.body.Result? || line.body.Loose?)
    && var text := line.body.text;
       || (text.Probe? && (if line.body.Result? then line.body.frags else line.frags) > 0)
       || (text.Outcome? && text.cut == Cut(true))
       || (text.Noise? && text.probe)
  }

  /** Line `i` carries the warning and is the last one before `k` that counts. */
  ghost predicate WarnsFor(log: seq<Line>, i: nat, k: nat)
    requires k <= |log|
  {
    i < k && !Passive(log, i) && Warns(log[i]) && forall j :: i < j < k ==> Passive(log, j)
  }

  ghost predicate WarnedAt(log: seq<Line>, k: nat)
    requires k <= |log|
  {
    exists i: nat :: WarnsFor(log, i, k)
  }

  /** Nothing but an outcome, its own message aside. */
  predicate NothingBut(line: Line) {
    && line.body.Loose? && line.body.text.Outcome?
    && (line.body.text.tail.Nothing? || (line.body.text.word.Ignored? && line.body.text.tail.Reason?))
  }

  predicate LedByFragment(line: Line) {
    line.frags > 0 || (line.body.Loose? && line.body.text.Noise? && line.body.text.bare)
  }

  /** A line that may stand between a split result and its outcome. */
  ghost predicate Between(log: seq<Line>, k: nat)
    requires k < |log|
  {
    || Captured(log, k) || log[k] == Line(0, Loose(Marker)) || log[k] == Line(0, Loose(Hls))
    || (log[k] == Line(0, Loose(Advice)) && WarnedAt(log, k))
    || (LedByFragment(log[k]) && !NothingBut(log[k]))
  }

  /** A result with no outcome after it, but nothing, the HLS advisory, a marker, or text beside a fragment. */
  predicate SplitHere(line: Line) {
    && line.body.Result? && !line.body.text.Outcome?
    && (|| line.frags > 0 || line.body.frags > 0 || (line.body.text.Noise? && line.body.text.bare)
        || line.body.text.Empty? || line.body.text.Hls? || line.body.text.Marker?)
  }

  /** What a result reads from its own line: an outcome loses its message, a glued one only beside a fragment. */
  predicate OwnText(line: Line, text: Text)
    requires line.body.Result?
  {
    match line.body.text
    case Outcome(word, tail, _) =>
      if tail.Glued? && !word.Ignored? && (line.frags > 0 || line.body.frags > 0)
      then text == Outcome(word, Nothing, Whole)
      else text == Outcome(word, tail, Whole)
    case other => text == other
  }

  /** The result `name` on line `k` reads `text`: from its line, from line `j`, or nothing. */
  ghost predicate Read(log: seq<Line>, k: nat, j: nat, name: string, text: Text) {
    && k <= j < |log| && log[k].body.Result? && log[k].body.name == name && !Captured(log, k)
    && (if !SplitHere(log[k]) then j == k && OwnText(log[k], text)
        else if j == k then text == Empty
        else
          && NothingBut(log[j]) && !Captured(log, j)
          && text == Outcome(log[j].body.text.word, log[j].body.text.tail, Whole)
          && forall m: nat :: k < m < j ==> Between(log, m))
  }

  // ---- the scan on the lines ----

  lemma {:induction false} CapturedNext(log: seq<Line>, k: nat)
    requires k < |log|
    ensures Captured(log, k) <==>
            !EndsCapture(log[k]) && (log[k] == Line(0, CaptureOpen) || (k > 0 && Captured(log, k - 1)))
  {
    if Captured(log, k) {
      var i: nat :| OpenSince(log, i, k);
      assert i < k ==> OpenSince(log, i, k - 1);
    }
    if !EndsCapture(log[k]) {
      if log[k] == Line(0, CaptureOpen) {
        assert OpenSince(log, k, k);
      } else if k > 0 && Captured(log, k - 1) {
        var i: nat :| OpenSince(log, i, k - 1);
        assert OpenSince(log, i, k);
      }
    }
  }

  lemma {:induction false} CapturedIsHidden(log: seq<Line>, k: nat)
    requires k < |log|
    ensures Captured(log, k) <==> Hidden(Capturing(false, log[..k]), log[k])
    decreases k
  {
    CapturedNext(log, k);
    if k > 0 {
      CapturedIsHidden(log, k - 1);
      assert log[..k][..k - 1] == log[..k - 1];
    }
  }

  lemma {:induction false} WarnedNext(log: seq<Line>, k: nat)
    requires k < |log|
    ensures WarnedAt(log, k + 1) <==> if Passive(log, k) then WarnedAt(log, k) else Warns(log[k])
  {
    if WarnedAt(log, k + 1) {
      var i: nat :| WarnsFor(log, i, k + 1);
      assert i < k ==> WarnsFor(log, i, k);
    }
    if Passive(log, k) && WarnedAt(log, k) {
      var i: nat :| WarnsFor(log, i, k);
      assert WarnsFor(log, i, k + 1);
    }
    if !Passive(log, k) && Warns(log[k]) {
      assert WarnsFor(log, k, k + 1);
    }
  }

  lemma {:induction false} WarnedIsWarned(log: seq<Line>, k: nat)
    requires k <= |log|
    ensures WarnedAt(log, k) <==> R.Warned(log[..k])
    decreases k
  {
    if k > 0 {
      WarnedIsWarned(log, k - 1);
      WarnedNext(log, k - 1);
      CapturedIsHidden(log, k - 1);
      assert log[..k][..k - 1] == log[..k - 1];
    }
  }

  /** What waits after `n` lines is a split result, and everything since may stand between. */
  ghost predicate Waiting(log: seq<Line>, n: nat, pending: Option<Head>)
    requires n <= |log|
  {
    pending.Some? ==>
      var k := pending.value.number - 1;
      && 0 <= k < n && SplitHere(log[k]) && log[k].body.name == pending.value.name && !Captured(log, k)
      && forall m: nat :: k < m < n ==> Between(log, m)
  }

  /** A yielded line stands on its own, or it is a result that reads what the lines say. */
  ghost predicate Genuine(log: seq<Line>, item: Item) {
    && 1 <= item.number <= item.from <= |log|
    && (match item.body
        case Result(name, _, text) => Read(log, item.number - 1, item.from - 1, name, text)
        case Loose(_) => true
        case body => item.from == item.number && body == log[item.number - 1].body && !Captured(log, item.number - 1))
  }

  lemma {:induction false} FreshGenuine(log: seq<Line>, k: nat, body: Body)
    requires k < |log| && !Captured(log, k) && !MarkedHead(log[k])
    requires body == Stripped(log[k]) || body == CutLine(Stripped(log[k]))
    ensures var f := Fresh(k + 1, log[k], body);
      && Waiting(log, k + 1, f.scan.pending)
      && forall i :: 0 <= i < |f.items| ==> Genuine(log, f.items[i])
  {
  }

  lemma {:induction false} LookedPast(log: seq<Line>, k: nat, head: Head, probe: bool)
    requires k < |log| && Waiting(log, k, Some(head)) && (probe <==> WarnedAt(log, k)) && Skipped(probe, log[k])
    ensures Waiting(log, k + 1, Some(head))
  {
    assert Between(log, k);
  }

  lemma {:induction false} OutcomeGenuine(log: seq<Line>, k: nat, head: Head)
    requires k < |log| && Waiting(log, k, Some(head)) && !Captured(log, k) && IsOutcomeLine(log[k])
    ensures Genuine(log, Item(head.number, k + 1, Result(head.name, 0, CutOff(log[k].body.text))))
  {
  }

  lemma {:induction false} NothingRead(log: seq<Line>, k: nat, head: Head)
    requires k <= |log| && Waiting(log, k, Some(head))
    ensures Genuine(log, Flush(Some(head))[0])
  {
  }

  lemma {:induction false} AwaitedGenuine(log: seq<Line>, k: nat, head: Head, probe: bool)
    requires k < |log| && !Captured(log, k) && !MarkedHead(log[k]) && log[k] != Line(0, Loose(Marker))
    requires Waiting(log, k, Some(head)) && (probe <==> WarnedAt(log, k))
    ensures var f := Awaited(head, probe, k + 1, log[k]);
      && Waiting(log, k + 1, f.scan.pending)
      && forall i :: 0 <= i < |f.items| ==> Genuine(log, f.items[i])
  {
    if Skipped(probe, log[k]) {
      LookedPast(log, k, head, probe);
    } else if IsOutcomeLine(log[k]) {
      OutcomeGenuine(log, k, head);
    } else {
      FreshGenuine(log, k, CutLine(Stripped(log[k])));
      NothingRead(log, k, head);
    }
  }

  lemma {:induction false} MarkedGenuine(log: seq<Line>, k: nat, pending: Option<Head>)
    requires k < |log| && !Captured(log, k) && IsMarkedHead(log[k]) && Waiting(log, k, pending)
    ensures Waiting(log, k + 1, Some(Head(k + 1, log[k].body.name)))
    ensures pending.Some? ==> Genuine(log, Flush(pending)[0])
  {
    if pending.Some? {
      NothingRead(log, k, pending.value);
    }
  }

  lemma {:induction false} FeedGenuine(log: seq<Line>, k: nat, scan: Scan)
    requires k < |log| && Waiting(log, k, scan.pending)
    requires scan.captured == Capturing(false, log[..k]) && scan.probe == WarnedAt(log, k)
    ensures var f := Feed(scan, k + 1, log[k]);
      && Waiting(log, k + 1, f.scan.pending)
      && forall i :: 0 <= i < |f.items| ==> Genuine(log, f.items[i])
  {
    CapturedIsHidden(log, k);
    if Captured(log, k) || IsMarker(log[k]) {
      assert Between(log, k);
    } else if IsMarkedHead(log[k]) {
      MarkedGenuine(log, k, scan.pending);
    } else if scan.pending.Some? {
      AwaitedGenuine(log, k, scan.pending.value, scan.probe);
    } else {
      FreshGenuine(log, k, Stripped(log[k]));
    }
  }

  lemma {:induction false} RunGenuine(log: seq<Line>, n: nat)
    requires n <= |log|
    ensures Waiting(log, n, Run(log[..n]).scan.pending)
    ensures forall i :: 0 <= i < |Run(log[..n]).items| ==> Genuine(log, Run(log[..n]).items[i])
    decreases n
  {
    if n > 0 {
      RunGenuine(log, n - 1);
      R.FlagsOnLines(log[..n - 1]);
      WarnedIsWarned(log, n - 1);
      FeedGenuine(log, n - 1, Run(log[..n - 1]).scan);
      RunNext(log[..n - 1], log[n - 1]);
      assert log[..n - 1] + [log[n - 1]] == log[..n];
    }
  }

  /** Every yielded result reads what the lines say, and every yielded header, count and summary is a line. */
  lemma {:induction false} YieldIsGenuine(log: seq<Line>)
    ensures forall i :: 0 <= i < |Lines(log)| ==> Genuine(log, Lines(log)[i])
  {
    RunGenuine(log, |log|);
    assert log[..|log|] == log;
    var r := Run(log);
    if r.scan.pending.Some? {
      NothingRead(log, |log|, r.scan.pending.value);
    }
    assert forall i :: 0 <= i < |r.items| ==> Lines(log)[i] == r.items[i];
  }

  // ---- the rows ----

  /** The row is the `i`th yielded line, a test, under the last header before it. */
  predicate RowAt(bodies: seq<Body>, row: Row, i: nat, h: nat) {
    && h < i < |bodies|
    && bodies[i].Result? && bodies[i].name == row.name && Unblanked(bodies[i].text, row.outcome)
    && bodies[h] == Header(row.binary) && forall m :: h < m < i ==> !bodies[m].Header?
  }

  /** The outcome is the text without blanks at its end. */
  predicate Unblanked(text: Text, outcome: Text) {
    if text.Outcome? && text.tail.Space? then outcome == Outcome(text.word, Nothing, text.cut) else outcome == text
  }

  ghost predicate RowFrom(bodies: seq<Body>, row: Row) {
    exists i: nat, h: nat :: RowAt(bodies, row, i, h)
  }

  ghost predicate HeadedBy(bodies: seq<Body>, section: Option<Section>) {
    section.Some? ==>
      exists h: nat :: h < |bodies| && bodies[h] == Header(section.value.binary)
                       && forall m :: h < m < |bodies| ==> !bodies[m].Header?
  }

  lemma {:induction false} RowStays(bodies: seq<Body>, body: Body, row: Row)
    requires RowFrom(bodies, row)
    ensures RowFrom(bodies + [body], row)
  {
    var i: nat, h: nat :| RowAt(bodies, row, i, h);
    assert RowAt(bodies + [body], row, i, h);
  }

  lemma {:induction false} HeadStays(bodies: seq<Body>, body: Body, section: Option<Section>)
    requires HeadedBy(bodies, section) && !body.Header?
    ensures HeadedBy(bodies + [body], section)
  {
    if section.Some? {
      var h: nat :| h < |bodies| && bodies[h] == Header(section.value.binary)
                    && forall m :: h < m < |bodies| ==> !bodies[m].Header?;
      assert (bodies + [body])[h] == bodies[h];
    }
  }

  /** The row a test line adds. */
  lemma {:induction false} RowAdded(bodies: seq<Body>, body: Body, section: Option<Section>)
    requires section.Some? && HeadedBy(bodies, section) && body.Result?
    ensures RowFrom(bodies + [body], Row(section.value.binary, body.name, Trimmed(body.text)))
  {
    var h: nat :| h < |bodies| && bodies[h] == Header(section.value.binary)
                  && forall m :: h < m < |bodies| ==> !bodies[m].Header?;
    assert RowAt(bodies + [body], Row(section.value.binary, body.name, Trimmed(body.text)), |bodies|, h);
  }

  ghost predicate AllFrom(bodies: seq<Body>, rows: seq<Row>) {
    forall i :: 0 <= i < |rows| ==> RowFrom(bodies, rows[i])
  }

  lemma {:induction false} AllStay(bodies: seq<Body>, body: Body, rows: seq<Row>)
    requires AllFrom(bodies, rows)
    ensures AllFrom(bodies + [body], rows)
  {
    forall i | 0 <= i < |rows| ensures RowFrom(bodies + [body], rows[i]) {
      RowStays(bodies, body, rows[i]);
    }
  }

  ghost predicate ParserFrom(bodies: seq<Body>, p: Parser) {
    && AllFrom(bodies, p.rows) && HeadedBy(bodies, p.section)
    && (p.section.Some? ==>
          && AllFrom(bodies, p.section.value.rows)
          && forall i :: 0 <= i < |p.section.value.rows| ==> p.section.value.rows[i].binary == p.section.value.binary)
  }

  lemma {:induction false} TakenFrom(bodies: seq<Body>, p: Parser, body: Body)
    requires ParserFrom(bodies, p) && Take(p, body).Ok?
    ensures ParserFrom(bodies + [body], Take(p, body).value)
  {
    AllStay(bodies, body, p.rows);
    if p.section.Some? {
      AllStay(bodies, body, p.section.value.rows);
      HeadStays(bodies, body, p.section);
    }
    match body
    case Header(binary) => assert (bodies + [body])[|bodies|] == body;
    case Result(_, _, _) => RowAdded(bodies, body, p.section);
    case _ =>
  }

  lemma {:induction false} RowsFrom(bodies: seq<Body>)
    requires TakeAll(bodies).Ok?
    ensures ParserFrom(bodies, TakeAll(bodies).value)
    decreases |bodies|
  {
    if bodies != [] {
      var pre, last := bodies[..|bodies| - 1], bodies[|bodies| - 1];
      RowsFrom(pre);
      TakenFrom(pre, TakeAll(pre).value, last);
      assert pre + [last] == bodies;
    }
  }

  /** A header outside captured output, with no fragment before it. */
  ghost predicate PlainHeader(log: seq<Line>, m: nat)
    requires m < |log|
  {
    log[m].body.Header? && log[m].frags == 0 && !Captured(log, m)
  }

  ghost predicate Yields(items: seq<Item>, item: Item) {
    exists i :: 0 <= i < |items| && items[i] == item
  }

  lemma {:induction false} HeaderFed(log: seq<Line>, k: nat, scan: Scan)
    requires k < |log| && PlainHeader(log, k) && scan.captured == Capturing(false, log[..k])
    ensures Yields(Feed(scan, k + 1, log[k]).items, Item(k + 1, k + 1, log[k].body))
  {
    CapturedIsHidden(log, k);
    var items := Feed(scan, k + 1, log[k]).items;
    assert items[|items| - 1] == Item(k + 1, k + 1, log[k].body);
  }

  lemma {:induction false} YieldsMore(a: seq<Item>, b: seq<Item>, item: Item)
    requires Yields(a, item) || Yields(b, item)
    ensures Yields(a + b, item)
  {
    if i :| 0 <= i < |a| && a[i] == item {
      assert (a + b)[i] == item;
    } else {
      var i :| 0 <= i < |b| && b[i] == item;
      assert (a + b)[|a| + i] == item;
    }
  }

  /** Such a header is always yielded. */
  lemma {:induction false} HeaderYielded(log: seq<Line>, m: nat, n: nat)
    requires m < n <= |log| && PlainHeader(log, m)
    ensures Yields(Run(log[..n]).items, Item(m + 1, m + 1, log[m].body))
    decreases n
  {
    var r := Run(log[..n - 1]);
    var f := Feed(r.scan, n, log[n - 1]);
    if m == n - 1 {
      R.FlagsOnLines(log[..m]);
      HeaderFed(log, m, r.scan);
    } else {
      HeaderYielded(log, m, n - 1);
    }
    YieldsMore(r.items, f.items, Item(m + 1, m + 1, log[m].body));
    RunNext(log[..n - 1], log[n - 1]);
    assert log[..n - 1] + [log[n - 1]] == log[..n];
  }

  lemma {:induction false} HeaderInLines(log: seq<Line>, m: nat)
    requires m < |log| && PlainHeader(log, m)
    ensures Yields(Lines(log), Item(m + 1, m + 1, log[m].body))
  {
    HeaderYielded(log, m, |log|);
    assert log[..|log|] == log;
    YieldsMore(Run(log).items, Flush(Run(log).scan.pending), Item(m + 1, m + 1, log[m].body));
  }

  /** The row stands on line `k`, its binary is that of the header on line `h`, the last before it, and it is `Read`. */
  ghost predicate RowRead(log: seq<Line>, row: Row, k: nat, j: nat, h: nat) {
    && h < k < |log| && log[h].body == Header(row.binary) && !Captured(log, h)
    && (forall m: nat :: h < m < k ==> !PlainHeader(log, m))
    && exists text :: Read(log, k, j, row.name, text) && Unblanked(text, row.outcome)
  }

  /** A plain header between the lines of two yielded ones is yielded between them. */
  lemma {:induction false} HeaderBetween(log: seq<Line>, h: nat, m: nat, i: nat) returns (n: nat)
    requires h < i < |Lines(log)| && m < |log| && PlainHeader(log, m)
    requires Lines(log)[h].number - 1 < m < Lines(log)[i].number - 1
    ensures h < n < i && Lines(log)[n].body.Header?
  {
    HeaderInLines(log, m);
    var items := Lines(log);
    NumbersAscend(log);
    n :| 0 <= n < |items| && items[n] == Item(m + 1, m + 1, log[m].body);
  }

  lemma {:induction false} NumbersAscend(log: seq<Line>)
    ensures forall a, b :: 0 <= a < b < |Lines(log)| ==> Lines(log)[a].number < Lines(log)[b].number
  {
    R.OutcomesAreOwn(log);
  }

  /** The header a yielded test stands under is the last plain one before its line. */
  lemma {:induction false} UnderItsHeader(log: seq<Line>, i: nat, h: nat)
    requires h < i < |Lines(log)| && forall n :: h < n < i ==> !Lines(log)[n].body.Header?
    ensures forall m: nat :: m < |log| && Lines(log)[h].number - 1 < m < Lines(log)[i].number - 1 ==>
              !PlainHeader(log, m)
  {
    forall m: nat | m < |log| && Lines(log)[h].number - 1 < m < Lines(log)[i].number - 1
      ensures !PlainHeader(log, m)
    {
      if PlainHeader(log, m) {
        var n := HeaderBetween(log, h, m, i);
      }
    }
  }

  lemma {:induction false} ItemRow(log: seq<Line>, row: Row, i: nat, h: nat)
    requires RowAt(Bodies(Lines(log)), row, i, h)
    ensures var items := Lines(log);
      items[i].number > 0 && items[h].number > 0 && items[i].from > 0
      && RowRead(log, row, items[i].number - 1, items[i].from - 1, items[h].number - 1)
  {
    var items, bodies := Lines(log), Bodies(Lines(log));
    assert forall n :: 0 <= n < |items| ==> bodies[n] == items[n].body;
    YieldIsGenuine(log);
    NumbersAscend(log);
    UnderItsHeader(log, i, h);
    assert Genuine(log, items[i]) && Genuine(log, items[h]);
  }

  /**
   Every row of an accepted log stands on one of its lines, under the header
   of its binary, and reads what that line or the outcome line that completes
   it says. So no test is given to another binary and no noise is ever taken
   for an outcome.
   */
  lemma {:induction false} RowsAreGenuine(log: seq<Line>, row: Row)
    requires Parsed(log).Ok? && row in Parsed(log).value
    ensures exists k: nat, j: nat, h: nat :: RowRead(log, row, k, j, h)
  {
    var bodies := Bodies(Lines(log));
    RowsFrom(bodies);
    var r :| 0 <= r < |Parsed(log).value| && Parsed(log).value[r] == row;
    var i: nat, h: nat :| RowAt(bodies, row, i, h);
    ItemRow(log, row, i, h);
  }

  /** The text says `ok`: alone, before blanks, or before a message glued on beside a fragment. */
  predicate SaysOk(line: Line) {
    && (line.body.Result? || line.body.Loose?) && line.body.text.Outcome? && line.body.text.word == Passed
    && (|| line.body.text.tail.Nothing? || (line.body.Result? && line.body.text.tail.Space?)
        || (line.body.Result? && line.body.text.tail.Glued? && (line.frags > 0 || line.body.frags > 0)))
  }

  /** A row reads `ok` only where its own line says so, or has no outcome and a later line says nothing but `ok`. */
  lemma {:induction false} OkIsGenuine(log: seq<Line>, row: Row)
    requires Parsed(log).Ok? && row in Parsed(log).value && row.outcome == Outcome(Passed, Nothing, Whole)
    ensures exists k: nat, j: nat ::
              && k <= j < |log| && log[k].body.Result? && log[k].body.name == row.name && SaysOk(log[j])
              && (k < j ==> log[j].body.Loose? && !log[k].body.text.Outcome?)
  {
    RowsAreGenuine(log, row);
    var k: nat, j: nat, h: nat :| RowRead(log, row, k, j, h);
    var text :| Read(log, k, j, row.name, text) && Unblanked(text, row.outcome);
    assert k <= j < |log| && log[k].body.Result? && log[k].body.name == row.name;
  }
}
