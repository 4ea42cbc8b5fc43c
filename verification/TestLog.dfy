/**
 The lines of a cargo test log and the scan of `result_lines`, which takes
 FFmpeg's native log noise out of them and rejoins split results.

 A line is given as tokens: log fragments `[name @ addr] ` at its start, then
 what is left. A fragment counts only with its trailing space; `Noise` text
 that begins with a fragment and no space is `bare`.
 */
module TestLog {
  import opened Wrappers

  datatype Word = Passed | Failed | Ignored

  /** What follows an outcome word: nothing, blanks, a glued FFmpeg message, `, reason`, or anything else. */
  datatype Tail = Nothing | Space | Glued(t: string) | Reason(t: string) | Junk(t: string)

  /** Whether a fragment and its message end the text; `probe` if that message is the codec-parameter warning. */
  datatype Cut = Whole | Cut(probe: bool)

  datatype Text =
    | Empty
    | Outcome(word: Word, tail: Tail, cut: Cut)
    | Hls                                            // the HLS demuxer's unprefixed advisory
    | Probe                                          // the codec-parameter warning
    | Advice                                         // its unprefixed continuation
    | Marker                                         // an equipped-session NOT RUN marker
    | Bench(t: string)
    | Noise(bare: bool, probe: bool, t: string)

  datatype Tally = Tally(passed: nat, failed: nat, ignored: nat, measured: nat)

  datatype Body =
    | Header(binary: string)                         // `Running` or `Doc-tests`
    | Count(n: nat)                                  // `running n tests`
    | Summary(tally: Option<Tally>)                  // `test result:`, readable or not
    | CaptureOpen                                    // `---- name stdout ----`
    | Successes                                      // `successes:`
    | Result(name: string, frags: nat, text: Text)   // `test name ... `, fragments, text
    | Loose(text: Text)

  datatype Line = Line(frags: nat, body: Body)

  /** A yielded line. `from` is the number of the line its outcome was read from. */
  datatype Item = Item(number: nat, from: nat, body: Body)

  datatype Head = Head(number: nat, name: string)

  datatype Scan = Scan(pending: Option<Head>, probe: bool, captured: bool)

  datatype Scanned = Scanned(scan: Scan, items: seq<Item>)

  // ---- one line ----

  /** Cut a recognised outcome's trailing message. */
  function CutOff(text: Text): Text {
    if text.Outcome? then text.(cut := Whole) else text
  }

  /** The same after a fragment: a message glued to `ok` or `FAILED` goes too. */
  function CutGlued(text: Text): Text {
    if text.Outcome? && !text.word.Ignored? && text.tail.Glued? then Outcome(text.word, Nothing, Whole)
    else CutOff(text)
  }

  /** `strip_ffmpeg_log`. */
  function Stripped(line: Line): Body {
    match line.body
    case Result(name, frags, text) =>
      Result(name, 0, if line.frags > 0 || frags > 0 then CutGlued(text) else CutOff(text))
    case body => body
  }

  /** A line of its own loses the message after its outcome only where an outcome is awaited. */
  function CutLine(body: Body): Body {
    if body.Loose? then Loose(CutOff(body.text)) else body
  }

  predicate StartsBare(text: Text) {
    text.Noise? && text.bare
  }

  predicate StartsWithFragment(line: Line) {
    line.frags > 0 || (line.body.Loose? && StartsBare(line.body.text))
  }

  /** Some fragment on the line is followed by the codec-parameter warning. */
  predicate Probes(line: Line) {
    match line.body
    case Result(_, frags, text) => TextProbes(frags, text)
    case Loose(text) => TextProbes(line.frags, text)
    case _ => false
  }

  predicate TextProbes(frags: nat, text: Text) {
    match text
    case Probe => frags > 0
    case Outcome(_, _, cut) => cut.Cut? && cut.probe
    case Noise(_, probe, _) => probe
    case _ => false
  }

  predicate IsMarker(line: Line) {
    line == Line(0, Loose(Marker))
  }

  predicate IsMarkedHead(line: Line) {
    line.frags == 0 && line.body.Result? && line.body.frags == 0 && line.body.text.Marker?
  }

  /** Nothing but an outcome, once its own message is cut. */
  predicate IsOutcomeText(text: Text) {
    text.Outcome? && (text.tail.Nothing? || (text.word.Ignored? && text.tail.Reason?))
  }

  predicate IsOutcomeLine(line: Line) {
    line.body.Loose? && IsOutcomeText(line.body.text)
  }

  /** A line that a waiting result looks past. */
  predicate Skipped(probe: bool, line: Line) {
    || (probe && line == Line(0, Loose(Advice)))
    || line == Line(0, Loose(Hls))
    || (StartsWithFragment(line) && !IsOutcomeLine(line))
  }

  /** A result whose outcome is not on its line, for a recognised reason. */
  predicate Opens(line: Line) {
    && line.body.Result? && !line.body.text.Outcome?
    && (line.frags > 0 || line.body.frags > 0 || StartsBare(line.body.text) || line.body.text.Empty?
        || line.body.text.Hls?)
  }

  // ---- the scan ----

  const START := Scan(None, false, false)

  function Flush(pending: Option<Head>): seq<Item> {
    if pending.None? then []
    else [Item(pending.value.number, pending.value.number, Result(pending.value.name, 0, Empty))]
  }

  predicate Hidden(captured: bool, line: Line) {
    (captured || line == Line(0, CaptureOpen)) && !(line.frags == 0 && (line.body.Successes? || line.body.Summary?))
  }

  /** The next line stands in captured output, if the first one did as `captured` says. */
  predicate Capturing(captured: bool, log: seq<Line>) {
    if log == [] then captured else Hidden(Capturing(captured, log[..|log| - 1]), log[|log| - 1])
  }

  /** A line with nothing waiting: it opens a split result or stands for itself. */
  function Fresh(number: nat, line: Line, body: Body): Scanned {
    if Opens(line) then Scanned(Scan(Some(Head(number, line.body.name)), Probes(line), false), [])
    else Scanned(Scan(None, Probes(line), false), [Item(number, number, body)])
  }

  /** A line with `head` waiting. */
  function Awaited(head: Head, probe: bool, number: nat, line: Line): Scanned {
    if Skipped(probe, line) then Scanned(Scan(Some(head), Probes(line), false), [])
    else if IsOutcomeLine(line) then
      Scanned(Scan(None, Probes(line), false),
              [Item(head.number, number, Result(head.name, 0, CutOff(line.body.text)))])
    else
      var next := Fresh(number, line, CutLine(Stripped(line)));
      next.(items := Flush(Some(head)) + next.items)
  }

  function Feed(scan: Scan, number: nat, line: Line): Scanned {
    if Hidden(scan.captured, line) then Scanned(scan.(captured := true), [])
    else if IsMarker(line) then Scanned(scan.(captured := false), [])
    else if IsMarkedHead(line) then
      Scanned(Scan(Some(Head(number, line.body.name)), scan.probe, false), Flush(scan.pending))
    else if scan.pending.Some? then Awaited(scan.pending.value, scan.probe, number, line)
    else Fresh(number, line, Stripped(line))
  }

  /** The scan of a whole log, before its end is reached. */
  function Run(log: seq<Line>): Scanned
    decreases |log|
  {
    if log == [] then Scanned(START, [])
    else
      var r := Run(log[..|log| - 1]);
      var f := Feed(r.scan, |log|, log[|log| - 1]);
      Scanned(f.scan, r.items + f.items)
  }

  function Lines(log: seq<Line>): seq<Item> {
    Run(log).items + Flush(Run(log).scan.pending)
  }

  /** One more line. */
  lemma {:induction false} RunNext(log: seq<Line>, line: Line)
    ensures Run(log + [line]).scan == Feed(Run(log).scan, |log| + 1, line).scan
    ensures Run(log + [line]).items == Run(log).items + Feed(Run(log).scan, |log| + 1, line).items
  {
    assert (log + [line])[..|log|] == log;
  }

  /** `result_lines`, as its loop runs. */
  method ResultLines(log: seq<Line>) returns (items: seq<Item>)
    ensures items == Lines(log)
  {
    items := [];
    var pending: Option<Head>, probe, captured := None, false, false;
    for k := 0 to |log|
      invariant Run(log[..k]) == Scanned(Scan(pending, probe, captured), items)
    {
      var line, number := log[k], k + 1;
      RunNext(log[..k], line);
      assert log[..k] + [line] == log[..k + 1];
      if line == Line(0, CaptureOpen) {
        captured := true;
      }
      if captured {
        if line.frags == 0 && (line.body.Successes? || line.body.Summary?) {
          captured := false;
        } else {
          continue;
        }
      }
      if IsMarker(line) {
        continue;
      }
      if IsMarkedHead(line) {
        if pending.Some? {
          items := items + Flush(pending);
        }
        pending := Some(Head(number, line.body.name));
        continue;
      }
      var advice := probe && line == Line(0, Loose(Advice));
      probe := Probes(line);
      var body := Stripped(line);
      if pending.Some? {
        body := CutLine(body);
        if advice || line == Line(0, Loose(Hls)) || (StartsWithFragment(line) && !IsOutcomeLine(line)) {
          continue;
        }
        if IsOutcomeLine(line) {
          items := items + [Item(pending.value.number, number, Result(pending.value.name, 0, CutOff(line.body.text)))];
          pending := None;
          continue;
        }
        items := items + Flush(pending);
        pending := None;
      }
      if Opens(line) {
        pending := Some(Head(number, line.body.name));
        continue;
      }
      items := items + [Item(number, number, body)];
    }
    assert log[..|log|] == log;
    items := items + Flush(pending);
  }
}
