/**
 What `result_lines` conserves: which results it yields, in which order, and
 where each takes its outcome from.
 */
module TestLogResults {
  import opened Wrappers
  import opened TestLog
  import Permutations

  // ---- every result once, in order ----

  /** The results among the yielded lines. */
  function HeadsOf(items: seq<Item>): seq<Head> {
    if items == [] then []
    else
      var last := items[|items| - 1];
      HeadsOf(items[..|items| - 1]) + (if last.body.Result? then [Head(last.number, last.body.name)] else [])
  }

  /** The results on the log's lines, outside captured output. */
  function HeadsIn(log: seq<Line>): seq<Head> {
    if log == [] then []
    else
      var n := |log|;
      HeadsIn(log[..n - 1]) +
      (if log[n - 1].body.Result? && !Hidden(Run(log[..n - 1]).scan.captured, log[n - 1])
       then [Head(n, log[n - 1].body.name)] else [])
  }

  /** A result line behind a fragment while another result waits for its outcome. */
  predicate Swallows(scan: Scan, line: Line) {
    scan.pending.Some? && line.body.Result? && line.frags > 0 && !Hidden(scan.captured, line)
  }

  predicate LosesAt(log: seq<Line>, k: nat) {
    k < |log| && Swallows(Run(log[..k]).scan, log[k])
  }

  ghost predicate Loses(log: seq<Line>) {
    exists k: nat :: LosesAt(log, k)
  }

  function Waiting(scan: Scan): seq<Head> {
    if scan.pending.Some? then [scan.pending.value] else []
  }

  lemma {:induction false} HeadsAppend(a: seq<Item>, b: seq<Item>)
    ensures HeadsOf(a + b) == HeadsOf(a) + HeadsOf(b)
    decreases |b|
  {
    if b == [] {
      assert a + b == a;
    } else {
      HeadsAppend(a, b[..|b| - 1]);
      assert (a + b)[..|a + b| - 1] == a + b[..|b| - 1];
    }
  }

  lemma {:induction false} HeadsOfFew(items: seq<Item>)
    ensures |items| == 1 ==> HeadsOf(items) == if items[0].body.Result?
      then [Head(items[0].number, items[0].body.name)] else []
    ensures |items| == 2 ==> HeadsOf(items) == HeadsOf([items[0]]) + HeadsOf([items[1]])
  {
    if |items| == 1 {
      assert items[..0] == [];
    } else if |items| == 2 {
      assert items == [items[0]] + [items[1]];
      HeadsAppend([items[0]], [items[1]]);
    }
  }

  /** The result a line adds to the yield. */
  function Added(scan: Scan, number: nat, line: Line): seq<Head> {
    if line.body.Result? && !Hidden(scan.captured, line)
        && !Swallows(scan, line) then [Head(number, line.body.name)] else []
  }

  function OwnHead(number: nat, line: Line): seq<Head> {
    if line.body.Result? then [Head(number, line.body.name)] else []
  }

  lemma {:induction false} FreshHeads(number: nat, line: Line, body: Body)
    requires body == Stripped(line) || body == CutLine(Stripped(line))
    ensures var f := Fresh(number, line, body); HeadsOf(f.items) + Waiting(f.scan) == OwnHead(number, line)
  {
    HeadsOfFew(Fresh(number, line, body).items);
  }

  lemma {:induction false} AwaitedHeads(head: Head, probe: bool, number: nat, line: Line)
    ensures var f := Awaited(head, probe, number, line);
      HeadsOf(f.items) + Waiting(f.scan) == [head] + (if line.frags > 0 then [] else OwnHead(number, line))
  {
    var r := Fresh(number, line, CutLine(Stripped(line)));
    HeadsOfFew(Awaited(head, probe, number, line).items);
    if !Skipped(probe, line) && !IsOutcomeLine(line) {
      FreshHeads(number, line, CutLine(Stripped(line)));
      HeadsOfFew(Flush(Some(head)));
      HeadsAppend(Flush(Some(head)), r.items);
      Permutations.Regroup([head], HeadsOf(r.items), Waiting(r.scan));
    }
  }

  /** One line moves at most its own head through the waiting place. */
  lemma {:induction false} FeedHeads(scan: Scan, number: nat, line: Line)
    ensures var f := Feed(scan, number, line);
      HeadsOf(f.items) + Waiting(f.scan) == Waiting(scan) + Added(scan, number, line)
  {
    var f := Feed(scan, number, line);
    if Hidden(scan.captured, line) || IsMarker(line) {
      assert f.items == [] && Waiting(f.scan) == Waiting(scan) && Added(scan, number, line) == [];
    } else if IsMarkedHead(line) {
      HeadsOfFew(Flush(scan.pending));
      assert HeadsOf(f.items) == Waiting(scan) && Waiting(f.scan) == OwnHead(number, line) == Added(scan, number, line);
    } else if scan.pending.Some? {
      AwaitedHeads(scan.pending.value, scan.probe, number, line);
      assert Added(scan, number, line) == if line.frags > 0 then [] else OwnHead(number, line);
    } else {
      FreshHeads(number, line, Stripped(line));
      assert Waiting(scan) == [] && Added(scan, number, line) == OwnHead(number, line);
    }
  }

  /** The results yielded so far and the one still waiting. */
  function Yielded(log: seq<Line>): seq<Head> {
    HeadsOf(Run(log).items) + Waiting(Run(log).scan)
  }

  lemma {:induction false} YieldedNext(log: seq<Line>)
    requires log != []
    ensures var n := |log|; Yielded(log) == Yielded(log[..n - 1]) + Added(Run(log[..n - 1]).scan, n, log[n - 1])
  {
    var n := |log|;
    var r := Run(log[..n - 1]);
    var f := Feed(r.scan, n, log[n - 1]);
    FeedHeads(r.scan, n, log[n - 1]);
    HeadsAppend(r.items, f.items);
    Regroup(HeadsOf(r.items), HeadsOf(f.items), Waiting(f.scan), Waiting(r.scan), Added(r.scan, n, log[n - 1]));
  }

  lemma {:induction false} Regroup(a: seq<Head>, b: seq<Head>, c: seq<Head>, d: seq<Head>, e: seq<Head>)
    requires b + c == d + e
    ensures (a + b) + c == (a + d) + e
  {
    assert (a + b) + c == a + (b + c);
    assert (a + d) + e == a + (d + e);
  }

  lemma {:induction false} HeadsKept(log: seq<Line>)
    ensures |Yielded(log)| <= |HeadsIn(log)|
    ensures Loses(log) <==> |Yielded(log)| < |HeadsIn(log)|
    ensures !Loses(log) ==> Yielded(log) == HeadsIn(log)
    decreases |log|
  {
    if log != [] {
      HeadsKept(log[..|log| - 1]);
      YieldedNext(log);
      LosesNext(log);
    }
  }

  lemma {:induction false} LosesInPrefix(log: seq<Line>, n: nat, k: nat)
    requires k < n <= |log|
    ensures LosesAt(log, k) <==> LosesAt(log[..n], k)
  {
    assert log[..k] == log[..n][..k];
  }

  lemma {:induction false} LosesNext(log: seq<Line>)
    requires log != []
    ensures Loses(log) <==> Loses(log[..|log| - 1]) || LosesAt(log, |log| - 1)
  {
    var n := |log| - 1;
    if Loses(log) {
      var k: nat :| LosesAt(log, k);
      if k < n {
        LosesInPrefix(log, n, k);
      }
    }
    if Loses(log[..n]) {
      var k: nat :| LosesAt(log[..n], k);
      LosesInPrefix(log, n, k);
    }
  }

  /**
   Each result on a line of the log is yielded exactly once and in order if
   and only if no result line behind a fragment meets a waiting result.
   */
  lemma {:induction false} ResultsConserved(log: seq<Line>)
    ensures HeadsOf(Lines(log)) == HeadsIn(log) <==> !Loses(log)
  {
    var r := Run(log);
    HeadsKept(log);
    HeadsAppend(r.items, Flush(r.scan.pending));
    HeadsOfFew(Flush(r.scan.pending));
  }

  /** The conservation does fail: here the second result is read as a message of the first. */
  lemma {:induction false} AFragmentHidesAResult()
    ensures var log := [Line(0, Result("a", 0, Empty)), Line(1, Result("b", 0, Outcome(Passed, Nothing, Whole)))];
      && HeadsIn(log) == [Head(1, "a"), Head(2, "b")]
      && Lines(log) == [Item(1, 1, Result("a", 0, Empty))]
  {
    var a, b := Line(0, Result("a", 0, Empty)), Line(1, Result("b", 0, Outcome(Passed, Nothing, Whole)));
    assert Run([]) == Scanned(START, []);
    RunNext([], a);
    assert [] + [a] == [a] && [a] + [b] == [a, b] && [a][..0] == [] && [a, b][..1] == [a];
    RunNext([a], b);
    assert HeadsIn([a]) == HeadsIn([]) + [Head(1, "a")];
  }

  // ---- the same condition on the lines alone ----

  /** The last line that counts carries the codec-parameter warning. */
  predicate Warned(log: seq<Line>) {
    log != [] &&
    var before, last := log[..|log| - 1], log[|log| - 1];
    if Hidden(Capturing(false, before), last) || IsMarker(last) || IsMarkedHead(last) then Warned(before)
    else Probes(last)
  }

  predicate Visible(log: seq<Line>, k: nat)
    requires k < |log|
  {
    !Hidden(Capturing(false, log[..k]), log[k])
  }

  /** The line is a result without its outcome, for a recognised reason. */
  predicate OpensAt(log: seq<Line>, k: nat)
    requires k < |log|
  {
    Visible(log, k) && (Opens(log[k]) || IsMarkedHead(log[k]))
  }

  /** The line is one a waiting result looks past. */
  predicate PassedAt(log: seq<Line>, k: nat)
    requires k < |log|
  {
    !Visible(log, k) || IsMarker(log[k]) || Skipped(Warned(log[..k]), log[k])
  }

  /** From an opening line on, everything before line `n` is looked past. */
  predicate WaitsFrom(log: seq<Line>, i: nat, n: nat)
    requires n <= |log|
  {
    i < n && OpensAt(log, i) && forall j :: i < j < n ==> PassedAt(log, j)
  }

  /** An opening line, only lines that are looked past, then a result line behind a fragment. */
  predicate HidesAt(log: seq<Line>, i: nat, k: nat)
    requires k < |log|
  {
    WaitsFrom(log, i, k) && Visible(log, k) && log[k].body.Result? && log[k].frags > 0
  }

  lemma {:induction false} FlagsOnLines(log: seq<Line>)
    ensures Run(log).scan.captured == Capturing(false, log) && Run(log).scan.probe == Warned(log)
    decreases |log|
  {
    if log != [] {
      FlagsOnLines(log[..|log| - 1]);
    }
  }

  /** What one line does to the waiting place. */
  lemma {:induction false} WaitingAfter(scan: Scan, number: nat, line: Line)
    ensures Feed(scan, number, line).scan.pending.Some? <==>
            || (!Hidden(scan.captured, line) && (Opens(line) || IsMarkedHead(line)))
            || (scan.pending.Some? && (Hidden(scan.captured, line) || IsMarker(line) || Skipped(scan.probe, line)))
  {
  }

  ghost predicate Waits(log: seq<Line>, n: nat)
    requires n <= |log|
  {
    exists i: nat :: WaitsFrom(log, i, n)
  }

  lemma {:induction false} WaitsNext(log: seq<Line>, m: nat)
    requires m < |log|
    ensures Waits(log, m + 1) <==> OpensAt(log, m) || (PassedAt(log, m) && Waits(log, m))
  {
    if OpensAt(log, m) {
      assert WaitsFrom(log, m, m + 1);
    }
    if PassedAt(log, m) && Waits(log, m) {
      var i: nat :| WaitsFrom(log, i, m);
      assert WaitsFrom(log, i, m + 1);
    }
    if Waits(log, m + 1) {
      var i: nat :| WaitsFrom(log, i, m + 1);
      if i < m {
        assert PassedAt(log, m) && WaitsFrom(log, i, m);
      }
    }
  }

  lemma {:induction false} WaitingOnLines(log: seq<Line>, n: nat)
    requires n <= |log|
    ensures Run(log[..n]).scan.pending.Some? <==> Waits(log, n)
    decreases n
  {
    if n == 0 {
      assert log[..0] == [];
    } else {
      WaitingOnLines(log, n - 1);
      FlagsOnLines(log[..n - 1]);
      WaitingAfter(Run(log[..n - 1]).scan, n, log[n - 1]);
      WaitsNext(log, n - 1);
      assert log[..n - 1] + [log[n - 1]] == log[..n];
      RunNext(log[..n - 1], log[n - 1]);
    }
  }

  lemma {:induction false} LosesOnLines(log: seq<Line>)
    ensures Loses(log) <==> exists i: nat, k: nat :: k < |log| && HidesAt(log, i, k)
  {
    if Loses(log) {
      var k: nat :| LosesAt(log, k);
      WaitingOnLines(log, k);
      FlagsOnLines(log[..k]);
      var i: nat :| WaitsFrom(log, i, k);
      assert HidesAt(log, i, k);
    }
    if i: nat, k: nat :| k < |log| && HidesAt(log, i, k) {
      WaitingOnLines(log, k);
      FlagsOnLines(log[..k]);
      assert LosesAt(log, k);
    }
  }

  /** Results are conserved exactly if no result line behind a fragment follows an opening line across such lines. */
  lemma {:induction false} ResultsConservedOnLines(log: seq<Line>)
    ensures HeadsOf(Lines(log)) == HeadsIn(log) <==> !exists i: nat, k: nat :: k < |log| && HidesAt(log, i, k)
  {
    ResultsConserved(log);
    LosesOnLines(log);
  }

  // ---- where an outcome comes from ----

  predicate OpensResult(line: Line) {
    Opens(line) || IsMarkedHead(line)
  }

  /** The yielded line is its own line, or a split result with no outcome or with that of a later outcome line. */
  predicate Founded(log: seq<Line>, item: Item) {
    && 1 <= item.number <= item.from <= |log|
    && var own := log[item.number - 1];
       || (item.from == item.number && (item.body == Stripped(own) || item.body == CutLine(Stripped(own))))
       || (OpensResult(own) && item.from == item.number && item.body == Result(own.body.name, 0, Empty))
       || (&& OpensResult(own) && item.from > item.number && IsOutcomeLine(log[item.from - 1])
           && item.body == Result(own.body.name, 0, CutOff(log[item.from - 1].body.text)))
  }

  predicate Spread(items: seq<Item>, bound: nat) {
    && (forall i :: 0 <= i < |items| ==> items[i].from < bound)
    && (forall i, j :: 0 <= i < j < |items| ==> items[i].from < items[j].number)
  }

  predicate Sound(log: seq<Line>, r: Scanned) {
    && (forall i :: 0 <= i < |r.items| ==> Founded(log, r.items[i]))
    && (match r.scan.pending
        case None => Spread(r.items, |log| + 1)
        case Some(head) =>
          && 1 <= head.number <= |log| && Spread(r.items, head.number)
          && OpensResult(log[head.number - 1]) && log[head.number - 1].body.name == head.name)
  }

  lemma {:induction false} SpreadMore(items: seq<Item>, bound: nat, more: seq<Item>, bound': nat)
    requires Spread(items, bound) && Spread(more, bound') && bound <= bound'
    requires forall j :: 0 <= j < |more| ==> bound <= more[j].number
    ensures Spread(items + more, bound')
  {
  }

  lemma {:induction false} FoundedGrows(log: seq<Line>, line: Line, items: seq<Item>)
    requires forall i :: 0 <= i < |items| ==> Founded(log, items[i])
    ensures forall i :: 0 <= i < |items| ==> Founded(log + [line], items[i])
  {
    forall i | 0 <= i < |items| ensures Founded(log + [line], items[i]) {
      assert Founded(log, items[i]);
    }
  }

  predicate Placed(log: seq<Line>, pending: Option<Head>) {
    pending.Some? ==>
      var head := pending.value;
      1 <= head.number <= |log| && OpensResult(log[head.number - 1]) && log[head.number - 1].body.name == head.name
  }

  /** What one line yields, given the head that waits. */
  predicate FedWell(log: seq<Line>, pending: Option<Head>, f: Scanned) {
    && Sound(log, f)
    && (forall j :: 0 <= j < |f.items| ==> (if pending.Some? then pending.value.number else |log|) <= f.items[j].number)
    && (f.scan.pending.Some? ==> (f.scan.pending == pending && f.items == []) || f.scan.pending.value.number == |log|)
  }

  lemma {:induction false} FreshSound(log: seq<Line>, line: Line, body: Body)
    requires body == Stripped(line) || body == CutLine(Stripped(line))
    ensures FedWell(log + [line], None, Fresh(|log| + 1, line, body))
  {
    assert (log + [line])[|log|] == line;
  }

  lemma {:induction false} FlushSound(log: seq<Line>, head: Head, f: Scanned)
    requires Placed(log, Some(head)) && head.number < |log| && FedWell(log, None, f)
    ensures FedWell(log, Some(head), f.(items := Flush(Some(head)) + f.items))
  {
    assert Founded(log, Flush(Some(head))[0]);
    SpreadMore(Flush(Some(head)), head.number + 1, f.items, if f.scan.pending.Some? then f.scan.pending.value.number
               else |log| + 1);
  }

  lemma {:induction false} AwaitedSound(log: seq<Line>, head: Head, probe: bool, line: Line)
    requires Placed(log, Some(head))
    ensures FedWell(log + [line], Some(head), Awaited(head, probe, |log| + 1, line))
  {
    assert (log + [line])[head.number - 1] == log[head.number - 1];
    FreshSound(log, line, CutLine(Stripped(line)));
    FlushSound(log + [line], head, Fresh(|log| + 1, line, CutLine(Stripped(line))));
  }

  lemma {:induction false} MarkedSound(log: seq<Line>, scan: Scan, line: Line)
    requires Placed(log, scan.pending) && IsMarkedHead(line)
    ensures FedWell(log + [line], scan.pending,
                    Scanned(Scan(Some(Head(|log| + 1, line.body.name)), scan.probe, false), Flush(scan.pending)))
  {
    var r := Scanned(Scan(Some(Head(|log| + 1, line.body.name)), scan.probe, false), []);
    assert (log + [line])[|log|] == line;
    if scan.pending.Some? {
      assert (log + [line])[scan.pending.value.number - 1] == log[scan.pending.value.number - 1];
      FlushSound(log + [line], scan.pending.value, r);
    }
  }

  lemma {:induction false} FeedSound(log: seq<Line>, scan: Scan, line: Line)
    requires Placed(log, scan.pending)
    ensures FedWell(log + [line], scan.pending, Feed(scan, |log| + 1, line))
  {
    if Hidden(scan.captured, line) || IsMarker(line) {
      assert scan.pending.Some? ==> (log + [line])[scan.pending.value.number - 1] == log[scan.pending.value.number - 1];
    } else if IsMarkedHead(line) {
      MarkedSound(log, scan, line);
    } else if scan.pending.Some? {
      AwaitedSound(log, scan.pending.value, scan.probe, line);
    } else {
      FreshSound(log, line, Stripped(line));
    }
  }

  lemma {:induction false} RunSound(log: seq<Line>)
    ensures Sound(log, Run(log))
    decreases |log|
  {
    if log != [] {
      var n := |log|;
      var pre, line := log[..n - 1], log[n - 1];
      assert pre + [line] == log;
      var r := Run(pre);
      var f := Feed(r.scan, n, line);
      RunSound(pre);
      FeedSound(pre, r.scan, line);
      FoundedGrows(pre, line, r.items);
      var bound := if r.scan.pending.Some? then r.scan.pending.value.number else n;
      var bound' := if f.scan.pending.Some? then f.scan.pending.value.number else n + 1;
      if f.items == [] {
        assert r.items + f.items == r.items;
      } else {
        SpreadMore(r.items, bound, f.items, bound');
      }
    }
  }

  /**
   A result takes its outcome from its own line or from one later line that
   is nothing but an outcome; no line serves two results, and the lines two
   results stand on do not interleave.
   */
  lemma {:induction false} OutcomesAreOwn(log: seq<Line>)
    ensures var items := Lines(log);
      && (forall i :: 0 <= i < |items| ==> Founded(log, items[i]))
      && (forall i, j :: 0 <= i < j < |items| ==> items[i].number <= items[i].from < items[j].number)
  {
    RunSound(log);
    var r := Run(log);
    var items := Lines(log);
    assert forall i :: 0 <= i < |r.items| ==> items[i] == r.items[i];
  }
}
