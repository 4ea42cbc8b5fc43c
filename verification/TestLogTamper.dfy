/**
 Deleting or repeating one structural line of an accepted log is noticed.

 Three balances are level at the end of every accepted log: headers against
 counts, headers against summaries, and test lines against announced tests.
 Every structural line weighs on one of them.
 */
module TestLogTamper {
  import opened Wrappers
  import opened TestLog
  import opened TestLogParse
  import opened Permutations

  datatype Balance = OfCounts | OfSummaries | OfTests

  function Weight(b: Balance, body: Body): int {
    match b
    case OfCounts => if body.Header? then 1 else if body.Count? then -1 else 0
    case OfSummaries => if body.Header? then 1 else if body.Summary? && body.tally.Some? then -1 else 0
    case OfTests => if body.Result? then 1 else if body.Count? then 0 - body.n else 0
  }

  function Sum(b: Balance, bodies: seq<Body>): int {
    if bodies == [] then 0 else Sum(b, bodies[..|bodies| - 1]) + Weight(b, bodies[|bodies| - 1])
  }

  lemma {:induction false} SumAppend(b: Balance, xs: seq<Body>, ys: seq<Body>)
    ensures Sum(b, xs + ys) == Sum(b, xs) + Sum(b, ys)
    decreases |ys|
  {
    if ys == [] {
      assert xs + ys == xs;
    } else {
      SumAppend(b, xs, ys[..|ys| - 1]);
      assert (xs + ys)[..|xs + ys| - 1] == xs + ys[..|ys| - 1];
    }
  }

  /** What the open section still owes each balance. */
  function Outstanding(b: Balance, section: Option<Section>): int {
    if section.None? then 0
    else
      var s := section.value;
      match b
      case OfCounts => if s.running.None? then 1 else 0
      case OfSummaries => 1
      case OfTests => |s.rows| - if s.running.Some? then s.running.value else 0
  }

  lemma {:induction false} Balances(b: Balance, bodies: seq<Body>)
    requires TakeAll(bodies).Ok?
    ensures Sum(b, bodies) == Outstanding(b, TakeAll(bodies).value.section)
    decreases |bodies|
  {
    if bodies != [] {
      Balances(b, bodies[..|bodies| - 1]);
    }
  }

  lemma {:induction false} AcceptedIsLevel(b: Balance, bodies: seq<Body>)
    requires ParseBodies(bodies).Ok?
    ensures Sum(b, bodies) == 0
  {
    Balances(b, bodies);
  }

  /** Taking a stretch that weighs on a balance out of an accepted log, or putting it in again, is rejected. */
  lemma {:induction false} UnevenIsRejected(b: Balance, pre: seq<Body>, mid: seq<Body>, post: seq<Body>)
    requires ParseBodies(pre + mid + post).Ok? && Sum(b, mid) != 0
    ensures ParseBodies(pre + post).Err? && ParseBodies(pre + mid + mid + post).Err?
  {
    AcceptedIsLevel(b, pre + mid + post);
    SumAppend(b, pre + mid, post);
    SumAppend(b, pre, mid);
    SumAppend(b, pre, post);
    SumAppend(b, pre + mid + mid, post);
    SumAppend(b, pre + mid, mid);
    if ParseBodies(pre + post).Ok? {
      AcceptedIsLevel(b, pre + post);
    }
    if ParseBodies(pre + mid + mid + post).Ok? {
      AcceptedIsLevel(b, pre + mid + mid + post);
    }
  }

  function Scale(body: Body): Balance {
    if body.Header? || body.Count? then OfCounts else if body.Summary? then OfSummaries else OfTests
  }

  /** Of an accepted sequence of yielded lines, no structural line can be deleted or repeated. */
  lemma {:induction false} LineTamperingIsRejected(pre: seq<Body>, body: Body, post: seq<Body>)
    requires ParseBodies(pre + [body] + post).Ok? && Structural(body)
    ensures ParseBodies(pre + post).Err? && ParseBodies(pre + [body] + [body] + post).Err?
  {
    var b := Scale(body);
    assert Sum(b, [body]) == Sum(b, []) + Weight(b, body);
    UnevenIsRejected(b, pre, [body], post);
  }

  // ---- a summary that is cut out ----

  /** The first structural line. */
  function FirstStructural(bodies: seq<Body>): Option<Body> {
    if bodies == [] then None
    else if Structural(bodies[0]) then Some(bodies[0])
    else FirstStructural(bodies[1..])
  }

  predicate HasTest(bodies: seq<Body>) {
    exists i :: 0 <= i < |bodies| && bodies[i].Result?
  }

  /** A parser has rows exactly if it took a test line. */
  lemma {:induction false} RowsAreTests(bodies: seq<Body>)
    requires TakeAll(bodies).Ok?
    ensures var p := TakeAll(bodies).value;
      && (HasTest(bodies) <==> p.rows != [] || (p.section.Some? && p.section.value.rows != []))
      && (p.sections == 0 ==> p.rows == [] && p.section.None?)
    decreases |bodies|
  {
    if bodies != [] {
      var pre, last := bodies[..|bodies| - 1], bodies[|bodies| - 1];
      RowsAreTests(pre);
      assert bodies == pre + [last];
      assert HasTest(bodies) <==> HasTest(pre) || last.Result? by {
        if last.Result? {
          assert bodies[|pre|].Result?;
        }
        if HasTest(pre) {
          var i :| 0 <= i < |pre| && pre[i].Result?;
          assert bodies[i].Result?;
        }
      }
    }
  }

  lemma {:induction false} AcceptedIff(bodies: seq<Body>)
    ensures ParseBodies(bodies).Ok? <==>
            TakeAll(bodies).Ok? && TakeAll(bodies).value.section.None? && HasTest(bodies)
  {
    if TakeAll(bodies).Ok? {
      RowsAreTests(bodies);
    }
  }

  /** Lines that are not structural change nothing. */
  lemma {:induction false} LooseTaken(a: seq<Body>, n: seq<Body>)
    requires forall i :: 0 <= i < |n| ==> !Structural(n[i])
    ensures TakeAll(a + n) == TakeAll(a)
    decreases |n|
  {
    if n == [] {
      assert a + n == a;
    } else {
      LooseTaken(a, n[..|n| - 1]);
      TakeNext(a + n[..|n| - 1], n[|n| - 1]);
      assert a + n == a + n[..|n| - 1] + [n[|n| - 1]];
    }
  }

  /** The lines before and after the first structural one. */
  lemma {:induction false} SplitAtFirst(bodies: seq<Body>) returns (n: seq<Body>, rest: seq<Body>)
    ensures forall i :: 0 <= i < |n| ==> !Structural(n[i])
    ensures var first := FirstStructural(bodies);
      if first.None? then bodies == n else Structural(first.value) && bodies == n + [first.value] + rest
    decreases |bodies|
  {
    if bodies == [] {
      n, rest := [], [];
    } else if Structural(bodies[0]) {
      n, rest := [], bodies[1..];
    } else {
      n, rest := SplitAtFirst(bodies[1..]);
      n := [bodies[0]] + n;
      assert bodies == [bodies[0]] + bodies[1..];
    }
  }

  /** Trouble in a prefix is trouble for good. */
  lemma {:induction false} PrefixTaken(a: seq<Body>, b: seq<Body>)
    requires TakeAll(a + b).Ok?
    ensures TakeAll(a).Ok?
  {
    if TakeAll(a).Err? {
      assert (a + b)[..|a|] == a;
      TroubleStays(a + b, |a|);
    }
  }

  /** What a parser takes, and the section it is then in, depend on its section alone. */
  lemma {:induction false} TakenAlike(p: Parser, q: Parser, body: Body)
    requires p.section == q.section
    ensures Take(p, body).Ok? <==> Take(q, body).Ok?
    ensures Take(p, body).Ok? ==> Take(p, body).value.section == Take(q, body).value.section
  {
  }

  /** After a closed section the rest is taken alike, whatever came before. */
  lemma {:induction false} TailTakenAlike(a: seq<Body>, b: seq<Body>, y: seq<Body>)
    requires TakeAll(a).Ok? && TakeAll(b).Ok? && TakeAll(a).value.section.None? && TakeAll(b).value.section.None?
    ensures TakeAll(a + y).Ok? <==> TakeAll(b + y).Ok?
    ensures TakeAll(a + y).Ok? ==> TakeAll(a + y).value.section == TakeAll(b + y).value.section
    decreases |y|
  {
    if y == [] {
      assert a + y == a && b + y == b;
    } else {
      var z, last := y[..|y| - 1], y[|y| - 1];
      TailTakenAlike(a, b, z);
      TakeNext(a + z, last);
      TakeNext(b + z, last);
      if TakeAll(a + z).Ok? {
        TakenAlike(TakeAll(a + z).value, TakeAll(b + z).value, last);
      }
      assert a + y == a + z + [last] && b + y == b + z + [last];
    }
  }

  /** A full section takes no more tests: what is not its summary leaves it unclosable. */
  ghost predicate Overfull(p: Parser) {
    p.section.Some? && p.section.value.running.Some? && |p.section.value.rows| > p.section.value.running.value
  }

  lemma {:induction false} OverfullStays(a: seq<Body>, y: seq<Body>)
    requires TakeAll(a).Ok? && Overfull(TakeAll(a).value)
    ensures TakeAll(a + y).Ok? ==> Overfull(TakeAll(a + y).value)
    decreases |y|
  {
    if y == [] {
      assert a + y == a;
    } else {
      var z, last := y[..|y| - 1], y[|y| - 1];
      OverfullStays(a, z);
      TakeNext(a + z, last);
      assert a + y == a + z + [last];
    }
  }

  /**
   Cutting a summary and what follows it up to a later point out of an
   accepted log is accepted if and only if the first structural line after the
   cut is the same summary and a test line is left.
   */
  lemma {:induction false} SummaryCutOut(a: seq<Body>, tally: Tally, z: seq<Body>, w: seq<Body>)
    requires ParseBodies(a + [Summary(Some(tally))] + z + w).Ok?
    ensures ParseBodies(a + w).Ok? <==> FirstStructural(w) == Some(Summary(Some(tally))) && HasTest(a + w)
  {
    var s := Summary(Some(tally));
    PrefixTaken(a + [s] + z, w);
    PrefixTaken(a + [s], z);
    PrefixTaken(a, [s]);
    TakeNext(a, s);
    var n, rest := SplitAtFirst(w);
    var first := FirstStructural(w);
    LooseTaken(a, n);
    AcceptedIff(a + w);
    if first == Some(s) {
      CutAccepted(a, s, z, n, rest);
    } else if first.Some? {
      CutRejected(a, tally, n, first.value, rest);
    }
  }

  lemma {:induction false} CutAccepted(a: seq<Body>, s: Body, z: seq<Body>, n: seq<Body>, rest: seq<Body>)
    requires s.Summary? && s.tally.Some? && forall i :: 0 <= i < |n| ==> !Structural(n[i])
    requires ParseBodies(a + [s] + z + (n + [s] + rest)).Ok?
    ensures var x := TakeAll(a + (n + [s] + rest)); x.Ok? && x.value.section.None?
  {
    var early, late := a + n + [s], a + [s] + z + n + [s];
    assert a + [s] + z + (n + [s] + rest) == late + rest;
    assert a + (n + [s] + rest) == early + rest;
    PrefixTaken(late, rest);
    PrefixTaken(a + [s] + z + n, [s]);
    TakeNext(a + [s] + z + n, s);
    assert late == a + [s] + (z + n + [s]);
    PrefixTaken(a + [s], z + n + [s]);
    PrefixTaken(a, [s]);
    TakeNext(a, s);
    LooseTaken(a, n);
    TakeNext(a + n, s);
    TailTakenAlike(early, late, rest);
  }

  lemma {:induction false} CutRejected(a: seq<Body>, tally: Tally, n: seq<Body>, first: Body, rest: seq<Body>)
    requires TakeAll(a).Ok? && TakeAll(a + n) == TakeAll(a) && Take(TakeAll(a).value, Summary(Some(tally))).Ok?
    requires Structural(first) && first != Summary(Some(tally))
    ensures var x := TakeAll(a + (n + [first] + rest)); x.Ok? ==> x.value.section.Some?
  {
    var one := a + n + [first];
    assert a + (n + [first] + rest) == one + rest;
    TakeNext(a + n, first);
    if TakeAll(one + rest).Ok? {
      PrefixTaken(one, rest);
      OverfullStays(one, rest);
    }
  }

  // ---- on the raw lines ----

  /** The yielded lines of a log in which nothing waits. */
  function Shown(captured: bool, log: seq<Line>): seq<Body> {
    if log == [] then []
    else
      var before, last := log[..|log| - 1], log[|log| - 1];
      Shown(captured, before) +
      (if Hidden(Capturing(captured, before), last) || IsMarker(last) then [] else [Stripped(last)])
  }

  /** No result outside captured output is split. */
  predicate Unsplit(captured: bool, log: seq<Line>) {
    log == [] ||
    (var before, last := log[..|log| - 1], log[|log| - 1];
     && Unsplit(captured, before)
     && (Hidden(Capturing(captured, before), last) || !(Opens(last) || IsMarkedHead(last))))
  }

  lemma {:induction false} UnsplitLines(log: seq<Line>)
    requires Unsplit(false, log)
    ensures Run(log).scan.pending.None? && Run(log).scan.captured == Capturing(false, log)
    ensures Bodies(Run(log).items) == Shown(false, log)
    decreases |log|
  {
    if log != [] {
      var n := |log|;
      UnsplitLines(log[..n - 1]);
      var r := Run(log[..n - 1]);
      var f := Feed(r.scan, n, log[n - 1]);
      assert f.items == if Hidden(r.scan.captured, log[n - 1]) || IsMarker(log[n - 1]) then []
                        else [Item(n, n, Stripped(log[n - 1]))];
      assert Bodies(r.items + f.items) == Bodies(r.items) + Bodies(f.items);
    }
  }

  lemma {:induction false} UnsplitParsed(log: seq<Line>)
    requires Unsplit(false, log)
    ensures Parsed(log) == ParseBodies(Shown(false, log))
  {
    UnsplitLines(log);
    assert Lines(log) == Run(log).items;
  }

  lemma {:induction false} ShowOne(c: bool, log: seq<Line>, line: Line)
    ensures Capturing(c, log + [line]) == Hidden(Capturing(c, log), line)
    ensures Shown(c, log + [line]) ==
            Shown(c, log) + (if Hidden(Capturing(c, log), line) || IsMarker(line) then [] else [Stripped(line)])
    ensures Unsplit(c, log + [line]) <==>
            Unsplit(c, log) && (Hidden(Capturing(c, log), line) || !(Opens(line) || IsMarkedHead(line)))
  {
    assert (log + [line])[..|log|] == log;
  }

  lemma {:induction false} InParts(c: bool, a: seq<Line>, b: seq<Line>)
    ensures Capturing(c, a + b) == Capturing(Capturing(c, a), b)
    ensures Shown(c, a + b) == Shown(c, a) + Shown(Capturing(c, a), b)
    ensures Unsplit(c, a + b) <==> Unsplit(c, a) && Unsplit(Capturing(c, a), b)
    decreases |b|
  {
    if b == [] {
      assert a + b == a;
    } else {
      var n := |b| - 1;
      InParts(c, a, b[..n]);
      ShowOne(c, a + b[..n], b[n]);
      ShowOne(Capturing(c, a), b[..n], b[n]);
      assert b == b[..n] + [b[n]];
      Regroup(a, b[..n], [b[n]]);
      var last := if Hidden(Capturing(c, a + b[..n]), b[n]) || IsMarker(b[n]) then [] else [Stripped(b[n])];
      Regroup(Shown(c, a), Shown(Capturing(c, a), b[..n]), last);
    }
  }

  predicate NoSummary(bodies: seq<Body>) {
    forall i :: 0 <= i < |bodies| ==> !(bodies[i].Summary? && bodies[i].tally.Some?)
  }

  /** No summary stands behind a fragment; captured output ends at each one. */
  predicate PlainSummaries(log: seq<Line>) {
    forall k :: 0 <= k < |log| ==> log[k].body.Summary? ==> log[k].frags == 0
  }

  /** What is yielded from inside captured output is the end of what would be yielded from outside. */
  lemma {:induction false} CapturedShowsLess(post: seq<Line>) returns (z: seq<Body>)
    ensures Shown(false, post) == z + Shown(true, post)
    ensures Capturing(false, post) ==> Capturing(true, post)
    ensures Capturing(true, post) != Capturing(false, post) ==> Shown(true, post) == []
    ensures Unsplit(false, post) ==> Unsplit(true, post)
    ensures PlainSummaries(post) ==> NoSummary(z)
    decreases |post|
  {
    if post == [] {
      z := [];
    } else {
      var n := |post| - 1;
      var y := CapturedShowsLess(post[..n]);
      if Shown(true, post) == [] {
        z := Shown(false, post);
      } else {
        z := y;
        var inside, outside := Capturing(true, post[..n]), Capturing(false, post[..n]);
        assert !Hidden(inside, post[n]) || inside == outside;
      }
    }
  }

  /** A visible structural line is yielded, and the next line does not stand in captured output. */
  lemma {:induction false} VisibleLine(c: bool, line: Line)
    requires !Hidden(c, line) && Structural(Stripped(line))
    ensures Shown(c, [line]) == [Stripped(line)] && !Capturing(c, [line])
    ensures c ==> line.frags == 0 && line.body.Summary? && Stripped(line) == line.body
  {
    assert [line][..0] == [];
    assert Shown(c, [line][..|[line]| - 1]) == [] && Capturing(c, [line][..|[line]| - 1]) == c;
  }

  /** The line, and lines before and after it, as yielded. */
  lemma {:induction false} AroundLine(pre: seq<Line>, line: Line, post: seq<Line>)
    requires !Hidden(Capturing(false, pre), line) && Structural(Stripped(line)) && Unsplit(false, pre + [line] + post)
    ensures Unsplit(false, pre) && Unsplit(false, post) && Unsplit(false, pre + [line])
    ensures !Capturing(false, pre + [line]) && Shown(false, pre + [line]) == Shown(false, pre) + [Stripped(line)]
    ensures Parsed(pre + [line] + post) == ParseBodies(Shown(false, pre) + [Stripped(line)] + Shown(false, post))
  {
    VisibleLine(Capturing(false, pre), line);
    InParts(false, pre, [line]);
    InParts(false, pre + [line], post);
    UnsplitParsed(pre + [line] + post);
  }

  /**
   The deletion goes unnoticed: the line ends captured output, the next
   structural line then yielded is the same summary, and a test line is left.
   */
  predicate Unnoticed(pre: seq<Line>, line: Line, post: seq<Line>) {
    && Capturing(false, pre) && FirstStructural(Shown(true, post)) == Some(Stripped(line))
    && HasTest(Shown(false, pre) + Shown(true, post))
  }

  lemma {:induction false} RepeatIsRejected(pre: seq<Line>, line: Line, post: seq<Line>)
    requires Unsplit(false, pre + [line] + post) && Parsed(pre + [line] + post).Ok?
    requires !Hidden(Capturing(false, pre), line) && Structural(Stripped(line))
    ensures Parsed(pre + [line] + [line] + post).Err?
  {
    AroundLine(pre, line, post);
    InParts(false, pre, [line]);
    InParts(false, pre + [line], [line]);
    InParts(false, pre + [line] + [line], post);
    VisibleLine(false, line);
    UnsplitParsed(pre + [line] + [line] + post);
    LineTamperingIsRejected(Shown(false, pre), Stripped(line), Shown(false, post));
  }

  lemma {:induction false} DeletionInParts(pre: seq<Line>, post: seq<Line>)
    requires Unsplit(false, pre) && Unsplit(false, post)
    ensures Parsed(pre + post) == ParseBodies(Shown(false, pre) + Shown(Capturing(false, pre), post))
  {
    InParts(false, pre, post);
    var z := CapturedShowsLess(post);
    UnsplitParsed(pre + post);
  }

  /**
   Tampering with one structural line of an accepted log without split
   results. Repeating it is always rejected. Deleting it is rejected except
   in exactly one case: it is the summary that ends captured output, and the
   next structural line yielded then is the same summary.
   */
  lemma {:induction false} TamperingIsRejected(pre: seq<Line>, line: Line, post: seq<Line>)
    requires Unsplit(false, pre + [line] + post) && Parsed(pre + [line] + post).Ok?
    requires !Hidden(Capturing(false, pre), line) && Structural(Stripped(line))
    ensures Parsed(pre + [line] + [line] + post).Err?
    ensures Parsed(pre + post).Ok? <==> Unnoticed(pre, line, post)
  {
    RepeatIsRejected(pre, line, post);
    AroundLine(pre, line, post);
    DeletionInParts(pre, post);
    var a := Shown(false, pre);
    if Capturing(false, pre) {
      VisibleLine(true, line);
      var z := CapturedShowsLess(post);
      assert a + [line.body] + Shown(false, post) == a + [line.body] + z + Shown(true, post);
      SummaryCutOut(a, line.body.tally.value, z, Shown(true, post));
    } else {
      LineTamperingIsRejected(a, Stripped(line), Shown(false, post));
    }
  }

  lemma {:induction false} HiddenLines(hidden: seq<Line>)
    requires forall k :: 0 <= k < |hidden| ==> Hidden(true, hidden[k])
    ensures Capturing(true, hidden) && Shown(true, hidden) == []
    decreases |hidden|
  {
    if hidden != [] {
      HiddenLines(hidden[..|hidden| - 1]);
    }
  }

  lemma {:induction false} FirstOfAppend(a: Body, y: seq<Body>)
    requires Structural(a)
    ensures FirstStructural([a] + y) == Some(a)
  {
  }

  /**
   In lines: with the capture ended next by a readable summary, the deletion
   goes unnoticed if and only if the two summaries agree and a test line is
   left.
   */
  lemma {:induction false} DeletedCaptureEnd(pre: seq<Line>, tally: Tally, hidden: seq<Line>, next: Tally,
                                             rest: seq<Line>)
    requires Capturing(false, pre) && forall k :: 0 <= k < |hidden| ==> Hidden(true, hidden[k])
    requires var post := hidden + [Line(0, Summary(Some(next)))] + rest;
      && Unsplit(false, pre + [Line(0, Summary(Some(tally)))] + post)
      && Parsed(pre + [Line(0, Summary(Some(tally)))] + post).Ok?
    ensures var post := hidden + [Line(0, Summary(Some(next)))] + rest;
      Parsed(pre + post).Ok? <==> tally == next && HasTest(Shown(false, pre) + Shown(true, post))
  {
    var end := Line(0, Summary(Some(next)));
    var post := hidden + [end] + rest;
    HiddenLines(hidden);
    VisibleLine(true, end);
    InParts(true, hidden, [end]);
    InParts(true, hidden + [end], rest);
    assert Shown(true, post) == [end.body] + Shown(false, rest);
    FirstOfAppend(end.body, Shown(false, rest));
    TamperingIsRejected(pre, Line(0, Summary(Some(tally))), post);
  }

  // ---- dropping any line at all ----

  /** Without a summary, a stretch that is level on all three balances holds nothing structural. */
  lemma {:induction false} LevelIsLoose(z: seq<Body>)
    requires NoSummary(z)
    ensures Sum(OfSummaries, z) >= 0 && (Sum(OfSummaries, z) == 0 ==> Sum(OfCounts, z) <= 0)
    ensures Sum(OfSummaries, z) == 0 && Sum(OfCounts, z) == 0 ==> Sum(OfTests, z) >= 0
    ensures (forall b :: Sum(b, z) == 0) ==> forall i :: 0 <= i < |z| ==> !Structural(z[i])
    decreases |z|
  {
    if z != [] {
      LevelIsLoose(z[..|z| - 1]);
      var last := z[|z| - 1];
      if forall b :: Sum(b, z) == 0 {
        assert Sum(OfSummaries, z) == 0 && Sum(OfCounts, z) == 0 && Sum(OfTests, z) == 0;
        assert !Structural(last);
        assert forall b :: Sum(b, z[..|z| - 1]) == Sum(b, z);
      }
    }
  }

  lemma {:induction false} LooseMiddle(a: seq<Body>, n: seq<Body>, y: seq<Body>)
    requires forall i :: 0 <= i < |n| ==> !Structural(n[i])
    ensures ParseBodies(a + n + y) == ParseBodies(a + y)
  {
    LooseWithin(a, n, y);
  }

  lemma {:induction false} LooseWithin(a: seq<Body>, n: seq<Body>, y: seq<Body>)
    requires forall i :: 0 <= i < |n| ==> !Structural(n[i])
    ensures TakeAll(a + n + y) == TakeAll(a + y)
    decreases |y|
  {
    if y == [] {
      LooseTaken(a, n);
      assert a + n + y == a + n && a + y == a;
    } else {
      var z, last := y[..|y| - 1], y[|y| - 1];
      LooseWithin(a, n, z);
      TakeNext(a + n + z, last);
      TakeNext(a + z, last);
      assert a + n + y == a + n + z + [last] && a + y == a + z + [last];
    }
  }

  /** If a log is accepted with and without a stretch that holds no summary, the rows are the same. */
  lemma {:induction false} StretchIsLoose(a: seq<Body>, z: seq<Body>, w: seq<Body>)
    requires NoSummary(z) && ParseBodies(a + z + w).Ok? && ParseBodies(a + w).Ok?
    ensures ParseBodies(a + z + w) == ParseBodies(a + w)
  {
    forall b ensures Sum(b, z) == 0 {
      AcceptedIsLevel(b, a + z + w);
      AcceptedIsLevel(b, a + w);
      SumAppend(b, a + z, w);
      SumAppend(b, a, z);
      SumAppend(b, a, w);
    }
    LevelIsLoose(z);
    LooseMiddle(a, z, w);
  }

  /** Captured output that ends earlier or later by such a stretch, `n` the line that ended it. */
  lemma {:induction false} CaptureMoved(a: seq<Body>, n: seq<Body>, z: seq<Body>, w: seq<Body>)
    requires NoSummary(z) && forall i :: 0 <= i < |n| ==> !Structural(n[i])
    ensures ParseBodies(a + n + (z + w)).Ok? && ParseBodies(a + w).Ok? ==>
            ParseBodies(a + n + (z + w)) == ParseBodies(a + w)
    ensures ParseBodies(a + n + w).Ok? && ParseBodies(a + (z + w)).Ok? ==>
            ParseBodies(a + n + w) == ParseBodies(a + (z + w))
  {
    LooseMiddle(a, n, z + w);
    LooseMiddle(a, n, w);
    Regroup(a, z, w);
    if ParseBodies(a + z + w).Ok? && ParseBodies(a + w).Ok? {
      StretchIsLoose(a, z, w);
    }
  }

  /** A line that is not structural, and what the log shows with it. */
  lemma {:induction false} AroundLoose(pre: seq<Line>, line: Line, post: seq<Line>)
    requires Unsplit(false, pre + [line] + post) && (Hidden(Capturing(false, pre), line) || !Structural(Stripped(line)))
    ensures var c := Capturing(false, pre);
      Parsed(pre + [line] + post) ==
      ParseBodies(Shown(false, pre) + Shown(c, [line]) + Shown(Hidden(c, line), post))
    ensures var c := Capturing(false, pre);
      forall i :: 0 <= i < |Shown(c, [line])| ==> !Structural(Shown(c, [line])[i])
  {
    InParts(false, pre, [line]);
    InParts(false, pre + [line], post);
    ShowOne(Capturing(false, pre), [], line);
    assert [] + [line] == [line];
    UnsplitParsed(pre + [line] + post);
  }

  lemma {:induction false} LogInParts(pre: seq<Line>, post: seq<Line>)
    requires Unsplit(false, pre + post)
    ensures Parsed(pre + post) == ParseBodies(Shown(false, pre) + Shown(Capturing(false, pre), post))
  {
    InParts(false, pre, post);
    UnsplitParsed(pre + post);
  }

  /** The same rest, taken with and without some loose lines, from inside or outside captured output. */
  lemma {:induction false} LooseChange(c: bool, h: bool, a: seq<Body>, n: seq<Body>, post: seq<Line>)
    requires PlainSummaries(post) && forall i :: 0 <= i < |n| ==> !Structural(n[i])
    requires ParseBodies(a + n + Shown(h, post)).Ok? && ParseBodies(a + Shown(c, post)).Ok?
    ensures ParseBodies(a + n + Shown(h, post)) == ParseBodies(a + Shown(c, post))
  {
    if h == c {
      LooseMiddle(a, n, Shown(c, post));
    } else {
      var z := CapturedShowsLess(post);
      CaptureMoved(a, n, z, Shown(true, post));
    }
  }

  /** A line that is hidden or not structural. */
  lemma {:induction false} DroppedLoose(pre: seq<Line>, line: Line, post: seq<Line>)
    requires Unsplit(false, pre + [line] + post) && Unsplit(false, pre + post) && PlainSummaries(post)
    requires Parsed(pre + [line] + post).Ok? && Parsed(pre + post).Ok?
    requires Hidden(Capturing(false, pre), line) || !Structural(Stripped(line))
    ensures Parsed(pre + post) == Parsed(pre + [line] + post)
  {
    var c := Capturing(false, pre);
    AroundLoose(pre, line, post);
    LogInParts(pre, post);
    LooseChange(c, Hidden(c, line), Shown(false, pre), Shown(c, [line]), post);
  }

  /**
   The promise of `parse` for any line whatever: where no result is split and
   no summary stands behind a fragment, a log that has lost one line is
   rejected, or gives the same rows, or has lost a summary that ended captured
   output and is followed by the same one.
   */
  lemma {:induction false} DroppedLine(pre: seq<Line>, line: Line, post: seq<Line>)
    requires Unsplit(false, pre + [line] + post) && Unsplit(false, pre + post) && PlainSummaries(post)
    requires Parsed(pre + [line] + post).Ok?
    ensures Parsed(pre + post).Err? || Parsed(pre + post) == Parsed(pre + [line] + post) ||
            (line.body.Summary? && Unnoticed(pre, line, post))
  {
    if !Hidden(Capturing(false, pre), line) && Structural(Stripped(line)) {
      TamperingIsRejected(pre, line, post);
      if Capturing(false, pre) {
        VisibleLine(true, line);
      }
    } else if Parsed(pre + post).Ok? {
      DroppedLoose(pre, line, post);
    }
  }

  // ---- at one input ----

  const FAILED := Outcome(TestLog.Failed, Nothing, Whole)
  const ONE_FAILED := Tally(0, 1, 0, 0)

  /** A section with one failed test, and the start of its captured output. */
  function FailedSection(binary: string, name: string): seq<Line> {
    [Line(0, Header(binary)), Line(0, Count(1)), Line(0, Result(name, 0, FAILED))]
  }

  function FailedBlock(binary: string, name: string): Block {
    Block(binary, [(name, FAILED)])
  }

  lemma {:induction false} SectionShown(c: bool, binary: string, name: string)
    ensures Capturing(c, FailedSection(binary, name)) == c && Unsplit(c, FailedSection(binary, name))
    ensures Shown(c, FailedSection(binary, name)) ==
            if c then [] else [Header(binary), Count(1), Result(name, 0, FAILED)]
  {
    var s := FailedSection(binary, name);
    ShowOne(c, [], s[0]);
    ShowOne(c, [] + [s[0]], s[1]);
    ShowOne(c, [] + [s[0]] + [s[1]], s[2]);
    assert s == [] + [s[0]] + [s[1]] + [s[2]];
  }

  lemma {:induction false} FailedBlockLines(binary: string, name: string)
    ensures BlockLines(FailedBlock(binary, name)) ==
            [Header(binary), Count(1), Result(name, 0, FAILED)] + [Summary(Some(ONE_FAILED))]
    ensures RowsOf(binary, FailedBlock(binary, name).tests) == [Row(binary, name, FAILED)]
  {
    var rows := RowsOf(binary, FailedBlock(binary, name).tests);
    assert rows == [Row(binary, name, FAILED)] && rows[..0] == [];
    TallyCounts(rows);
    assert TallyOf(rows) == Counted(TallyOf([]), FAILED) == ONE_FAILED;
    assert TestLines(FailedBlock(binary, name).tests) == [Result(name, 0, FAILED)];
  }

  lemma {:induction false} BlocksParsed(blocks: seq<Block>)
    requires AllRows(blocks) != [] && |blocks| > 0
    ensures ParseBodies(AllLines(blocks)) == Ok(AllRows(blocks))
  {
    BlocksTaken(blocks);
  }

  lemma {:induction false} OneBlock(b: Block)
    ensures AllLines([b]) == BlockLines(b) && AllRows([b]) == RowsOf(b.binary, b.tests)
  {
    assert [b][..0] == [];
    assert AllLines([b][..|[b]| - 1]) == [] && AllRows([b][..|[b]| - 1]) == [];
  }

  lemma {:induction false} TwoBlocks(b: Block, d: Block)
    ensures AllLines([b, d]) == BlockLines(b) + BlockLines(d)
    ensures AllRows([b, d]) == RowsOf(b.binary, b.tests) + RowsOf(d.binary, d.tests)
  {
    OneBlock(b);
    assert [b, d][..1] == [b];
  }

  const SUMMARY := Line(0, Summary(Some(ONE_FAILED)))

  function Capture(binary: string, name: string): seq<Line> {
    FailedSection(binary, name) + [Line(0, CaptureOpen)]
  }

  function Complete(binary: string, name: string): seq<Line> {
    FailedSection(binary, name) + [SUMMARY]
  }

  lemma {:induction false} CaptureShown(binary: string, name: string)
    ensures Capturing(false, Capture(binary, name)) && Unsplit(false, Capture(binary, name))
    ensures Shown(false, Capture(binary, name)) == Shown(false, FailedSection(binary, name))
  {
    SectionShown(false, binary, name);
    ShowOne(false, FailedSection(binary, name), Line(0, CaptureOpen));
  }

  lemma {:induction false} CompleteShown(c: bool, binary: string, name: string)
    ensures !Capturing(c, Complete(binary, name)) && Unsplit(c, Complete(binary, name))
    ensures Shown(c, Complete(binary, name)) ==
            Shown(c, FailedSection(binary, name)) + [Summary(Some(ONE_FAILED))]
  {
    SectionShown(c, binary, name);
    ShowOne(c, FailedSection(binary, name), SUMMARY);
  }

  lemma {:induction false} BothShown(a: string, x: string, b: string, y: string)
    ensures var log := Capture(a, x) + [SUMMARY] + Complete(b, y);
      Unsplit(false, log) && Shown(false, log) == BlockLines(FailedBlock(a, x)) + BlockLines(FailedBlock(b, y))
  {
    CaptureShown(a, x);
    SectionShown(false, a, x);
    CompleteShown(false, b, y);
    SectionShown(false, b, y);
    ShowOne(false, Capture(a, x), SUMMARY);
    InParts(false, Capture(a, x) + [SUMMARY], Complete(b, y));
    FailedBlockLines(a, x);
    FailedBlockLines(b, y);
  }

  lemma {:induction false} BothSections(a: string, x: string, b: string, y: string)
    ensures Parsed(Capture(a, x) + [SUMMARY] + Complete(b, y)) == Ok([Row(a, x, FAILED), Row(b, y, FAILED)])
  {
    BothShown(a, x, b, y);
    UnsplitParsed(Capture(a, x) + [SUMMARY] + Complete(b, y));
    FailedBlockLines(a, x);
    FailedBlockLines(b, y);
    TwoBlocks(FailedBlock(a, x), FailedBlock(b, y));
    assert [Row(a, x, FAILED)] + [Row(b, y, FAILED)] == [Row(a, x, FAILED), Row(b, y, FAILED)];
    BlocksParsed([FailedBlock(a, x), FailedBlock(b, y)]);
  }

  lemma {:induction false} FirstSectionOnly(a: string, x: string, b: string, y: string)
    ensures Parsed(Capture(a, x) + Complete(b, y)) == Ok([Row(a, x, FAILED)])
  {
    CaptureShown(a, x);
    SectionShown(false, a, x);
    CompleteShown(true, b, y);
    SectionShown(true, b, y);
    InParts(false, Capture(a, x), Complete(b, y));
    UnsplitParsed(Capture(a, x) + Complete(b, y));
    FailedBlockLines(a, x);
    OneBlock(FailedBlock(a, x));
    BlocksParsed([FailedBlock(a, x)]);
  }

  /**
   A deletion that goes unnoticed: two failed sections, the first with
   captured output. Without the first summary the whole second section is
   taken for captured output, and its summary closes the first.
   */
  lemma {:induction false} DroppedSummaryHidesASection(a: string, x: string, b: string, y: string)
    ensures Parsed(Capture(a, x) + [SUMMARY] + Complete(b, y)) == Ok([Row(a, x, FAILED), Row(b, y, FAILED)])
    ensures Parsed(Capture(a, x) + Complete(b, y)) == Ok([Row(a, x, FAILED)])
  {
    BothSections(a, x, b, y);
    FirstSectionOnly(a, x, b, y);
  }
}
